/** The list of URLs the service worker caches when it installs: the page,
    the game script, the worker itself, the manifest and every icon file. */
module Precache {
  import opened Wrappers
  import opened Decimal
  import opened WebManifest
  import Paths

  /** The cache URL of an icon file: `"/{path}/{filename}"`, or
      `"/{filename}"` when it has no sub-directory. */
  function CacheUrl(f: IconFile): string
  {
    match f.dir
    case Some(p) => "/" + p + "/" + f.filename
    case None => "/" + f.filename
  }

  /** The five URLs every precache list starts with. */
  function FixedUrls(javascriptFile: string, manifestFilename: string): seq<string>
  {
    ["/", "/index.html", "/" + javascriptFile, "/sw.js", "/" + manifestFilename]
  }

  /** One URL per icon file, in order. */
  function IconUrls(files: seq<IconFile>): seq<string>
  {
    seq(|files|, i requires 0 <= i < |files| => CacheUrl(files[i]))
  }

  /** The precache list: the fixed URLs, then the icon URLs. */
  function PrecacheList(javascriptFile: string, manifestFilename: string, files: seq<IconFile>): seq<string>
  {
    FixedUrls(javascriptFile, manifestFilename) + IconUrls(files)
  }

  predicate Distinct<T(==)>(s: seq<T>)
  {
    forall i, j :: 0 <= i < j < |s| ==> s[i] != s[j]
  }

  /** A file name the game script may have without clashing with a file
      pwap8 itself puts at the top of the build directory. */
  predicate ScriptNameIsFree(javascriptFile: string, short: string)
  {
    javascriptFile != "" && Paths.NoSep(javascriptFile) &&
    javascriptFile !in {"index.html", "sw.js", FaviconPng, FaviconIco, ManifestFilename(short)}
  }

  /** Shape of the list: length, the five fixed URLs in order, then the icon
      URLs in the order of the icon files. */
  lemma PrecacheShape(javascriptFile: string, manifestFilename: string, files: seq<IconFile>)
    ensures var urls := PrecacheList(javascriptFile, manifestFilename, files);
            |urls| == 5 + |files| &&
            urls[0] == "/" && urls[1] == "/index.html" && urls[2] == "/" + javascriptFile &&
            urls[3] == "/sw.js" && urls[4] == "/" + manifestFilename &&
            forall i :: 0 <= i < |files| ==>
              urls[5 + i] == (if files[i].dir.Some? then "/" + files[i].dir.value + "/" + files[i].filename
                              else "/" + files[i].filename)
  {
  }

  function Last(s: string): char
    requires s != []
  {
    s[|s| - 1]
  }

  /** The URL of the i-th sized icon. */
  lemma SizedIconUrl(short: string, sizes: seq<nat>, style: Option<string>, i: nat)
    requires i < |sizes|
    ensures var u := CacheUrl(IconFiles(short, sizes, style)[i]);
            u == "/images/" + short + "-icon-" + NatToString(sizes[i]) + ".png" &&
            |u| > 8 && u[..8] == "/images/" && Last(u) == 'g'
  {
    var u := CacheUrl(IconFiles(short, sizes, style)[i]);
    assert u == "/images/" + (short + "-icon-" + NatToString(sizes[i]) + ".png");
  }

  /** Two sized icon URLs are equal only for equal sizes. */
  lemma SizedIconUrlsDiffer(short: string, sizes: seq<nat>, style: Option<string>, i: nat, j: nat)
    requires i < j < |sizes| && sizes[i] != sizes[j]
    ensures CacheUrl(IconFiles(short, sizes, style)[i]) != CacheUrl(IconFiles(short, sizes, style)[j])
  {
    var fs := IconFiles(short, sizes, style);
    if CacheUrl(fs[i]) == CacheUrl(fs[j]) {
      assert CacheUrl(fs[i]) == "/" + IconSrc(short, sizes[i]);
      assert CacheUrl(fs[j]) == "/" + IconSrc(short, sizes[j]);
      assert IconSrc(short, sizes[i]) == CacheUrl(fs[i])[1..];
      IconSrcInjective(short, sizes[i], sizes[j]);
    }
  }

  /** Two lists without repeats and without a common entry concatenate to
      a list without repeats. */
  lemma DistinctAppend<T>(a: seq<T>, b: seq<T>)
    requires Distinct(a) && Distinct(b)
    requires forall i, j :: 0 <= i < |a| && 0 <= j < |b| ==> a[i] != b[j]
    ensures Distinct(a + b)
  {
    forall i, j | 0 <= i < j < |a + b| ensures (a + b)[i] != (a + b)[j] {
      if j < |a| {
      } else if i >= |a| {
        assert (a + b)[i] == b[i - |a|] && (a + b)[j] == b[j - |a|];
      } else {
        assert (a + b)[j] == b[j - |a|];
      }
    }
  }

  /** The five fixed URLs differ from each other when the script name is free. */
  lemma FixedUrlsDistinct(javascriptFile: string, short: string)
    requires ScriptNameIsFree(javascriptFile, short)
    ensures Distinct(FixedUrls(javascriptFile, ManifestFilename(short)))
  {
    var js := "/" + javascriptFile;
    var mf := "/" + ManifestFilename(short);
    assert Last(mf) == 't';
    assert js[1..] == javascriptFile && mf[1..] == ManifestFilename(short);
    assert "/index.html"[1..] == "index.html" && "/sw.js"[1..] == "sw.js";
  }

  /** Each icon URL starts with '/': a sized icon has 'i' next, a '/' at
      position 7 and ends in 'g'; the favicon, which can only be the last
      file, has 'f' next, no other '/', and is `"/" + filename`. */
  lemma IconUrlKinds(short: string, sizes: seq<nat>, style: Option<string>, k: nat)
    requires k < |IconFiles(short, sizes, style)|
    ensures var u := CacheUrl(IconFiles(short, sizes, style)[k]);
            |u| > 8 && u[0] == '/' &&
            if k < |sizes| then u[1] == 'i' && u[7] == '/' && Last(u) == 'g'
            else k == |sizes| && u[1] == 'f' && Paths.NoSep(u[1..]) &&
                 (u[1..] == FaviconPng || u[1..] == FaviconIco) && (Last(u) == 'g' || Last(u) == 'o')
  {
    var fs := IconFiles(short, sizes, style);
    if k < |sizes| {
      SizedIconUrl(short, sizes, style, k);
    } else {
      assert fs[k] == FaviconFiles(style)[k - |sizes|];
      var u := CacheUrl(fs[k]);
      assert u[1..] == fs[k].filename;
    }
  }

  /** Icon URLs differ from each other when the sizes do. */
  lemma IconUrlsDistinct(short: string, sizes: seq<nat>, style: Option<string>)
    requires Distinct(sizes)
    ensures Distinct(IconUrls(IconFiles(short, sizes, style)))
  {
    var us := IconUrls(IconFiles(short, sizes, style));
    forall i, j | 0 <= i < j < |us| ensures us[i] != us[j] {
      IconUrlKinds(short, sizes, style, i);
      IconUrlKinds(short, sizes, style, j);
      if j < |sizes| {
        SizedIconUrlsDiffer(short, sizes, style, i, j);
      }
    }
  }

  /** The script's URL is no icon URL: a sized icon has a '/' where a plain
      file name has none, and the favicon names are not free. */
  lemma ScriptUrlNotIconUrl(javascriptFile: string, short: string, sizes: seq<nat>, style: Option<string>, j: nat)
    requires ScriptNameIsFree(javascriptFile, short)
    requires j < |IconFiles(short, sizes, style)|
    ensures "/" + javascriptFile != CacheUrl(IconFiles(short, sizes, style)[j])
  {
    var a := "/" + javascriptFile;
    var b := CacheUrl(IconFiles(short, sizes, style)[j]);
    IconUrlKinds(short, sizes, style, j);
    assert a[1..] == javascriptFile;
    if j < |sizes| && |a| > 7 {
      assert a[7] == javascriptFile[6];
    }
  }

  /** The other four fixed URLs end in a character no icon URL ends in, or
      are too short. */
  lemma OtherFixedUrlsNotIconUrls(javascriptFile: string, short: string, sizes: seq<nat>, style: Option<string>, j: nat)
    requires j < |IconFiles(short, sizes, style)|
    ensures var b := CacheUrl(IconFiles(short, sizes, style)[j]);
            b != "/" && b != "/index.html" && b != "/sw.js" && b != "/" + ManifestFilename(short)
  {
    var b := CacheUrl(IconFiles(short, sizes, style)[j]);
    IconUrlKinds(short, sizes, style, j);
    assert Last("/index.html") == 'l' && Last("/sw.js") == 's';
    assert Last("/" + ManifestFilename(short)) == 't';
  }

  /** No icon URL equals one of the five fixed URLs. */
  lemma FixedAndIconUrlsDisjoint(javascriptFile: string, short: string, sizes: seq<nat>, style: Option<string>)
    requires ScriptNameIsFree(javascriptFile, short)
    ensures var a := FixedUrls(javascriptFile, ManifestFilename(short));
            var b := IconUrls(IconFiles(short, sizes, style));
            forall i, j :: 0 <= i < |a| && 0 <= j < |b| ==> a[i] != b[j]
  {
    var b := IconUrls(IconFiles(short, sizes, style));
    forall j | 0 <= j < |b|
      ensures b[j] != "/" && b[j] != "/index.html" && b[j] != "/" + javascriptFile
      ensures b[j] != "/sw.js" && b[j] != "/" + ManifestFilename(short)
    {
      ScriptUrlNotIconUrl(javascriptFile, short, sizes, style, j);
      OtherFixedUrlsNotIconUrls(javascriptFile, short, sizes, style, j);
    }
  }

  /** With distinct sizes and a script name that clashes with nothing
      pwap8 writes, every URL in the precache list appears once. */
  lemma PrecacheDistinct(javascriptFile: string, short: string, sizes: seq<nat>, style: Option<string>)
    requires Distinct(sizes)
    requires ScriptNameIsFree(javascriptFile, short)
    ensures Distinct(PrecacheList(javascriptFile, ManifestFilename(short), IconFiles(short, sizes, style)))
  {
    FixedUrlsDistinct(javascriptFile, short);
    IconUrlsDistinct(short, sizes, style);
    FixedAndIconUrlsDisjoint(javascriptFile, short, sizes, style);
    DistinctAppend(FixedUrls(javascriptFile, ManifestFilename(short)), IconUrls(IconFiles(short, sizes, style)));
  }

  /** In a list without repeats, an entry occurs exactly once. */
  lemma {:induction false} DistinctOccursOnce<T>(s: seq<T>, k: nat)
    requires Distinct(s) && k < |s|
    ensures multiset(s)[s[k]] == 1
  {
    if |s| == 1 {
    } else if k == |s| - 1 {
      var init := s[..|s| - 1];
      assert s == init + [s[k]];
      assert s[k] !in init by {
        forall m | 0 <= m < |init| ensures init[m] != s[k] { assert init[m] == s[m]; }
      }
    } else {
      var init := s[..|s| - 1];
      assert s == init + [s[|s| - 1]];
      assert Distinct(init) by {
        forall a, b | 0 <= a < b < |init| ensures init[a] != init[b] { assert init[a] == s[a] && init[b] == s[b]; }
      }
      DistinctOccursOnce(init, k);
      assert init[k] == s[k];
    }
  }
}
