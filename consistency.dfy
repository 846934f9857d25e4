/** How the artifacts of one build refer to each other: the manifest, the
    icon files, the precache list and the links added to the page. */
module Consistency {
  import opened Wrappers
  import opened Decimal
  import opened WebManifest
  import opened Precache
  import opened Html
  import Paths

  /** The i-th manifest icon is cached under its own `src`, at position 5 + i. */
  lemma ManifestIconsArePrecached(javascriptFile: string, name: string, short: string, sizes: seq<nat>, style: Option<string>)
    ensures var urls := PrecacheList(javascriptFile, ManifestFilename(short), IconFiles(short, sizes, style));
            var m := ManifestOf(name, short, sizes);
            |urls| >= 5 + |m.icons| &&
            forall i :: 0 <= i < |m.icons| ==> urls[5 + i] == "/" + m.icons[i].src
  {
    var urls := PrecacheList(javascriptFile, ManifestFilename(short), IconFiles(short, sizes, style));
    var m := ManifestOf(name, short, sizes);
    forall i | 0 <= i < |m.icons| ensures urls[5 + i] == "/" + m.icons[i].src {
      SizedIconUrl(short, sizes, style, i);
    }
  }

  /** With distinct sizes and a script name that clashes with no generated
      file, each manifest icon occurs exactly once in the precache list. */
  lemma ManifestIconsCachedOnce(javascriptFile: string, name: string, short: string, sizes: seq<nat>, style: Option<string>, i: nat)
    requires Distinct(sizes) && ScriptNameIsFree(javascriptFile, short)
    requires i < |sizes|
    ensures var urls := PrecacheList(javascriptFile, ManifestFilename(short), IconFiles(short, sizes, style));
            multiset(urls)["/" + ManifestOf(name, short, sizes).icons[i].src] == 1
  {
    var urls := PrecacheList(javascriptFile, ManifestFilename(short), IconFiles(short, sizes, style));
    ManifestIconsArePrecached(javascriptFile, name, short, sizes, style);
    PrecacheDistinct(javascriptFile, short, sizes, style);
    DistinctOccursOnce(urls, 5 + i);
  }

  /** The manifest's file name is the one the precache list names, inlined
      or not, and the one the page links to when it is not inlined. */
  lemma ManifestFilenameAgrees(short: string, title: string, style: Option<string>, inline: bool, manifestJson: string,
                               javascriptFile: string, files: seq<IconFile>)
    ensures PrecacheList(javascriptFile, ManifestFilename(short), files)[4] == "/" + short + ".manifest"
    ensures var h := HeadAdditions(short, title, style, inline, manifestJson);
            !inline ==> h[|h| - 1].attrs["href"] == short + ".manifest"
  {
  }

  /** The favicon the page links to is the last icon file generated, and it
      is the last URL in the precache list. */
  lemma FaviconAgrees(short: string, title: string, sizes: seq<nat>, style: Option<string>, inline: bool,
                      manifestJson: string, javascriptFile: string)
    requires style == Some("png") || style == Some("ico")
    ensures var h := HeadAdditions(short, title, style, inline, manifestJson);
            var fs := IconFiles(short, sizes, style);
            var urls := PrecacheList(javascriptFile, ManifestFilename(short), fs);
            fs[|fs| - 1].dir.None? &&
            h[7].attrs["href"] == fs[|fs| - 1].filename &&
            urls[|urls| - 1] == "/" + h[7].attrs["href"]
  {
    var h := HeadAdditions(short, title, style, inline, manifestJson);
    var fs := IconFiles(short, sizes, style);
    assert fs[|fs| - 1] == FaviconFiles(style)[0];
    assert h[7] == FaviconLinks(style)[0];
  }

  /** The Windows tile image is a generated icon when 144 is a configured
      size: the manifest lists it and the precache list holds it. */
  lemma TileImageIsGenerated(javascriptFile: string, name: string, short: string, sizes: seq<nat>, style: Option<string>)
    requires 144 in sizes
    ensures var m := ManifestOf(name, short, sizes);
            var urls := PrecacheList(javascriptFile, ManifestFilename(short), IconFiles(short, sizes, style));
            exists i :: 0 <= i < |m.icons| && m.icons[i].src == TileImage(short) && urls[5 + i] == "/" + TileImage(short)
  {
    var i :| 0 <= i < |sizes| && sizes[i] == 144;
    var m := ManifestOf(name, short, sizes);
    assert NatToString(144) == "144" by {
      assert NatToString(14) == "14" by { assert NatToString(1) == "1"; }
    }
    assert m.icons[i].src == TileImage(short);
    ManifestIconsArePrecached(javascriptFile, name, short, sizes, style);
  }

  /** Each icon file is written at the build directory followed by its cache
      URL, so the URLs the worker fetches are the files the build wrote. */
  lemma IconWrittenWhereCached(buildDir: string, short: string, sizes: seq<nat>, style: Option<string>, k: nat)
    requires buildDir != [] && !Paths.EndsWithSep(buildDir)
    requires !Paths.StartsWithSep(short)
    requires k < |IconFiles(short, sizes, style)|
    ensures var f := IconFiles(short, sizes, style)[k];
            IconPath(buildDir, f) == buildDir + CacheUrl(f)
  {
    var f := IconFiles(short, sizes, style)[k];
    if k < |sizes| {
      assert f == IconFile(Some(ImagesDirName), IconFilename(short, sizes[k]));
      assert !Paths.StartsWithSep(f.filename) by {
        if short == [] { assert f.filename[0] == '-'; } else { assert f.filename[0] == short[0]; }
      }
    } else {
      assert f == FaviconFiles(style)[k - |sizes|];
      assert f.filename[0] == 'f';
    }
    IconPathShape(buildDir, f);
  }

  /** Finding, as written: the touch-icon href repeats the extension, so no
      icon the build generates has that name, whatever the sizes. */
  lemma AppleTouchIconHrefAsWrittenDangles(short: string, size: nat)
    ensures AppleTouchIconHrefAsWritten(short) != IconSrc(short, size)
  {
    var w := AppleTouchIconHrefAsWritten(short);
    var g := IconSrc(short, size);
    var n := NatToString(size);
    assert w == ("images/" + short + "-icon-167.png") + ".png";
    assert g == ("images/" + short + "-icon-" + n) + ".png";
    if |w| == |g| {
      assert w[|w| - 5] == 'g';
      assert g[|g| - 5] == n[|n| - 1];
      assert IsDigit(n[|n| - 1]);
    }
  }

  /** Finding, as intended: the touch-icon href is the generated 167-pixel
      icon, listed in the manifest and cached, when 167 is a configured size. */
  lemma AppleTouchIconHrefIsGenerated(javascriptFile: string, name: string, short: string, sizes: seq<nat>, style: Option<string>)
    requires 167 in sizes
    ensures var m := ManifestOf(name, short, sizes);
            var urls := PrecacheList(javascriptFile, ManifestFilename(short), IconFiles(short, sizes, style));
            exists i :: 0 <= i < |m.icons| && m.icons[i].src == AppleTouchIconHref(short) &&
                        urls[5 + i] == "/" + AppleTouchIconHref(short)
  {
    var i :| 0 <= i < |sizes| && sizes[i] == 167;
    var m := ManifestOf(name, short, sizes);
    assert m.icons[i].src == AppleTouchIconHref(short);
    ManifestIconsArePrecached(javascriptFile, name, short, sizes, style);
  }
}
