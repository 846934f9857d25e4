/** The `PWAP8` build object: its configuration fields, the derived paths,
    and the steps of a build that produce the manifest, the icon file list,
    the precache list, the service worker and the augmented page. */
module Pwap8 {
  import opened Wrappers
  import opened WebManifest
  import opened Precache
  import opened ServiceWorker
  import opened Html
  import Paths

  /** A text file the build writes: where, and what. */
  datatype File = File(path: string, content: string)

  /** What one build produces besides the image data and the page markup. */
  datatype BuildResult = BuildResult(
    manifestFilename: string,
    manifest: Manifest,
    manifestFile: Option<File>,
    iconFiles: seq<IconFile>,
    iconPaths: seq<string>,
    precache: seq<string>,
    serviceWorker: File,
    pagePath: string,
    scriptCopy: string)

  /** The short name the command line settles on: `--short` when given,
      otherwise the full project name. */
  function ShortNameOf(name: string, short: Option<string>): (r: string)
    ensures short.Some? ==> r == short.value
    ensures short.None? ==> r == name
  {
    match short
    case Some(s) => s
    case None => name
  }

  class PWAP8 {
    var projectName: string
    var projectNameShort: string
    var srcHTML: string
    var srcJS: string
    var srcICON: Option<string>
    var buildDir: Option<string>
    var faviconStyle: Option<string>
    var inlineManifest: bool
    var iconSizes: seq<nat>
    // set by FindPaths
    var imagesDir: Option<string>
    var javascriptFile: Option<string>

    /** A fresh object with the command line's values assigned (the short
        name defaulting to the full name): default favicon style "png",
        manifest written to its own file, the default icon sizes, and no
        derived paths yet. */
    constructor (projectName: string, short: Option<string>, srcHTML: string, srcJS: string,
                 srcICON: Option<string>, buildDir: Option<string>)
      ensures this.projectName == projectName && projectNameShort == ShortNameOf(projectName, short)
      ensures this.srcHTML == srcHTML && this.srcJS == srcJS
      ensures this.srcICON == srcICON && this.buildDir == buildDir
      ensures faviconStyle == Some("png") && !inlineManifest
      ensures iconSizes == [32, 128, 144, 152, 167, 180, 192, 256, 512]
      ensures imagesDir.None? && javascriptFile.None?
    {
      this.projectName := projectName;
      projectNameShort := ShortNameOf(projectName, short);
      this.srcHTML := srcHTML;
      this.srcJS := srcJS;
      this.srcICON := srcICON;
      this.buildDir := buildDir;
      faviconStyle := Some("png");
      inlineManifest := false;
      iconSizes := DefaultIconSizes;
      imagesDir := None;
      javascriptFile := None;
    }

    /** `_findPaths`: the build directory defaults to `<cwd>/build`, images go
        to its `images` sub-directory, the sources become absolute, and the
        script's file name is the last component of its path. */
    method FindPaths(cwd: string)
      modifies this
      ensures old(buildDir).Some? ==> buildDir == old(buildDir)
      ensures old(buildDir).None? ==> buildDir == Some(Paths.Join(cwd, "build"))
      ensures buildDir.Some? && imagesDir == Some(Paths.Join(buildDir.value, "images"))
      ensures srcHTML == Paths.AbsPath(cwd, old(srcHTML)) && srcJS == Paths.AbsPath(cwd, old(srcJS))
      ensures javascriptFile == Some(Paths.Tail(srcJS)) && javascriptFile.value == Paths.Tail(old(srcJS))
      ensures projectName == old(projectName) && projectNameShort == old(projectNameShort)
      ensures srcICON == old(srcICON) && faviconStyle == old(faviconStyle)
      ensures inlineManifest == old(inlineManifest) && iconSizes == old(iconSizes)
    {
      ghost var js0 := srcJS;
      if buildDir.None? {
        buildDir := Some(Paths.Join(cwd, "build"));
      }
      imagesDir := Some(Paths.Join(buildDir.value, "images"));
      srcHTML := Paths.AbsPath(cwd, srcHTML);
      srcJS := Paths.AbsPath(cwd, srcJS);
      // the second half of os.path.split
      javascriptFile := Some(Paths.Tail(srcJS));
      Paths.TailOfAbsPath(cwd, js0);
    }

    /** `_createManifest`: the fixed fields and one icon per configured size,
        in order. Nothing of the object changes. */
    method CreateManifest() returns (m: Manifest)
      ensures m.name == projectName && m.shortName == projectNameShort
      ensures m.startUrl == "/index.html" && m.display == "standalone"
      ensures m.themeColor == "white" && m.backgroundColor == "white" && m.lang == "en-US"
      ensures |m.icons| == |iconSizes|
      ensures forall i :: 0 <= i < |iconSizes| ==> m.icons[i] == IconOf(projectNameShort, iconSizes[i])
      ensures m == ManifestOf(projectName, projectNameShort, iconSizes)
    {
      m := Manifest(projectName, projectNameShort, StartUrl, Display, ThemeColor, BackgroundColor, Lang, []);
      var i := 0;
      while i < |iconSizes|
        invariant 0 <= i <= |iconSizes|
        invariant m.name == projectName && m.shortName == projectNameShort
        invariant m.startUrl == StartUrl && m.display == Display && m.themeColor == ThemeColor
        invariant m.backgroundColor == BackgroundColor && m.lang == Lang
        invariant |m.icons| == i
        invariant forall k :: 0 <= k < i ==> m.icons[k] == IconOf(projectNameShort, iconSizes[k])
      {
        var size := iconSizes[i];
        var icon := Icon(IconSrc(projectNameShort, size), SizesText(size), IconMimeType);
        m := m.(icons := m.icons + [icon]);
        i := i + 1;
      }
    }

    /** `_iconPath`: an icon file's place under the build directory. For a
        build directory and names without stray separators this is the build
        directory followed by the file's cache URL, and in every case the
        file name of the path is the icon's own file name. */
    function IconPathOf(f: IconFile): (p: string)
      reads this
      requires buildDir.Some?
      ensures buildDir.value != [] && !Paths.EndsWithSep(buildDir.value) && !Paths.StartsWithSep(f.filename) &&
              (f.dir.Some? ==> f.dir.value != [] && !Paths.StartsWithSep(f.dir.value) && !Paths.EndsWithSep(f.dir.value))
              ==> p == buildDir.value + CacheUrl(f)
      ensures f.filename != [] && Paths.NoSep(f.filename) ==> Paths.Tail(p) == f.filename
    {
      var p := IconPath(buildDir.value, f);
      assert buildDir.value != [] && !Paths.EndsWithSep(buildDir.value) && !Paths.StartsWithSep(f.filename) &&
             (f.dir.Some? ==> f.dir.value != [] && !Paths.StartsWithSep(f.dir.value) && !Paths.EndsWithSep(f.dir.value))
             ==> p == buildDir.value + CacheUrl(f) by {
        if buildDir.value != [] && !Paths.EndsWithSep(buildDir.value) && !Paths.StartsWithSep(f.filename) &&
           (f.dir.Some? ==> f.dir.value != [] && !Paths.StartsWithSep(f.dir.value) && !Paths.EndsWithSep(f.dir.value)) {
          IconPathShape(buildDir.value, f);
        }
      }
      assert f.filename != [] && Paths.NoSep(f.filename) ==> Paths.Tail(p) == f.filename by {
        if f.filename != [] && Paths.NoSep(f.filename) {
          var logical := if f.dir.Some? then Paths.Join(f.dir.value, f.filename) else f.filename;
          assert p == Paths.Join(buildDir.value, logical);
          Paths.TailOfJoin(buildDir.value, logical);
          if f.dir.Some? { Paths.TailOfJoin(f.dir.value, f.filename); }
          Paths.TailOfPlainName(f.filename);
        }
      }
      p
    }

    /** `_createIcons` without the image work: the icon files in the order
        they are saved (one per configured size, then the favicon for the
        "png" or "ico" style), and the paths they are saved under. */
    method CreateIcons() returns (files: seq<IconFile>, saved: seq<string>)
      requires buildDir.Some?
      ensures files == IconFiles(projectNameShort, iconSizes, faviconStyle)
      ensures |files| == |iconSizes| + (if faviconStyle in {Some("png"), Some("ico")} then 1 else 0)
      ensures |saved| == |files| && forall i :: 0 <= i < |files| ==> saved[i] == IconPath(buildDir.value, files[i])
    {
      files, saved := [], [];
      var i := 0;
      while i < |iconSizes|
        invariant 0 <= i <= |iconSizes|
        invariant |files| == i && |saved| == i
        invariant forall k :: 0 <= k < i ==>
          files[k] == IconFile(Some(ImagesDirName), IconFilename(projectNameShort, iconSizes[k]))
        invariant forall k :: 0 <= k < i ==> saved[k] == IconPath(buildDir.value, files[k])
      {
        var f := IconFile(Some(ImagesDirName), IconFilename(projectNameShort, iconSizes[i]));
        saved := saved + [IconPathOf(f)];
        files := files + [f];
        i := i + 1;
      }
      var favicons, faviconPaths := CreateFavicon();
      files, saved := files + favicons, saved + faviconPaths;
    }

    /** The favicon step of `_createIcons`: "favicon-32.png" for the "png"
        style, "favicon.ico" for "ico", nothing otherwise. */
    method CreateFavicon() returns (files: seq<IconFile>, saved: seq<string>)
      requires buildDir.Some?
      ensures files == FaviconFiles(faviconStyle)
      ensures |saved| == |files| && forall i :: 0 <= i < |files| ==> saved[i] == IconPath(buildDir.value, files[i])
    {
      files, saved := [], [];
      if faviconStyle.Some? {
        if faviconStyle.value == "png" {
          var f := IconFile(None, FaviconPng);
          saved := [IconPathOf(f)];
          files := [f];
        } else if faviconStyle.value == "ico" {
          var f := IconFile(None, FaviconIco);
          saved := [IconPathOf(f)];
          files := [f];
        }
      }
    }

    /** The `cachedThings` list of `Run`: the page root, the page, the game
        script, the worker, the manifest, then one URL per icon file. */
    method CachedThings(manifestFilename: string, files: seq<IconFile>) returns (urls: seq<string>)
      requires javascriptFile.Some?
      ensures |urls| == 5 + |files|
      ensures urls[..5] == ["/", "/index.html", "/" + javascriptFile.value, "/sw.js", "/" + manifestFilename]
      ensures forall i :: 0 <= i < |files| ==> urls[5 + i] == CacheUrl(files[i])
      ensures urls == PrecacheList(javascriptFile.value, manifestFilename, files)
    {
      urls := ["/", "/index.html", "/" + javascriptFile.value, "/sw.js", "/" + manifestFilename];
      var i := 0;
      while i < |files|
        invariant 0 <= i <= |files|
        invariant |urls| == 5 + i
        invariant urls[..5] == FixedUrls(javascriptFile.value, manifestFilename)
        invariant forall k :: 0 <= k < i ==> urls[5 + k] == CacheUrl(files[k])
      {
        var f := files[i];
        if f.dir.Some? {
          urls := urls + ["/" + f.dir.value + "/" + f.filename];
        } else {
          urls := urls + ["/" + f.filename];
        }
        i := i + 1;
      }
    }

    /** `_createServiceWorker`: the template filled with the full project
        name as cache name and the serialised URL list. The name is escaped
        for its string literal; for a name that needs no escaping the script
        is the source's own. */
    function CreateServiceWorker(cachedThings: seq<string>, serialise: seq<string> -> string): (sw: string)
      reads this
      ensures ParseServiceWorker(sw) == Some((projectName, serialise(cachedThings)))
      ensures PlainName(projectName) ==> sw == ServiceWorkerTextAsWritten(projectName, serialise(cachedThings))
    {
      var sw := ServiceWorkerText(projectName, serialise(cachedThings));
      ParseServiceWorkerText(projectName, serialise(cachedThings));
      assert PlainName(projectName) ==> sw == ServiceWorkerTextAsWritten(projectName, serialise(cachedThings)) by {
        if PlainName(projectName) { AsWrittenAgreesOnPlainNames(projectName, serialise(cachedThings)); }
      }
      sw
    }

    /** `_tweakHTML`: appends the meta tags and links to the head and the
        fallback and registration script to the body; nothing is removed. */
    method TweakHTML(doc: Document, title: string, manifest: Manifest, serialise: Manifest -> string)
      modifies doc
      ensures doc.head == old(doc.head) + HeadAdditions(projectNameShort, title, faviconStyle, inlineManifest, serialise(manifest))
      ensures doc.body == old(doc.body) + BodyAdditions()
    {
      AddMetaTags(doc, title);
      AddIconLinks(doc);
      AddManifestLink(doc, serialise(manifest));
      AddBodyNodes(doc);
    }

    /** The six meta tags for colours, the web-app title and the tile. */
    method AddMetaTags(doc: Document, title: string)
      modifies doc
      ensures doc.head == old(doc.head) + MetaTags(projectNameShort, title) && doc.body == old(doc.body)
    {
      doc.AppendToHead(Meta("theme-color", "white"));
      doc.AppendToHead(Meta("apple-mobile-web-app-capable", "yes"));
      doc.AppendToHead(Meta("apple-mobile-web-app-status-bar-style", "black"));
      doc.AppendToHead(Meta("apple-mobile-web-app-title", title));
      doc.AppendToHead(Meta("msapplication-TileImage", TileImage(projectNameShort)));
      doc.AppendToHead(Meta("msapplication-TileColor", "#FFFFFF"));
    }

    /** The touch icon, then the favicon link of the configured style. */
    method AddIconLinks(doc: Document)
      modifies doc
      ensures doc.head == old(doc.head) + [Link("apple-touch-icon", AppleTouchIconHref(projectNameShort))] + FaviconLinks(faviconStyle)
      ensures doc.body == old(doc.body)
    {
      doc.AppendToHead(Link("apple-touch-icon", AppleTouchIconHref(projectNameShort)));
      if faviconStyle == Some("png") {
        doc.AppendToHead(TypedLink("icon", "favicon-32.png", "image/png"));
      } else if faviconStyle == Some("ico") {
        doc.AppendToHead(TypedLink("icon", "favicon.ico", "image/x-icon"));
      }
    }

    /** The manifest link: inline data URI or the manifest file's name. */
    method AddManifestLink(doc: Document, manifestJson: string)
      modifies doc
      ensures doc.head == old(doc.head) + [ManifestLink(projectNameShort, inlineManifest, manifestJson)]
      ensures doc.body == old(doc.body)
    {
      if inlineManifest {
        doc.AppendToHead(Link("manifest", ManifestDataUriPrefix + manifestJson));
      } else {
        doc.AppendToHead(Link("manifest", ManifestFilename(projectNameShort)));
      }
    }

    /** The no-script fallback, then the worker registration script. */
    method AddBodyNodes(doc: Document)
      modifies doc
      ensures doc.body == old(doc.body) + BodyAdditions() && doc.head == old(doc.head)
    {
      doc.AppendToBody(Node("noscript", map[], Some(NoscriptText)));
      doc.AppendToBody(Node("script", map["type" := "text/javascript"], Some(RegisterScript)));
    }

    /** `Run` without the file system: derive the paths, build the manifest
        (kept as a file unless inlined), the icon files, the precache list and
        the worker, and augment the page. */
    method Run(cwd: string, doc: Document, title: string,
               serialiseManifest: Manifest -> string, serialiseUrls: seq<string> -> string)
      returns (b: BuildResult)
      modifies this, doc
      ensures old(buildDir).Some? ==> buildDir == old(buildDir)
      ensures old(buildDir).None? ==> buildDir == Some(Paths.Join(cwd, "build"))
      ensures buildDir.Some? && imagesDir == Some(Paths.Join(buildDir.value, "images"))
      ensures srcHTML == Paths.AbsPath(cwd, old(srcHTML)) && srcJS == Paths.AbsPath(cwd, old(srcJS))
      ensures javascriptFile == Some(Paths.Tail(old(srcJS)))
      ensures srcICON == old(srcICON)
      ensures b.manifestFilename == ManifestFilename(projectNameShort)
      ensures b.manifest == ManifestOf(projectName, projectNameShort, iconSizes)
      ensures inlineManifest ==> b.manifestFile.None?
      ensures !inlineManifest ==> b.manifestFile == Some(File(Paths.Join(buildDir.value, b.manifestFilename), serialiseManifest(b.manifest)))
      ensures b.iconFiles == IconFiles(projectNameShort, iconSizes, faviconStyle)
      ensures |b.iconPaths| == |b.iconFiles| &&
              forall i :: 0 <= i < |b.iconFiles| ==> b.iconPaths[i] == IconPath(buildDir.value, b.iconFiles[i])
      ensures b.precache == PrecacheList(javascriptFile.value, b.manifestFilename, b.iconFiles)
      ensures b.serviceWorker == File(Paths.Join(buildDir.value, "sw.js"), ServiceWorkerText(projectName, serialiseUrls(b.precache)))
      ensures b.pagePath == Paths.Join(buildDir.value, "index.html")
      ensures b.scriptCopy == Paths.Join(buildDir.value, javascriptFile.value)
      ensures doc.head == old(doc.head) + HeadAdditions(projectNameShort, title, faviconStyle, inlineManifest, serialiseManifest(b.manifest))
      ensures doc.body == old(doc.body) + BodyAdditions()
      ensures projectName == old(projectName) && projectNameShort == old(projectNameShort)
      ensures faviconStyle == old(faviconStyle) && inlineManifest == old(inlineManifest) && iconSizes == old(iconSizes)
    {
      FindPaths(cwd);
      var manifestFilename := ManifestFilename(projectNameShort);
      var manifest := CreateManifest();
      var manifestFile := None;
      if !inlineManifest {
        manifestFile := Some(File(Paths.Join(buildDir.value, manifestFilename), serialiseManifest(manifest)));
      }
      var iconFiles, iconPaths := CreateIcons();
      var cachedThings := CachedThings(manifestFilename, iconFiles);
      var sw := CreateServiceWorker(cachedThings, serialiseUrls);
      var swFile := File(Paths.Join(buildDir.value, "sw.js"), sw);
      TweakHTML(doc, title, manifest, serialiseManifest);
      b := BuildResult(manifestFilename, manifest, manifestFile, iconFiles, iconPaths, cachedThings, swFile,
                       Paths.Join(buildDir.value, "index.html"), Paths.Join(buildDir.value, javascriptFile.value));
    }
  }
}
