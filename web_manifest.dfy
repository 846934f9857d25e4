/** The web manifest that pwap8 writes for the game, and the names of the
    icon files it generates beside it. */
module WebManifest {
  import opened Wrappers
  import opened Decimal
  import Paths

  /** One entry of the manifest's `icons` list. */
  datatype Icon = Icon(src: string, sizes: string, mimeType: string)

  /** The manifest, field by field in the order the source inserts them. */
  datatype Manifest = Manifest(
    name: string,
    shortName: string,
    startUrl: string,
    display: string,
    themeColor: string,
    backgroundColor: string,
    lang: string,
    icons: seq<Icon>)

  /** An icon file to generate: an optional sub-directory of the build
      directory and a file name (the source's `(path, filename)` pair). */
  datatype IconFile = IconFile(dir: Option<string>, filename: string)

  /** The icon sizes a fresh `PWAP8` object is configured with. */
  const DefaultIconSizes: seq<nat> := [32, 128, 144, 152, 167, 180, 192, 256, 512]

  const StartUrl := "/index.html"
  const Display := "standalone"
  const ThemeColor := "white"
  const BackgroundColor := "white"
  const Lang := "en-US"
  const IconMimeType := "image/png"
  const ImagesDirName := "images"
  const FaviconPng := "favicon-32.png"
  const FaviconIco := "favicon.ico"

  /** `"{short}-icon-{size}.png"`. */
  function IconFilename(short: string, size: nat): string
  {
    short + "-icon-" + NatToString(size) + ".png"
  }

  /** `"images/{short}-icon-{size}.png"`, the icon's URL relative to the page. */
  function IconSrc(short: string, size: nat): string
  {
    ImagesDirName + "/" + IconFilename(short, size)
  }

  /** `"{size}x{size}"`. */
  function SizesText(size: nat): string
  {
    NatToString(size) + "x" + NatToString(size)
  }

  function IconOf(short: string, size: nat): Icon
  {
    Icon(IconSrc(short, size), SizesText(size), IconMimeType)
  }

  /** `"{short}.manifest"`, the manifest's file name. */
  function ManifestFilename(short: string): string
  {
    short + ".manifest"
  }

  /** The manifest built for a project: fixed scalar fields and one icon per
      configured size, in the configured order. */
  function ManifestOf(name: string, short: string, sizes: seq<nat>): Manifest
  {
    Manifest(name, short, StartUrl, Display, ThemeColor, BackgroundColor, Lang,
             seq(|sizes|, i requires 0 <= i < |sizes| => IconOf(short, sizes[i])))
  }

  /** The favicon generated for a favicon style: a PNG for "png", an ICO for
      "ico", none for any other style or for no style. */
  function FaviconFiles(style: Option<string>): (r: seq<IconFile>)
  {
    if style == Some("png") then [IconFile(None, FaviconPng)]
    else if style == Some("ico") then [IconFile(None, FaviconIco)]
    else []
  }

  /** The icon files generated for a project: one per configured size under
      `images/`, then the favicon, if any, at the top of the build directory. */
  function IconFiles(short: string, sizes: seq<nat>, style: Option<string>): seq<IconFile>
  {
    seq(|sizes|, i requires 0 <= i < |sizes| => IconFile(Some(ImagesDirName), IconFilename(short, sizes[i])))
      + FaviconFiles(style)
  }

  /** `_iconPath`: where an icon file is written under the build directory. */
  function IconPath(buildDir: string, f: IconFile): string
  {
    var logical := match f.dir
      case Some(p) => Paths.Join(p, f.filename)
      case None => f.filename;
    Paths.Join(buildDir, logical)
  }

  /** Two sizes give the same icon URL only if they are the same size, so
      the generated icon files never collide. */
  lemma IconSrcInjective(short: string, a: nat, b: nat)
    requires IconSrc(short, a) == IconSrc(short, b)
    ensures a == b
  {
    var p := ImagesDirName + "/" + short + "-icon-";
    var na, nb := NatToString(a), NatToString(b);
    assert IconSrc(short, a) == p + na + ".png";
    assert IconSrc(short, b) == p + nb + ".png";
    assert |na| == |nb|;
    assert na == (p + na + ".png")[|p|..|p| + |na|];
    assert nb == (p + nb + ".png")[|p|..|p| + |nb|];
    NatToStringInjective(a, b);
  }

  /** The `sizes` text of an icon names its size twice and reads back as it. */
  lemma SizesTextReadsBack(size: nat)
    ensures var t := SizesText(size);
            var n := |NatToString(size)|;
            |t| == 2 * n + 1 && t[n] == 'x' &&
            AllDigits(t[..n]) && ParseDigits(t[..n]) == size &&
            AllDigits(t[n + 1..]) && ParseDigits(t[n + 1..]) == size
  {
    var s := NatToString(size);
    var t := SizesText(size);
    assert t[..|s|] == s;
    assert t[|s| + 1..] == s;
    ParseNatToString(size);
  }

  /** The manifest's scalar fields are the project's names and the fixed
      defaults, and its icon list follows the configured sizes one to one. */
  lemma ManifestShape(name: string, short: string, sizes: seq<nat>)
    ensures var m := ManifestOf(name, short, sizes);
            m.name == name && m.shortName == short &&
            m.startUrl == "/index.html" && m.display == "standalone" &&
            m.themeColor == "white" && m.backgroundColor == "white" && m.lang == "en-US" &&
            |m.icons| == |sizes| &&
            forall i :: 0 <= i < |sizes| ==>
              m.icons[i].src == "images/" + short + "-icon-" + NatToString(sizes[i]) + ".png" &&
              m.icons[i].sizes == NatToString(sizes[i]) + "x" + NatToString(sizes[i]) &&
              m.icons[i].mimeType == "image/png"
  {
  }

  /** Icon file list: the sized icons under `images/` in configured order,
      then exactly one favicon for the "png" and "ico" styles, and nothing else. */
  lemma IconFilesShape(short: string, sizes: seq<nat>, style: Option<string>)
    ensures var fs := IconFiles(short, sizes, style);
            |fs| == |sizes| + (if style == Some("png") || style == Some("ico") then 1 else 0) &&
            (forall i :: 0 <= i < |sizes| ==>
               fs[i] == IconFile(Some("images"), short + "-icon-" + NatToString(sizes[i]) + ".png")) &&
            (style == Some("png") ==> fs[|sizes|] == IconFile(None, "favicon-32.png")) &&
            (style == Some("ico") ==> fs[|sizes|] == IconFile(None, "favicon.ico"))
  {
  }

  /** `_iconPath` puts a file with a sub-directory at `buildDir/dir/filename`
      and one without at `buildDir/filename`. */
  lemma IconPathShape(buildDir: string, f: IconFile)
    requires buildDir != [] && !Paths.EndsWithSep(buildDir)
    requires !Paths.StartsWithSep(f.filename)
    requires f.dir.Some? ==> f.dir.value != [] && !Paths.StartsWithSep(f.dir.value) && !Paths.EndsWithSep(f.dir.value)
    ensures f.dir.Some? ==> IconPath(buildDir, f) == buildDir + "/" + f.dir.value + "/" + f.filename
    ensures f.dir.None? ==> IconPath(buildDir, f) == buildDir + "/" + f.filename
  {
    if f.dir.Some? {
      var logical := Paths.Join(f.dir.value, f.filename);
      assert logical == f.dir.value + "/" + f.filename;
      assert !Paths.StartsWithSep(logical);
    }
  }
}
