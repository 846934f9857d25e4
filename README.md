# pwap8 build artifacts in Dafny

pwap8 adds Progressive Web App pieces to a PICO-8 HTML export. It writes a web
manifest, a set of icons and a favicon, and a service worker that precaches
the game. It also adds meta tags, links and a registration script to the
exported page. This project models the part of the `PWAP8` class that decides
what these artifacts are called and what they contain:

- the derived paths (`_findPaths`, `_iconPath`);
- the manifest (`_createManifest`);
- the list of icon files (`_createIcons` without the image work);
- the precache list built in `Run`;
- the service-worker text (`_createServiceWorker`);
- the additions to the page's head and body (`_tweakHTML`).

It then proves that these artifacts agree with each other.

Modules:

- `Paths`: `os.path.join`, `split` and `abspath` on '/'-separated strings, with
  round-trip lemmas.
- `Decimal`: how an icon size is written as text, and the parser that reads it back.
- `WebManifest`: the manifest, icon and icon-file datatypes, the functions that
  specify them, and `_iconPath`.
- `Precache`: the precache URL list and the proof that it has no repeated entries.
- `ServiceWorker`: the `sw.js` template, the escaping of the cache name for its
  JavaScript string literal, and a reader of such literals that reads the
  script back.
- `Html`: the page as two sequences of `Node`s (the children of head and body),
  a `Document` class that is appended to in place, and the nodes pwap8 adds.
- `Pwap8`: the `PWAP8` class. It has the source's fields. Its methods loop and
  append where the source does, and each is proved against the functions above.
  `Run` chains them and returns a `BuildResult` record of the text files written
  and where they go.
- `Consistency`: lemmas that relate one artifact to another.

Things outside the program are given as parameters:

- the working directory (`os.getcwd()`);
- the page's title text (`soup.title.string`);
- the two JSON serialisers (`json.dumps` of the manifest and of the URL list),
  passed as function values.

Rows marked "a definition" name functions that carry no contract of their own;
the members named in those rows state their properties.

## Model

| member | source | states |
|---|---|---|
| `Decimal.NatToString` | pwap8/pwap8.py:124 | an icon size is written as a non-empty string of digits with no leading zero (except for 0) |
| `Decimal.ParseNatToString` | pwap8/pwap8.py:124 | reading a written size back gives the size |
| `Decimal.NatToStringInjective` | pwap8/pwap8.py:199 | two different sizes are written differently |
| `Paths.Join` | pwap8/pwap8.py:38-40 | `os.path.join` of two parts (a definition; its properties are `Paths.JoinShape`, `Paths.SplitJoin` and `Paths.TailOfJoin`) |
| `Paths.AbsPath` | pwap8/pwap8.py:42-43 | `os.path.abspath` against a given working directory, without `normpath` (a definition; its properties are `Paths.AbsPathIsAbsolute` and `Paths.TailOfAbsPath`) |
| `Paths.TailStart` | pwap8/pwap8.py:45 | the index after the last '/': no '/' from there on, and a '/' just before it unless it is 0 |
| `Paths.Tail` | pwap8/pwap8.py:45 | the second half of `os.path.split`: the path from `TailStart` on (a definition; its properties are `Paths.TailShape`) |
| `Paths.TailShape` | pwap8/pwap8.py:45 | the last component contains no '/', ends the path, and is preceded by a '/' unless it is the whole path |
| `Paths.TailOfPlainName` | pwap8/pwap8.py:45 | a path without '/' is its own last component |
| `Paths.Split` | pwap8/pwap8.py:45 | `os.path.split`: the tail is `Tail(p)`; the head is a prefix of the path with only '/' characters between head and tail; the head does not end in '/' unless it is empty or all '/'; and a head made of '/' only is kept whole |
| `Paths.RStripSep` | pwap8/pwap8.py:45 | `rstrip('/')`: keeps a prefix, drops only '/' characters, and the result does not end in '/' |
| `Paths.JoinShape` | pwap8/pwap8.py:38-40 | `os.path.join`: an absolute second part replaces the first; when the first part is empty or ends in '/' the result is exactly the two parts concatenated; otherwise it is the first part, one '/', then the second |
| `Paths.SplitJoin` | pwap8/pwap8.py:45 | splitting `join(dir, name)` gives back `(dir, name)` when `name` is a plain file name |
| `Paths.JoinSplit` | pwap8/pwap8.py:45 | joining the two halves of `split(p)` gives back `p` when `p` has no "//" |
| `Paths.TailAfterSep` | pwap8/pwap8.py:45 | after a prefix that is empty or ends in '/', the last component starts at the same place in the rest of the path |
| `Paths.TailOfJoin` | pwap8/pwap8.py:42-45 | joining onto a directory keeps the path's last component |
| `Paths.TailOfAbsPath` | pwap8/pwap8.py:42-45 | making the script path absolute does not change the script's file name |
| `Paths.AbsPathIsAbsolute` | pwap8/pwap8.py:42-43 | an absolute path is left as it is, and under an absolute working directory every path becomes absolute |
| `WebManifest.ManifestOf` | pwap8/pwap8.py:111-127 | the manifest `_createManifest` builds (a definition; its properties are `WebManifest.ManifestShape`, and the loop `Pwap8.PWAP8.CreateManifest` is proved equal to it) |
| `WebManifest.ManifestShape` | pwap8/pwap8.py:111-127 | name and short name are the project's; start URL "/index.html", display "standalone", both colours "white", lang "en-US"; one icon per configured size, in the same order, with src `images/{short}-icon-{size}.png`, sizes `{size}x{size}` and type image/png |
| `WebManifest.IconSrcInjective` | pwap8/pwap8.py:124 | two sizes give the same icon URL only if they are the same size |
| `WebManifest.SizesTextReadsBack` | pwap8/pwap8.py:124 | the `sizes` text is the size, an 'x', then the size again, and both halves read back as the size |
| `WebManifest.IconFiles` | pwap8/pwap8.py:196-216 | the `(path, filename)` pairs `_createIcons` returns (a definition; its properties are `WebManifest.IconFilesShape`) |
| `WebManifest.IconFilesShape` | pwap8/pwap8.py:196-216 | the icon files are one `("images", "{short}-icon-{size}.png")` per configured size, in order, then exactly one `(None, "favicon-32.png")` for "png" or `(None, "favicon.ico")` for "ico", and nothing else |
| `WebManifest.IconPath` | pwap8/pwap8.py:174-182 | `_iconPath` (a definition; its properties are `WebManifest.IconPathShape` and `Pwap8.PWAP8.IconPathOf`) |
| `WebManifest.IconPathShape` | pwap8/pwap8.py:174-182 | a file with a sub-directory is written at `buildDir/dir/filename`, and one without at `buildDir/filename` |
| `Precache.PrecacheList` | pwap8/pwap8.py:243-248 | the `cachedThings` list (a definition; its properties are `Precache.PrecacheShape` and `Precache.PrecacheDistinct`) |
| `Precache.PrecacheShape` | pwap8/pwap8.py:243-248 | the list has 5 + (number of icon files) entries: "/", "/index.html", "/" + script, "/sw.js", "/" + manifest file, then `/{path}/{filename}` or `/{filename}` for each icon file, in order |
| `Precache.SizedIconUrl` | pwap8/pwap8.py:246 | the URL of the i-th sized icon is `/images/{short}-icon-{size}.png` |
| `Precache.SizedIconUrlsDiffer` | pwap8/pwap8.py:246 | icons of different sizes get different URLs |
| `Precache.FixedUrlsDistinct` | pwap8/pwap8.py:243 | the five fixed URLs differ from each other when the script's name clashes with no generated file |
| `Precache.IconUrlKinds` | pwap8/pwap8.py:244-248 | each icon URL is either a sized icon (a '/' at position 7, ending in 'g') or, as the last file only, `"/" + favicon name` with no other '/' |
| `Precache.IconUrlsDistinct` | pwap8/pwap8.py:244-248 | with distinct sizes, no icon URL appears twice |
| `Precache.ScriptUrlNotIconUrl` | pwap8/pwap8.py:243-248 | "/" + script name is no icon URL when the script name is free |
| `Precache.OtherFixedUrlsNotIconUrls` | pwap8/pwap8.py:243-248 | "/", "/index.html", "/sw.js" and the manifest URL are no icon URL |
| `Precache.FixedAndIconUrlsDisjoint` | pwap8/pwap8.py:243-248 | no icon URL equals a fixed URL |
| `Precache.DistinctAppend` | pwap8/pwap8.py:243-248 | two lists without repeats and without a common entry join into a list without repeats |
| `Precache.PrecacheDistinct` | pwap8/pwap8.py:243-248 | with distinct sizes and a script name that clashes with no generated file, every URL appears once |
| `Precache.DistinctOccursOnce` | pwap8/pwap8.py:243-248 | in a list without repeats, each entry occurs exactly once |
| `ServiceWorker.ServiceWorkerTextAsWritten` | pwap8/pwap8.py:130-150 | the script as the source formats it, the name unescaped (a definition; its properties are `ServiceWorker.AsWrittenReadsBackIffPlain` and `ServiceWorker.AsWrittenApostropheBreaks`) |
| `ServiceWorker.ServiceWorkerText` | pwap8/pwap8.py:130-150 | the script with the name escaped for its string literal (a definition; its properties are `ServiceWorker.ParseServiceWorkerText`, `ServiceWorker.ServiceWorkerTextInjective` and `ServiceWorker.AsWrittenAgreesOnPlainNames`) |
| `ServiceWorker.ReadLiteral` | pwap8/pwap8.py:135 | reading a single-quoted JavaScript string ends at a quote, and the value is no longer than the text it was read from |
| `ServiceWorker.ReadEscaped` | pwap8/pwap8.py:135 | an escaped name followed by a quote reads back as the name, closed by that quote |
| `ServiceWorker.ReadLiteralEscapes` | pwap8/pwap8.py:135 | what was read is exactly the escaping of the value read: each value has one spelling |
| `ServiceWorker.EscapeLength` | pwap8/pwap8.py:135 | escaping never shortens a name, and keeps its length exactly when no character needs escaping |
| `ServiceWorker.EscapePlain` | pwap8/pwap8.py:135 | a name with no quote, backslash or line break is its own escaping |
| `ServiceWorker.UnfillInnerFill` | pwap8/pwap8.py:135-138 | the string literal and the text after it read back into the name and the URL list |
| `ServiceWorker.UnfillFill` | pwap8/pwap8.py:134-150 | the two-slot template, with the first value escaped, reads back into the values put into it |
| `ServiceWorker.ParseServiceWorkerText` | pwap8/pwap8.py:130-150 | from the worker script one reads back the cache name (the value of its string literal) and the serialised URL list, for every name |
| `ServiceWorker.ServiceWorkerTextInjective` | pwap8/pwap8.py:130-150 | two scripts are equal exactly when their cache names and URL lists are equal; the rest of the template is constant |
| `ServiceWorker.AsWrittenAgreesOnPlainNames` | pwap8/pwap8.py:135 | for a name that needs no escaping the corrected script is the source's script, character for character |
| `ServiceWorker.AsWrittenReadsBackIffPlain` | pwap8/pwap8.py:135 | as written, the name reads back from the script exactly when it has no quote, backslash or line break |
| `ServiceWorker.NotPlainDoesNotReadBack` | pwap8/pwap8.py:135 | a name that needs escaping, put into the literal as it is, does not read back as itself |
| `ServiceWorker.LiteralClosesEarly` | pwap8/pwap8.py:135 | a quote inside the name closes the literal early, and the template does not resume there |
| `ServiceWorker.AsWrittenApostropheBreaks` | pwap8/pwap8.py:135 | as written, the project name "Bob's Game" gives a script that does not read back at all |
| `Html.HeadAdditions` | pwap8/pwap8.py:67-92 | the nodes `_tweakHTML` appends to the head (a definition; its properties are `Html.HeadAdditionsShape`) |
| `Html.HeadAdditionsShape` | pwap8/pwap8.py:67-92 | the head gets 9 children with a "png" or "ico" favicon and 8 otherwise: the six metas, in order, with their exact names and contents (the title meta carries the page title, the tile image is `images/{short}-icon-144.png`); then the touch icon, whose href is the corrected one (first Findings row); then the favicon link, if any; and the manifest link last |
| `Html.BodyAdditions` | pwap8/pwap8.py:95-108 | the no-script fallback and the script that registers `./sw.js` (a definition; `Pwap8.PWAP8.AddBodyNodes` appends them) |
| `Html.AppleTouchIconHrefAsWritten` | pwap8/pwap8.py:79 | the touch-icon href as the source formats it (a definition; its property is `Consistency.AppleTouchIconHrefAsWrittenDangles`) |
| `Html.AppleTouchIconHref` | pwap8/pwap8.py:79 | the corrected touch-icon href (a definition; its property is `Consistency.AppleTouchIconHrefIsGenerated`) |
| `Html.FaviconLinkShape` | pwap8/pwap8.py:81-84 | the favicon link is `favicon-32.png`/`image/png` for "png" and `favicon.ico`/`image/x-icon` for "ico", and names the favicon file that is generated |
| `Html.ManifestLinkHref` | pwap8/pwap8.py:87-92 | the manifest href is the data URI followed by the serialised manifest when inlined, and `{short}.manifest` otherwise |
| `Html.Document.AppendToHead` | pwap8/pwap8.py:70 | `head.append`: the node is added at the end and the body is unchanged |
| `Html.Document.AppendToBody` | pwap8/pwap8.py:101 | `body.append`: the node is added at the end and the head is unchanged |
| `Pwap8.ShortNameOf` | pwap8/pwap8.py:317-319 | the short name is `--short` when given and the full name otherwise; the constructor sets the short name with it |
| `Pwap8.PWAP8.constructor` | pwap8/pwap8.py:21-31 | the favicon style is "png", the manifest is not inlined, the icon sizes are 32…512, the names and paths are the ones the command line gives (lines 309-322), and the short name defaults to the full name |
| `Pwap8.PWAP8.FindPaths` | pwap8/pwap8.py:34-45 | the build directory defaults to `join(cwd, "build")`; images go to `join(buildDir, "images")`; the sources become absolute; the script's file name is the last component of its path (the same as that of the path as given); no other field changes |
| `Pwap8.PWAP8.CreateManifest` | pwap8/pwap8.py:111-127 | the loop builds the fixed fields and the icon list for the configured sizes, in order; the object is not modified |
| `Pwap8.PWAP8.IconPathOf` | pwap8/pwap8.py:174-182 | for a build directory and names without stray '/', an icon is saved at the build directory followed by its cache URL; and the saved path's file name is the icon's file name |
| `Pwap8.PWAP8.CreateIcons` | pwap8/pwap8.py:185-216 | the loop yields the icon files `IconFiles(short, sizes, style)`, one more than the sizes exactly for "png"/"ico", each saved at its `_iconPath` |
| `Pwap8.PWAP8.CreateFavicon` | pwap8/pwap8.py:204-214 | the favicon step yields `favicon-32.png` for "png", `favicon.ico` for "ico" and nothing otherwise, each saved at its `_iconPath` |
| `Pwap8.PWAP8.CachedThings` | pwap8/pwap8.py:243-248 | the loop yields the five fixed URLs, then one URL per icon file, in order; 5 + (number of files) entries |
| `Pwap8.PWAP8.CreateServiceWorker` | pwap8/pwap8.py:130-150 | for every project name, the cache name read back from the script is the full project name (not the short name) and the URL list read back is the serialised `cachedThings`; for a name with no quote, backslash or line break the script is the source's own (the escaping is the second Findings row) |
| `Pwap8.PWAP8.TweakHTML` | pwap8/pwap8.py:60-108 | the old head and body are unchanged prefixes; the head gains exactly the head additions and the body exactly the noscript fallback and the registration script |
| `Pwap8.PWAP8.AddMetaTags` | pwap8/pwap8.py:69-75 | appends the six meta tags to the head, in order |
| `Pwap8.PWAP8.AddIconLinks` | pwap8/pwap8.py:78-84 | appends the touch-icon link, with the corrected href (first Findings row), then the favicon link for the style, if any |
| `Pwap8.PWAP8.AddManifestLink` | pwap8/pwap8.py:87-92 | appends the manifest link (data URI or file name) |
| `Pwap8.PWAP8.AddBodyNodes` | pwap8/pwap8.py:95-108 | appends the noscript fallback, then the script that registers `./sw.js` |
| `Pwap8.PWAP8.Run` | pwap8/pwap8.py:219-278 | the paths are those `_findPaths` derives (the build directory kept or defaulted to `join(cwd, "build")`, absolute sources, the script's own file name); the build's manifest, icon files, precache list, worker file and page additions are the ones specified above; the manifest file is written at `buildDir/{short}.manifest` only when not inlined; `sw.js`, `index.html` and the script copy go into the build directory |
| `Consistency.ManifestIconsArePrecached` | pwap8/pwap8.py:243-248 | the i-th manifest icon's src, with a leading '/', is precache entry 5 + i |
| `Consistency.ManifestIconsCachedOnce` | pwap8/pwap8.py:122-125 | with distinct sizes and a script name that clashes with nothing, each manifest icon occurs exactly once in the precache list |
| `Consistency.ManifestFilenameAgrees` | pwap8/pwap8.py:234 | precache entry 4 is "/{short}.manifest" even when the manifest is inlined, and otherwise the page's manifest link names the same file |
| `Consistency.FaviconAgrees` | pwap8/pwap8.py:81-84 | the favicon link names the last generated icon file, and the last precache URL is that file |
| `Consistency.TileImageIsGenerated` | pwap8/pwap8.py:74 | when 144 is a configured size, the tile image is a manifest icon and is precached |
| `Consistency.IconWrittenWhereCached` | pwap8/pwap8.py:174-182 | each icon file is written at the build directory followed by its cache URL |
| `Consistency.AppleTouchIconHrefAsWrittenDangles` | pwap8/pwap8.py:79 | as written, the touch-icon href names no generated icon, whatever the size |
| `Consistency.AppleTouchIconHrefIsGenerated` | pwap8/pwap8.py:79 | the corrected href is the 167-pixel manifest icon and is precached when 167 is a configured size |

## Findings

| source | as written | input that shows it | evidently intended | confidence | as-written member | corrected member |
|---|---|---|---|---|---|---|
| pwap8/pwap8.py:79 | the apple-touch-icon href is `"images/{name}-icon-167.png.png"` | short name `mg`: the href is `images/mg-icon-167.png.png`, but the file written at line 199 is `images/mg-icon-167.png` | `"images/{name}-icon-167.png"`, the generated 167-pixel icon | high, not executed | `Html.AppleTouchIconHrefAsWritten` (`Consistency.AppleTouchIconHrefAsWrittenDangles`) | `Html.AppleTouchIconHref` (`Consistency.AppleTouchIconHrefIsGenerated`) |
| pwap8/pwap8.py:135 | the project name is put between the quotes of `var cacheName = '{name}';` without escaping | project name `Bob's Game`: the literal closes after `Bob`, and `s Game';` follows, which is not valid JavaScript | the name escaped for a single-quoted string, so that the literal's value is the project name | high, not executed | `ServiceWorker.ServiceWorkerTextAsWritten` (`ServiceWorker.AsWrittenApostropheBreaks`, `ServiceWorker.AsWrittenReadsBackIffPlain`) | `ServiceWorker.ServiceWorkerText` (`ServiceWorker.ParseServiceWorkerText`) |

`TweakHTML` uses the corrected href, and `CreateServiceWorker` the escaped
name. Every other node `TweakHTML` appends is exactly what the code appends.
For a project name without a quote, a backslash or a line break the escaped
script is the script the code writes (`ServiceWorker.AsWrittenAgreesOnPlainNames`).

Two facts of the code that the rows above state: the manifest's `start_url`
is "/index.html", and every precache URL starts with '/', the first being "/"
itself.

## Left out

- Image work is not modelled. This covers `_createIcon`, the Pillow calls, the fallback 8×8 bitmap and the icon files' pixel contents, because Pillow is a foreign library and its scaling uses floats. Only the icon file names and the paths they are saved at are modelled. The vertical paste offset is the constant 0 (line 169) and is not modelled.
- `_createDirs` is not modelled: `os.mkdir` with the swallowed `OSError` is file-system I/O.
- File output is not performed: the model does not write or copy files, read the HTML export or call `sys.exit`. `Run` instead returns the text files it would write and the paths of the page and of the script copy. The HTML read (lines 255-261) and its error message, which names the script path, are I/O and are not modelled.
- BeautifulSoup parsing and `prettify` are not modelled. The page is the two child sequences of head and body. A page without a `head` or `body` element, on which the code fails with an `AttributeError` at line 70 or line 101, is not modelled: the page always has both. The title text is a parameter: a page without a `title` element, or with a title whose `.string` is `None`, is not modelled.
- Attribute order in the printed markup is not modelled, because attributes are a `map`.
- `json.dumps` formatting and escaping are not modelled. Both serialisers are function parameters.
- `ServiceWorker.ReadLiteral`: reads only the escapes `EscapeJs` writes (`\\`, `\'`, `\n`, `\r`); other JavaScript escape sequences are not modelled.
- `Paths.AbsPath`: does not apply `normpath`, so "." and ".." components and repeated '/' are not collapsed. The script's file name is the same either way unless the path ends in ".", ".." or '/', or is empty: for an empty path Python gives the last component of the working directory, and the model gives the empty name.
- `Pwap8.PWAP8.FindPaths`: takes the file name from `Paths.Tail`, which is the second half of `Paths.Split` by that function's contract.
- Before the command line assigns them, the source holds `None` in `projectName`, `projectNameShort`, `srcHTML` and `srcJS`. The model does not represent that state. The constructor takes the values the command line assigns right after `__init__` (lines 309-322).
- Icon sizes are natural numbers. Negative sizes would make Pillow fail, so they are not modelled.
- `argparse` wiring and `print` logging are not modelled; only the short-name default is (`Pwap8.ShortNameOf`, used by the constructor).
- `simple_server/simple_server.py` is not part of this model: it is a network file server.
