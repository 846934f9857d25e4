/** The exported game page, reduced to what pwap8 changes: the children of
    its `head` and of its `body`. */
module Html {
  import opened Wrappers
  import opened WebManifest

  /** An element: tag name, attributes and optional text content. */
  datatype Node = Node(tag: string, attrs: map<string, string>, text: Option<string>)

  /** A parsed page; `head` and `body` are the children of those elements. */
  class Document {
    var head: seq<Node>
    var body: seq<Node>

    constructor (head: seq<Node>, body: seq<Node>)
      ensures this.head == head && this.body == body
    {
      this.head := head;
      this.body := body;
    }

    method AppendToHead(n: Node)
      modifies this
      ensures head == old(head) + [n] && body == old(body)
    {
      head := head + [n];
    }

    method AppendToBody(n: Node)
      modifies this
      ensures body == old(body) + [n] && head == old(head)
    {
      body := body + [n];
    }
  }

  function Meta(name: string, content: string): Node
  {
    Node("meta", map["name" := name, "content" := content], None)
  }

  function Link(rel: string, href: string): Node
  {
    Node("link", map["rel" := rel, "href" := href], None)
  }

  function TypedLink(rel: string, href: string, mimeType: string): Node
  {
    Node("link", map["rel" := rel, "href" := href, "type" := mimeType], None)
  }

  /** The Windows tile image: the 144-pixel icon. */
  function TileImage(short: string): string
  {
    "images/" + short + "-icon-144.png"
  }

  /** The six meta tags, in order: theme colour, Apple web-app capable,
      status-bar style, web-app title (the page title), Windows tile image,
      Windows tile colour. */
  function MetaTags(short: string, title: string): seq<Node>
  {
    [ Meta("theme-color", "white"),
      Meta("apple-mobile-web-app-capable", "yes"),
      Meta("apple-mobile-web-app-status-bar-style", "black"),
      Meta("apple-mobile-web-app-title", title),
      Meta("msapplication-TileImage", TileImage(short)),
      Meta("msapplication-TileColor", "#FFFFFF") ]
  }

  /** The apple-touch-icon href exactly as the source formats it, with the
      extension written twice. */
  function AppleTouchIconHrefAsWritten(short: string): string
  {
    "images/" + short + "-icon-167.png.png"
  }

  /** The apple-touch-icon href as intended: the generated 167-pixel icon. */
  function AppleTouchIconHref(short: string): string
  {
    IconSrc(short, 167)
  }

  /** The favicon link for a favicon style; none for other styles. */
  function FaviconLinks(style: Option<string>): seq<Node>
  {
    if style == Some("png") then [TypedLink("icon", "favicon-32.png", "image/png")]
    else if style == Some("ico") then [TypedLink("icon", "favicon.ico", "image/x-icon")]
    else []
  }

  const ManifestDataUriPrefix := "data:application/manifest+json,"

  /** The manifest link: a data URI holding the serialised manifest when it
      is inlined, the manifest file name otherwise. */
  function ManifestLink(short: string, inline: bool, manifestJson: string): Node
  {
    if inline then Link("manifest", ManifestDataUriPrefix + manifestJson)
    else Link("manifest", ManifestFilename(short))
  }

  /** Everything appended to `head`, in order. */
  function HeadAdditions(short: string, title: string, style: Option<string>, inline: bool, manifestJson: string): seq<Node>
  {
    MetaTags(short, title)
      + [Link("apple-touch-icon", AppleTouchIconHref(short))]
      + FaviconLinks(style)
      + [ManifestLink(short, inline, manifestJson)]
  }

  const NoscriptText := "This will much be more fun with JavaScript enabled."
  const RegisterScript := "window.onload = () => { 'use strict'; if ('serviceWorker' in navigator) { navigator.serviceWorker.register('./sw.js');}}"

  /** Everything appended to `body`: the no-script fallback, then the script
      that registers `./sw.js`. */
  function BodyAdditions(): seq<Node>
  {
    [ Node("noscript", map[], Some(NoscriptText)),
      Node("script", map["type" := "text/javascript"], Some(RegisterScript)) ]
  }

  /** The head gains 9 children with a "png" or "ico" favicon and 8 without:
      the six metas in order (the title meta carries the page title), the
      touch icon, the optional favicon, and the manifest link last. */
  lemma HeadAdditionsShape(short: string, title: string, style: Option<string>, inline: bool, manifestJson: string)
    ensures var h := HeadAdditions(short, title, style, inline, manifestJson);
            var favicon := style == Some("png") || style == Some("ico");
            |h| == (if favicon then 9 else 8) &&
            h[0] == Meta("theme-color", "white") &&
            h[1] == Meta("apple-mobile-web-app-capable", "yes") &&
            h[2] == Meta("apple-mobile-web-app-status-bar-style", "black") &&
            h[3] == Meta("apple-mobile-web-app-title", title) &&
            h[4] == Meta("msapplication-TileImage", "images/" + short + "-icon-144.png") &&
            h[5] == Meta("msapplication-TileColor", "#FFFFFF") &&
            h[6] == Link("apple-touch-icon", AppleTouchIconHref(short)) &&
            (favicon ==> h[7] == FaviconLinks(style)[0]) &&
            h[|h| - 1] == ManifestLink(short, inline, manifestJson)
  {
    var h := HeadAdditions(short, title, style, inline, manifestJson);
    var fav := FaviconLinks(style);
    assert |fav| == if style == Some("png") || style == Some("ico") then 1 else 0;
    assert forall i :: 0 <= i < 6 ==> h[i] == MetaTags(short, title)[i];
  }

  /** The favicon link names the favicon file generated for the style, with
      the matching media type. */
  lemma FaviconLinkShape(style: Option<string>)
    ensures style == Some("png") ==>
              FaviconLinks(style) == [TypedLink("icon", "favicon-32.png", "image/png")]
    ensures style == Some("ico") ==>
              FaviconLinks(style) == [TypedLink("icon", "favicon.ico", "image/x-icon")]
    ensures |FaviconLinks(style)| == |FaviconFiles(style)| &&
            forall i :: 0 <= i < |FaviconLinks(style)| ==>
              FaviconLinks(style)[i].attrs["href"] == FaviconFiles(style)[i].filename
  {
  }

  /** The manifest link's href: the data URI when inlined, otherwise the
      manifest file name. */
  lemma ManifestLinkHref(short: string, inline: bool, manifestJson: string)
    ensures var href := ManifestLink(short, inline, manifestJson).attrs["href"];
            (inline ==> href == "data:application/manifest+json," + manifestJson) &&
            (!inline ==> href == short + ".manifest")
  {
  }
}
