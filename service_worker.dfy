/** The service worker script `sw.js`: a fixed template into which the cache
    name, inside a single-quoted JavaScript string, and the serialised
    precache list are substituted. */
module ServiceWorker {
  import opened Wrappers

  /** Template text before the cache name. */
  const Header := "//sw.js...\nvar cacheName = '"

  /** Template text between the cache name and the serialised URL list; it
      opens with the quote that closes the cache name's string literal. */
  const Middle := "';" + "\n\nself.addEventListener('install', function(event) {\n    event.waitUntil(\n    caches.open(cacheName).then(function(cache) { return cache.addAll("

  /** Template text after the serialised URL list. */
  const Footer := "); })\n    );\n});\n\nself.addEventListener('fetch', function(event) {\n    event.respondWith(\n    caches.match(event.request).then(function(response) { return response || fetch(event.request); })\n    );\n});\n\n"

  /** The script as the source formats it: the cache name is put between the
      quotes as it is, without escaping. */
  function ServiceWorkerTextAsWritten(cacheName: string, cached: string): string
  {
    Fill(Header, Middle, Footer, cacheName, cached)
  }

  /** The script with the cache name escaped for the string literal it sits
      in. For a name that needs no escaping it is the script as written. */
  function ServiceWorkerText(cacheName: string, cached: string): string
  {
    Fill(Header, Middle, Footer, EscapeJs(cacheName), cached)
  }

  /** Reads a script back into its cache name (the value of the string
      literal) and serialised URL list. */
  function ParseServiceWorker(text: string): Option<(string, string)>
  {
    Unfill(Header, Middle, Footer, text)
  }

  /** A two-hole template: `header`, first value, `middle`, second value, `footer`. */
  function Fill(header: string, middle: string, footer: string, first: string, second: string): string
  {
    header + first + middle + second + footer
  }

  /** Characters that cannot stand for themselves inside a single-quoted
      JavaScript string: the backslash, the quote and the line breaks. */
  predicate NeedsEscape(c: char)
  {
    c == '\\' || c == '\'' || c == '\n' || c == '\r'
  }

  /** A name every character of which stands for itself in the literal. */
  predicate PlainName(s: string)
  {
    forall i :: 0 <= i < |s| ==> !NeedsEscape(s[i])
  }

  function EscapeChar(c: char): string
  {
    if c == '\\' then "\\\\"
    else if c == '\'' then "\\'"
    else if c == '\n' then "\\n"
    else if c == '\r' then "\\r"
    else [c]
  }

  /** The body of a single-quoted JavaScript string denoting `s`. */
  function EscapeJs(s: string): string
  {
    if s == [] then [] else EscapeChar(s[0]) + EscapeJs(s[1..])
  }

  /** The character the escape sequence `\c` denotes, for the escapes
      `EscapeJs` writes. */
  function Unescape(c: char): Option<char>
  {
    if c == '\\' then Some('\\')
    else if c == '\'' then Some('\'')
    else if c == 'n' then Some('\n')
    else if c == 'r' then Some('\r')
    else None
  }

  /** Reads the body of a single-quoted JavaScript string at the start of
      `s`: the value it denotes and the position of its closing quote. `None`
      when the literal is not closed, holds a raw line break, or uses an
      escape other than those `EscapeJs` writes. */
  function ReadLiteral(s: string): (r: Option<(string, nat)>)
    ensures r.Some? ==> r.value.1 < |s| && s[r.value.1] == '\''
    ensures r.Some? ==> |r.value.0| <= r.value.1
    decreases |s|
  {
    if s == [] || s[0] == '\n' || s[0] == '\r' then None
    else if s[0] == '\'' then Some(([], 0))
    else if s[0] == '\\' then
      if |s| < 2 || Unescape(s[1]).None? then None
      else
        var rest := ReadLiteral(s[2..]);
        if rest.None? then None else Some(([Unescape(s[1]).value] + rest.value.0, rest.value.1 + 2))
    else
      var rest := ReadLiteral(s[1..]);
      if rest.None? then None else Some(([s[0]] + rest.value.0, rest.value.1 + 1))
  }

  /** Reads a filled template back: the first value is the string literal
      after the header, the second fills the rest up to the footer. */
  function Unfill(header: string, middle: string, footer: string, text: string): Option<(string, string)>
  {
    if |text| < |header| + |footer| || text[..|header|] != header || text[|text| - |footer|..] != footer then None
    else UnfillInner(middle, text[|header|..|text| - |footer|])
  }

  /** The part of `Unfill` between header and footer: a string literal, then
      `middle`, then the second value. */
  function UnfillInner(middle: string, inner: string): Option<(string, string)>
  {
    var lit := ReadLiteral(inner);
    if lit.None? then None
    else
      var q := lit.value.1;
      if |inner| - q < |middle| || inner[q..q + |middle|] != middle then None
      else Some((lit.value.0, inner[q + |middle|..]))
  }

  /** The text between header and footer is what `Fill` put there. */
  lemma UnfillStrips(header: string, middle: string, footer: string, first: string, second: string)
    ensures Unfill(header, middle, footer, Fill(header, middle, footer, first, second))
            == UnfillInner(middle, first + middle + second)
  {
    var text := Fill(header, middle, footer, first, second);
    var inner := first + middle + second;
    assert text == header + inner + footer;
    assert text[..|header|] == header;
    assert text[|text| - |footer|..] == footer;
    assert text[|header|..|text| - |footer|] == inner;
  }

  /** An escaped value followed by a quote reads back as that value, the
      quote closing it. */
  lemma {:induction false} ReadEscaped(s: string, rest: string)
    ensures ReadLiteral(EscapeJs(s) + "'" + rest) == Some((s, |EscapeJs(s)|))
    decreases |s|
  {
    var text := EscapeJs(s) + "'" + rest;
    if s == [] {
      assert text[0] == '\'';
    } else {
      var c := s[0];
      var tail := EscapeJs(s[1..]) + "'" + rest;
      assert text == EscapeChar(c) + tail;
      ReadEscaped(s[1..], rest);
      if NeedsEscape(c) {
        assert |EscapeChar(c)| == 2 && text[0] == '\\' && Unescape(text[1]) == Some(c);
        assert text[2..] == tail;
      } else {
        assert EscapeChar(c) == [c];
        assert text[1..] == tail;
      }
      assert [c] + s[1..] == s;
    }
  }

  /** What `ReadLiteral` consumed is exactly the escaping of the value it
      returns: every value has a single spelling. */
  lemma {:induction false} ReadLiteralEscapes(s: string)
    requires ReadLiteral(s).Some?
    ensures s[..ReadLiteral(s).value.1] == EscapeJs(ReadLiteral(s).value.0)
    decreases |s|
  {
    var v := ReadLiteral(s).value.0;
    var q := ReadLiteral(s).value.1;
    if s[0] == '\'' {
    } else if s[0] == '\\' {
      var c := Unescape(s[1]).value;
      var w := ReadLiteral(s[2..]).value.0;
      var k := ReadLiteral(s[2..]).value.1;
      ReadLiteralEscapes(s[2..]);
      assert v == [c] + w && q == k + 2;
      assert v[1..] == w;
      assert EscapeChar(c) == s[..2];
      assert s[..q] == s[..2] + s[2..][..k];
    } else {
      var w := ReadLiteral(s[1..]).value.0;
      var k := ReadLiteral(s[1..]).value.1;
      ReadLiteralEscapes(s[1..]);
      assert v == [s[0]] + w && q == k + 1;
      assert v[1..] == w;
      assert EscapeChar(s[0]) == [s[0]];
      assert s[..q] == [s[0]] + s[1..][..k];
    }
  }

  /** Escaping never shortens a name, and keeps its length exactly when the
      name needs no escaping. */
  lemma {:induction false} EscapeLength(s: string)
    ensures |EscapeJs(s)| >= |s|
    ensures |EscapeJs(s)| == |s| <==> PlainName(s)
    decreases |s|
  {
    if s != [] {
      EscapeLength(s[1..]);
      assert forall i :: 1 <= i < |s| ==> s[1..][i - 1] == s[i];
      assert PlainName(s) <==> !NeedsEscape(s[0]) && PlainName(s[1..]);
    }
  }

  /** A name that needs no escaping is its own escaping. */
  lemma {:induction false} EscapePlain(s: string)
    requires PlainName(s)
    ensures EscapeJs(s) == s
    decreases |s|
  {
    if s != [] {
      assert !NeedsEscape(s[0]);
      assert forall i :: 0 <= i < |s| - 1 ==> s[1..][i] == s[i + 1];
      EscapePlain(s[1..]);
      assert [s[0]] + s[1..] == s;
    }
  }

  /** The literal part of the template reads back when the middle text
      opens with the quote that closes the literal and the value is escaped. */
  lemma UnfillInnerFill(middle: string, first: string, second: string)
    requires middle != [] && middle[0] == '\''
    ensures UnfillInner(middle, EscapeJs(first) + middle + second) == Some((first, second))
  {
    var e := EscapeJs(first);
    var inner := e + middle + second;
    assert middle == "'" + middle[1..];
    assert inner == e + "'" + (middle[1..] + second);
    ReadEscaped(first, middle[1..] + second);
    assert inner[|e|..|e| + |middle|] == middle;
    assert inner[|e| + |middle|..] == second;
  }

  /** `Unfill` undoes `Fill` when the middle text opens with the quote that
      closes the literal and the first value is escaped. */
  lemma UnfillFill(header: string, middle: string, footer: string, first: string, second: string)
    requires middle != [] && middle[0] == '\''
    ensures Unfill(header, middle, footer, Fill(header, middle, footer, EscapeJs(first), second)) == Some((first, second))
  {
    UnfillStrips(header, middle, footer, EscapeJs(first), second);
    UnfillInnerFill(middle, first, second);
  }

  /** The script embeds the cache name and the URL list in fixed places, and
      both read back from it, whatever characters the name holds. */
  lemma ParseServiceWorkerText(cacheName: string, cached: string)
    ensures ParseServiceWorker(ServiceWorkerText(cacheName, cached)) == Some((cacheName, cached))
  {
    assert Middle[0] == '\'';
    UnfillFill(Header, Middle, Footer, cacheName, cached);
  }

  /** Two scripts are equal exactly when their cache names and URL lists are:
      everything else in the template is constant. */
  lemma ServiceWorkerTextInjective(n1: string, c1: string, n2: string, c2: string)
    ensures ServiceWorkerText(n1, c1) == ServiceWorkerText(n2, c2) <==> n1 == n2 && c1 == c2
  {
    ParseServiceWorkerText(n1, c1);
    ParseServiceWorkerText(n2, c2);
  }

  /** For a name that needs no escaping the corrected script is the script
      as written. */
  lemma AsWrittenAgreesOnPlainNames(cacheName: string, cached: string)
    requires PlainName(cacheName)
    ensures ServiceWorkerTextAsWritten(cacheName, cached) == ServiceWorkerText(cacheName, cached)
  {
    EscapePlain(cacheName);
  }

  /** As written, the cache name reads back from the script exactly when it
      needs no escaping: a quote, a backslash or a line break in the project
      name changes or breaks the string literal. */
  lemma AsWrittenReadsBackIffPlain(cacheName: string, cached: string)
    ensures ParseServiceWorker(ServiceWorkerTextAsWritten(cacheName, cached)) == Some((cacheName, cached))
            <==> PlainName(cacheName)
  {
    if PlainName(cacheName) {
      AsWrittenAgreesOnPlainNames(cacheName, cached);
      ParseServiceWorkerText(cacheName, cached);
    } else {
      ParseAsWritten(cacheName, cached);
      NotPlainDoesNotReadBack(cacheName, cached);
    }
  }

  /** A literal holding a name that needs escaping, as it is, does not read
      back as that name. */
  lemma NotPlainDoesNotReadBack(cacheName: string, cached: string)
    requires !PlainName(cacheName)
    ensures UnfillInner(Middle, cacheName + Middle + cached) != Some((cacheName, cached))
  {
    var inner := cacheName + Middle + cached;
    var r := UnfillInner(Middle, inner);
    if r == Some((cacheName, cached)) {
      var q := ReadLiteral(inner).value.1;
      assert |inner[q + |Middle|..]| == |cached|;
      assert inner[..q] == cacheName;
      ReadLiteralEscapes(inner);
      EscapeLength(cacheName);
      assert false;
    }
  }

  /** A literal closed early by a quote inside a plain prefix `p`: whatever
      follows that quote is not `middle` when its next character differs. */
  lemma LiteralClosesEarly(middle: string, p: string, x: char, rest: string)
    requires PlainName(p)
    requires |middle| >= 2 && middle[0] == '\'' && middle[1] != x
    ensures UnfillInner(middle, p + "'" + [x] + rest) == None
  {
    var inner := p + "'" + [x] + rest;
    assert inner == p + "'" + ([x] + rest);
    EscapePlain(p);
    ReadEscaped(p, [x] + rest);
    assert inner[|p| + 1] == x;
  }

  /** As written, reading the script back reads the name's literal part. */
  lemma ParseAsWritten(cacheName: string, cached: string)
    ensures ParseServiceWorker(ServiceWorkerTextAsWritten(cacheName, cached))
            == UnfillInner(Middle, cacheName + Middle + cached)
  {
    UnfillStrips(Header, Middle, Footer, cacheName, cached);
  }

  /** The middle text closes the literal and goes on with ';'. */
  lemma MiddleOpening()
    ensures |Middle| >= 2 && Middle[0] == '\'' && Middle[1] == ';'
  {
  }

  /** The project name "Bob's Game" as written: the literal closes after
      "Bob", and what follows is not the rest of the template. */
  lemma AsWrittenApostropheBreaks(cached: string)
    ensures ParseServiceWorker(ServiceWorkerTextAsWritten("Bob's Game", cached)) == None
  {
    var rest := " Game" + Middle + cached;
    assert "Bob's Game" + Middle + cached == "Bob" + "'" + ['s'] + rest by {
      assert "Bob's Game" == "Bob" + "'" + ['s'] + " Game";
    }
    assert PlainName("Bob");
    MiddleOpening();
    LiteralClosesEarly(Middle, "Bob", 's', rest);
    ParseAsWritten("Bob's Game", cached);
  }
}
