/** How both consoles put text into a page: escaped for HTML, then for a JavaScript literal; and how it is read back. */
module Escapes {
  import opened Decimals
  import opened Prompts

  datatype Parsed = Parsed(value: string, rest: string) | Broken

  // Every character replaced by its escape.
  function Escaped(escape: char -> string, s: string): string {
    if s == "" then "" else Escaped(escape, s[..|s| - 1]) + escape(s[|s| - 1])
  }

  // Escaping distributes over concatenation.
  lemma {:induction false} EscapedConcat(escape: char -> string, a: string, b: string)
    ensures Escaped(escape, a + b) == Escaped(escape, a) + Escaped(escape, b)
  {
    if b == "" {
      assert a + b == a;
    } else {
      EscapedConcat(escape, a, b[..|b| - 1]);
      assert (a + b)[..|a + b| - 1] == a + b[..|b| - 1];
    }
  }

  lemma EscapedFirst(escape: char -> string, s: string)
    requires s != ""
    ensures Escaped(escape, s) == escape(s[0]) + Escaped(escape, s[1..])
  {
    EscapedConcat(escape, [s[0]], s[1..]);
    assert s == [s[0]] + s[1..] && [s[0]][..0] == "";
  }

  lemma {:induction false} EscapedAvoids(escape: char -> string, s: string, c: char)
    requires forall i :: 0 <= i < |s| ==> c !in escape(s[i])
    ensures c !in Escaped(escape, s)
  {
    if s != "" { EscapedAvoids(escape, s[..|s| - 1], c); }
  }

  lemma {:induction false} EscapedKeeps(escape: char -> string, s: string)
    requires forall i :: 0 <= i < |s| ==> escape(s[i]) == [s[i]]
    ensures Escaped(escape, s) == s
  {
    if s != "" {
      var n := |s| - 1;
      var init, last := s[..n], s[n];
      forall i | 0 <= i < n ensures escape(init[i]) == [init[i]] { assert init[i] == s[i]; }
      EscapedKeeps(escape, init);
      assert escape(last) == [last];
      assert s == init + [last];
    }
  }

  // The front of an escaped literal.
  lemma EscapedQuoted(escape: char -> string, s: string, rest: string)
    requires s != ""
    ensures Escaped(escape, s) + "'" + rest == escape(s[0]) + (Escaped(escape, s[1..]) + "'" + rest)
  {
    EscapedFirst(escape, s);
  }

  function Visible(c: char): string {
    if c == '\r' then "" else [c]
  }

  function WithoutReturns(s: string): string {
    Escaped(Visible, s)
  }

  // ----- the browser's side -----

  // Character references become characters.
  function DecodeHtml(s: string): string {
    if s == "" then ""
    else if "&amp;" <= s then "&" + DecodeHtml(s[5..])
    else if "&lt;" <= s then "<" + DecodeHtml(s[4..])
    else if "&gt;" <= s then ">" + DecodeHtml(s[4..])
    else if "&quot;" <= s then "\"" + DecodeHtml(s[6..])
    else if "&#39;" <= s then "'" + DecodeHtml(s[5..])
    else if "&NewLine;" <= s then "\n" + DecodeHtml(s[9..])
    else [s[0]] + DecodeHtml(s[1..])
  }

  function HexValue(c: char): int {
    if '0' <= c <= '9' then c as int - '0' as int
    else if 'a' <= c <= 'f' then c as int - 'a' as int + 10
    else if 'A' <= c <= 'F' then c as int - 'A' as int + 10
    else -1
  }

  function Prepend(c: char, p: Parsed): Parsed {
    if p.Parsed? then p.(value := [c] + p.value) else p
  }

  // A single-quoted literal, from behind its opening quote: its value and what follows its closing quote.
  function ReadLiteral(s: string): Parsed {
    if s == "" || s[0] == '\n' || s[0] == '\r' then Broken
    else if s[0] == '\'' then Parsed("", s[1..])
    else if s[0] != '\\' then Prepend(s[0], ReadLiteral(s[1..]))
    else if |s| < 2 || s[1] == '\n' || s[1] == '\r' then Broken
    else if s[1] == 'n' then Prepend('\n', ReadLiteral(s[2..]))
    else if s[1] == 'x' then
      if |s| < 4 || HexValue(s[2]) < 0 || HexValue(s[3]) < 0 then Broken
      else Prepend((HexValue(s[2]) * 16 + HexValue(s[3])) as char, ReadLiteral(s[4..]))
    else Prepend(s[1], ReadLiteral(s[2..]))
  }

  // ----- the console of project 3 -----

  function HtmlChar(c: char): string {
    match c
    case '&' => "&amp;"
    case '<' => "&lt;"
    case '>' => "&gt;"
    case '"' => "&quot;"
    case '\'' => "&#39;"
    case '\n' => "&NewLine;"
    case '\r' => ""
    case _ => [c]
  }

  function JsChar(c: char): string {
    match c
    case '\\' => "\\\\"
    case '\'' => "\\'"
    case '\n' => "\\n"
    case '\r' => ""
    case _ => [c]
  }

  function Html(s: string): string {
    Escaped(HtmlChar, s)
  }

  function Js(s: string): string {
    Escaped(JsChar, s)
  }

  method HtmlEscape(content: string) returns (escaped: string)
    ensures escaped == Html(content)
  {
    escaped := "";
    for i := 0 to |content|
      invariant escaped == Html(content[..i])
    {
      assert content[..i + 1][..i] == content[..i];
      match content[i] {
        case '&' => escaped := escaped + "&amp;";
        case '<' => escaped := escaped + "&lt;";
        case '>' => escaped := escaped + "&gt;";
        case '"' => escaped := escaped + "&quot;";
        case '\'' => escaped := escaped + "&#39;";
        case '\n' => escaped := escaped + "&NewLine;";
        case '\r' =>
        case ch => escaped := escaped + [ch];
      }
    }
    assert content[..|content|] == content;
  }

  method JsStringEscape(content: string) returns (escaped: string)
    ensures escaped == Js(content)
  {
    escaped := "";
    for i := 0 to |content|
      invariant escaped == Js(content[..i])
    {
      assert content[..i + 1][..i] == content[..i];
      match content[i] {
        case '\\' => escaped := escaped + "\\\\";
        case '\'' => escaped := escaped + "\\'";
        case '\n' => escaped := escaped + "\\n";
        case '\r' =>
        case ch => escaped := escaped + [ch];
      }
    }
    assert content[..|content|] == content;
  }

  lemma DecodePlain(c: char, rest: string)
    requires c != '&'
    ensures DecodeHtml([c] + rest) == [c] + DecodeHtml(rest)
  {
    var s := [c] + rest;
    assert s[0] == c && s[1..] == rest;
  }

  // The references are told apart by their second character.
  lemma DecodeReference(c: char, rest: string)
    requires c in {'&', '<', '>', '"', '\'', '\n'}
    ensures DecodeHtml(HtmlChar(c) + rest) == [c] + DecodeHtml(rest)
  {
    var r := HtmlChar(c);
    var s := r + rest;
    assert s[1] == r[1] && r <= s && s[|r|..] == rest;
    assert "&amp;"[1] == 'a' && "&lt;"[1] == 'l' && "&gt;"[1] == 'g' && "&quot;"[1] == 'q' && "&#39;"[1] == '#' && "&NewLine;"[1] == 'N';
  }

  // One escaped character is read back, whatever follows.
  lemma DecodeHtmlChar(c: char, rest: string)
    ensures DecodeHtml(HtmlChar(c) + rest) == (if c == '\r' then "" else [c]) + DecodeHtml(rest)
  {
    if c in {'&', '<', '>', '"', '\'', '\n'} {
      DecodeReference(c, rest);
    } else if c == '\r' {
      assert HtmlChar(c) + rest == rest;
    } else {
      DecodePlain(c, rest);
    }
  }

  // The browser shows the text itself, but for carriage returns.
  lemma {:induction false} HtmlShows(s: string)
    ensures DecodeHtml(Html(s)) == WithoutReturns(s)
  {
    if s != "" {
      EscapedFirst(HtmlChar, s);
      EscapedFirst(Visible, s);
      HtmlShows(s[1..]);
      DecodeHtmlChar(s[0], Html(s[1..]));
    }
  }

  lemma ReadJsChar(c: char, rest: string)
    ensures ReadLiteral(JsChar(c) + rest) == if c == '\r' then ReadLiteral(rest) else Prepend(c, ReadLiteral(rest))
  {
    var s := JsChar(c) + rest;
    match c
    case '\\' => assert s[2..] == rest;
    case '\'' => assert s[2..] == rest;
    case '\n' => assert s[2..] == rest;
    case '\r' => assert s == rest;
    case _ => assert s[0] == c && s[1..] == rest;
  }

  // A literal ends exactly at its own closing quote, and its value is the text but for carriage returns.
  lemma {:induction false} JsReadsBack(s: string, rest: string)
    ensures ReadLiteral(Js(s) + "'" + rest) == Parsed(WithoutReturns(s), rest)
  {
    if s == "" {
      assert Js(s) + "'" + rest == "'" + rest;
      assert ("'" + rest)[1..] == rest;
    } else {
      EscapedQuoted(JsChar, s, rest);
      EscapedFirst(Visible, s);
      JsReadsBack(s[1..], rest);
      ReadJsChar(s[0], Js(s[1..]) + "'" + rest);
    }
  }

  lemma HtmlHasNoReturns(s: string)
    ensures '\r' !in Html(s) && '<' !in Html(s) && WithoutReturns(Html(s)) == Html(s)
  {
    EscapedAvoids(HtmlChar, s, '\r');
    EscapedAvoids(HtmlChar, s, '<');
    EscapedKeeps(Visible, Html(s));
  }

  // ----- a console script -----

  function Lead(id: nat): string {
    "<script>document.getElementById('s" + Decimal(id) + "').innerHTML += '"
  }

  const TRAIL := ";</script>\n"

  function Bold(text: string, command: bool): string {
    if command then "<b>" + text + "</b>" else text
  }

  function MakeConsoleScript(id: nat, content: string, command: bool): string {
    Lead(id) + Bold(Js(Html(content)), command) + "'" + TRAIL
  }

  method BuildConsoleScript(id: nat, content: string, command: bool) returns (script: string)
    ensures script == MakeConsoleScript(id, content, command)
  {
    var html := HtmlEscape(content);
    var escaped := JsStringEscape(html);
    script := "<script>document.getElementById('s" + Decimal(id) + "').innerHTML += '";
    if command {
      script := script + "<b>";
    }
    script := script + escaped;
    if command {
      script := script + "</b>";
    }
    script := script + "';</script>\n";
    assert script == MakeConsoleScript(id, content, command);
  }

  // What a script does to the page: the element it names, and what it appends to it.
  datatype Change = Appends(element: string, text: string) | NoScript

  // A browser reads both literals of a script, each up to the closing quote that is really its own.
  function ReadScript(script: string): Change {
    var opening, between := "<script>document.getElementById('", ").innerHTML += '";
    if !(opening <= script) then NoScript
    else
      var name := ReadLiteral(script[|opening|..]);
      if name == Broken || !(between <= name.rest) then NoScript
      else
        var text := ReadLiteral(name.rest[|between|..]);
        if text == Broken || text.rest != ";</script>\n" then NoScript else Appends(name.value, text.value)
  }

  lemma ReadsBoth(head: string, body: string, element: string, text: string)
    requires ReadLiteral(head) == Parsed(element, ").innerHTML += '" + body) && ReadLiteral(body) == Parsed(text, ";</script>\n")
    ensures ReadScript("<script>document.getElementById('" + head) == Appends(element, text)
  {
    var opening, between := "<script>document.getElementById('", ").innerHTML += '";
    assert (opening + head)[|opening|..] == head && (between + body)[|between|..] == body;
  }

  lemma ContentReadsBack(content: string, command: bool)
    ensures ReadLiteral(Bold(Js(Html(content)), command) + "'" + TRAIL) == Parsed(Bold(Html(content), command), TRAIL)
  {
    hide ReadLiteral, Html;
    var bold := Bold(Html(content), command);
    BoldEscapes(Html(content), command);
    JsReadsBack(bold, TRAIL);
    HtmlHasNoReturns(content);
    BoldVisible(Html(content), command);
  }

  // A script appends the escaped content to the element of its session, and nothing else.
  lemma ScriptAdds(id: nat, content: string, command: bool)
    ensures ReadScript(MakeConsoleScript(id, content, command)) ==
            Appends("s" + Decimal(id), if command then "<b>" + Html(content) + "</b>" else Html(content))
    ensures DecodeHtml(Html(content)) == WithoutReturns(content)
  {
    hide ReadLiteral, ReadScript, Html, Js, Decimal, DecodeHtml;
    var body := Bold(Js(Html(content)), command) + "'" + TRAIL;
    var head := "s" + Decimal(id) + "'" + (").innerHTML += '" + body);
    HtmlShows(content);
    ContentReadsBack(content, command);
    ElementReadsBack(id, ").innerHTML += '" + body);
    ReadsBoth(head, body, "s" + Decimal(id), Bold(Html(content), command));
    LeadApart(id);
    Assemble("<script>document.getElementById('", "s" + Decimal(id) + "'", ").innerHTML += '", body);
    Assemble(Lead(id), Bold(Js(Html(content)), command), "'", TRAIL);
  }

  lemma LeadApart(id: nat)
    ensures Lead(id) == "<script>document.getElementById('" + ("s" + Decimal(id) + "'") + ").innerHTML += '"
  {
    assert "<script>document.getElementById('s" == "<script>document.getElementById('" + "s";
    assert "').innerHTML += '" == "'" + ").innerHTML += '";
  }

  lemma Assemble(a: string, b: string, c: string, d: string)
    ensures a + b + c + d == a + (b + (c + d)) == a + (b + c + d)
  {
  }

  lemma ElementReadsBack(id: nat, rest: string)
    ensures ReadLiteral("s" + Decimal(id) + "'" + rest) == Parsed("s" + Decimal(id), rest)
  {
    var name := "s" + Decimal(id);
    forall n | 0 <= n < |name| ensures JsChar(name[n]) == Visible(name[n]) == [name[n]] {
      assert n > 0 ==> IsDigit(Decimal(id)[n - 1]);
    }
    EscapedKeeps(JsChar, name);
    EscapedKeeps(Visible, name);
    JsReadsBack(name, rest);
  }

  // Different sessions never write to the same element.
  lemma ElementsDiffer(id: nat, other: nat)
    ensures "s" + Decimal(id) == "s" + Decimal(other) <==> id == other
  {
    ValueOfDecimal(id);
    ValueOfDecimal(other);
    assert ("s" + Decimal(id))[1..] == Decimal(id) && ("s" + Decimal(other))[1..] == Decimal(other);
  }

  lemma BoldEscapes(text: string, command: bool)
    ensures Js(Bold(text, command)) == Bold(Js(text), command)
  {
    EscapedKeeps(JsChar, "<b>");
    EscapedKeeps(JsChar, "</b>");
    EscapedConcat(JsChar, "<b>" + text, "</b>");
    EscapedConcat(JsChar, "<b>", text);
  }

  lemma BoldVisible(text: string, command: bool)
    requires WithoutReturns(text) == text
    ensures WithoutReturns(Bold(text, command)) == Bold(text, command)
  {
    EscapedKeeps(Visible, "<b>");
    EscapedKeeps(Visible, "</b>");
    EscapedConcat(Visible, "<b>" + text, "</b>");
    EscapedConcat(Visible, "<b>", text);
  }

  // The escaped content never closes the script element it stands in.
  lemma NoTagInside(s: string)
    ensures '<' !in Js(Html(s))
  {
    HtmlHasNoReturns(s);
    EscapedAvoids(JsChar, Html(s), '<');
  }

  function HtmlAll(chunks: seq<string>): string {
    if chunks == [] then "" else HtmlAll(chunks[..|chunks| - 1]) + Html(chunks[|chunks| - 1])
  }

  // What is displayed does not depend on how the stream was cut into chunks.
  lemma {:induction false} FragmentsShowTheSame(chunks: seq<string>)
    ensures HtmlAll(chunks) == Html(Joined(chunks))
    ensures DecodeHtml(HtmlAll(chunks)) == WithoutReturns(Joined(chunks))
  {
    if chunks != [] {
      var n := |chunks| - 1;
      FragmentsShowTheSame(chunks[..n]);
      EscapedConcat(HtmlChar, Joined(chunks[..n]), chunks[n]);
    }
    HtmlShows(Joined(chunks));
  }
}
