/** The escapes of the console behind a SOCKS server: every byte that could mean something to the page is written in hex. */
module SocksEscapes {
  import opened Decimals
  import opened Escapes
  import opened Prompts

  function HtmlByte(c: char): string {
    match c
    case '&' => "&amp;"
    case '<' => "&lt;"
    case '>' => "&gt;"
    case '"' => "&quot;"
    case '\'' => "&#39;"
    case _ => [c]
  }

  predicate IsPrint(c: char) {
    ' ' <= c <= '~'
  }

  function HexDigit(n: nat): (c: char)
    requires n < 16
    ensures HexValue(c) == n
  {
    if n < 10 then ('0' as int + n) as char else ('a' as int + (n - 10)) as char
  }

  // The source works on bytes; characters beyond them do not occur and are left alone.
  function JsByte(c: char): string {
    match c
    case '\\' => "\\\\"
    case '\'' => "\\'"
    case '\n' => "\\n"
    case '\r' => ""
    case '<' => "\\x3C"
    case '>' => "\\x3E"
    case '&' => "\\x26"
    case _ => if IsPrint(c) || c as int >= 256 then [c] else ['\\', 'x', HexDigit(c as int / 16), HexDigit(c as int % 16)]
  }

  function Html(s: string): string {
    Escaped(HtmlByte, s)
  }

  function Js(s: string): string {
    Escaped(JsByte, s)
  }

  method HtmlEscape(value: string) returns (escaped: string)
    ensures escaped == Html(value)
  {
    escaped := "";
    for i := 0 to |value|
      invariant escaped == Html(value[..i])
    {
      assert value[..i + 1][..i] == value[..i];
      match value[i] {
        case '&' => escaped := escaped + "&amp;";
        case '<' => escaped := escaped + "&lt;";
        case '>' => escaped := escaped + "&gt;";
        case '"' => escaped := escaped + "&quot;";
        case '\'' => escaped := escaped + "&#39;";
        case ch => escaped := escaped + [ch];
      }
    }
    assert value[..|value|] == value;
  }

  method JsEscape(value: string) returns (escaped: string)
    ensures escaped == Js(value)
  {
    escaped := "";
    for i := 0 to |value|
      invariant escaped == Js(value[..i])
    {
      assert value[..i + 1][..i] == value[..i];
      match value[i] {
        case '\\' => escaped := escaped + "\\\\";
        case '\'' => escaped := escaped + "\\'";
        case '\n' => escaped := escaped + "\\n";
        case '\r' =>
        case '<' => escaped := escaped + "\\x3C";
        case '>' => escaped := escaped + "\\x3E";
        case '&' => escaped := escaped + "\\x26";
        case ch =>
          if IsPrint(ch) || ch as int >= 256 {
            escaped := escaped + [ch];
          } else {
            escaped := escaped + "\\x" + [HexDigit(ch as int / 16), HexDigit(ch as int % 16)];
            assert JsByte(ch) == "\\x" + [HexDigit(ch as int / 16), HexDigit(ch as int % 16)];
          }
      }
    }
    assert value[..|value|] == value;
  }

  lemma DecodeHtmlByte(c: char, rest: string)
    ensures DecodeHtml(HtmlByte(c) + rest) == [c] + DecodeHtml(rest)
  {
    if c in {'&', '<', '>', '"', '\''} {
      assert HtmlByte(c) == HtmlChar(c);
      DecodeHtmlChar(c, rest);
    } else {
      var s := HtmlByte(c) + rest;
      assert s[0] == c && s[1..] == rest;
    }
  }

  lemma {:induction false} HtmlShows(s: string)
    ensures DecodeHtml(Html(s)) == s
  {
    if s != "" {
      EscapedFirst(HtmlByte, s);
      HtmlShows(s[1..]);
      DecodeHtmlByte(s[0], Html(s[1..]));
    }
  }

  // \xHH is one byte again.
  lemma ReadHex(c: char, rest: string)
    requires c as int < 256
    ensures ReadLiteral(['\\', 'x', HexDigit(c as int / 16), HexDigit(c as int % 16)] + rest) == Prepend(c, ReadLiteral(rest))
  {
    var s := ['\\', 'x', HexDigit(c as int / 16), HexDigit(c as int % 16)] + rest;
    assert s[4..] == rest && s[2] == HexDigit(c as int / 16) && s[3] == HexDigit(c as int % 16);
    assert (c as int / 16) * 16 + c as int % 16 == c as int;
  }

  lemma ReadFixed(s: string, c: char, rest: string)
    requires |s| >= 4 && s[0] == '\\' && s[1] == 'x' && HexValue(s[2]) >= 0 && HexValue(s[3]) >= 0
    requires HexValue(s[2]) * 16 + HexValue(s[3]) == c as int && s[4..] == rest
    ensures ReadLiteral(s) == Prepend(c, ReadLiteral(rest))
  {
  }

  lemma ReadJsByte(c: char, rest: string)
    ensures ReadLiteral(JsByte(c) + rest) == if c == '\r' then ReadLiteral(rest) else Prepend(c, ReadLiteral(rest))
  {
    var s := JsByte(c) + rest;
    match c
    case '\\' => assert s[2..] == rest;
    case '\'' => assert s[2..] == rest;
    case '\n' => assert s[2..] == rest;
    case '\r' => assert s == rest;
    case '<' => ReadFixed(s, c, rest);
    case '>' => ReadFixed(s, c, rest);
    case '&' => ReadFixed(s, c, rest);
    case _ =>
      if IsPrint(c) || c as int >= 256 {
        assert s[0] == c && s[1..] == rest;
      } else {
        ReadHex(c, rest);
      }
  }

  // A literal ends exactly at its own closing quote, and its value is the text but for carriage returns.
  lemma {:induction false} JsReadsBack(s: string, rest: string)
    ensures ReadLiteral(Js(s) + "'" + rest) == Parsed(WithoutReturns(s), rest)
  {
    if s == "" {
      assert Js(s) + "'" + rest == "'" + rest;
      assert ("'" + rest)[1..] == rest;
    } else {
      EscapedQuoted(JsByte, s, rest);
      EscapedFirst(Visible, s);
      JsReadsBack(s[1..], rest);
      ReadJsByte(s[0], Js(s[1..]) + "'" + rest);
    }
  }

  // Carriage returns pass the first escape and are dropped by the second.
  lemma {:induction false} ReturnsPassHtml(s: string)
    ensures WithoutReturns(Html(s)) == Html(WithoutReturns(s))
  {
    if s != "" {
      EscapedFirst(HtmlByte, s);
      EscapedFirst(Visible, s);
      ReturnsPassHtml(s[1..]);
      EscapedConcat(Visible, HtmlByte(s[0]), Html(s[1..]));
      EscapedConcat(HtmlByte, Visible(s[0]), WithoutReturns(s[1..]));
      assert WithoutReturns(HtmlByte(s[0])) == Html(Visible(s[0])) by { OneReturn(s[0]); }
    }
  }

  lemma OneReturn(c: char)
    ensures WithoutReturns(HtmlByte(c)) == Html(Visible(c))
  {
    if c == '\r' {
      assert HtmlByte(c) == "\r" && "\r"[..0] == "";
    } else {
      assert [c][..0] == "";
      EscapedFirst(HtmlByte, [c]);
      assert [c][1..] == "" && HtmlByte(c) + "" == HtmlByte(c);
      assert forall i :: 0 <= i < |HtmlByte(c)| ==> HtmlByte(c)[i] != '\r';
      EscapedKeeps(Visible, HtmlByte(c));
    }
  }

  // The two escapes of output_text, undone by the browser: the literal ends at its own quote and shows the text
  // without its carriage returns.
  lemma ShownText(text: string, rest: string)
    ensures var p := ReadLiteral(Js(Html(text)) + "'" + rest);
      p.Parsed? && p.rest == rest && DecodeHtml(p.value) == WithoutReturns(text)
  {
    JsReadsBack(Html(text), rest);
    ReturnsPassHtml(text);
    HtmlShows(WithoutReturns(text));
  }

  // A command is shown in bold, whatever it contains.
  lemma ShownCommand(command: string, rest: string)
    ensures ReadLiteral(Js("<b>" + Html(command) + "</b>") + "'" + rest) == Parsed("<b>" + Html(WithoutReturns(command)) + "</b>", rest)
    ensures DecodeHtml(Html(WithoutReturns(command))) == WithoutReturns(command)
  {
    JsReadsBack("<b>" + Html(command) + "</b>", rest);
    EscapedConcat(Visible, "<b>" + Html(command), "</b>");
    EscapedConcat(Visible, "<b>", Html(command));
    EscapedKeeps(Visible, "<b>");
    EscapedKeeps(Visible, "</b>");
    ReturnsPassHtml(command);
    HtmlShows(WithoutReturns(command));
  }

  // The escaped text has no angle bracket, ampersand, line end or unprintable byte left.
  lemma NothingLeftToMisread(s: string, c: char)
    requires c in {'<', '>', '&', '\n', '\r'} || (!IsPrint(c) && c as int < 256)
    ensures c !in Js(s)
  {
    EscapedAvoids(JsByte, s, c);
  }

  // What follows the literal in a script.
  const END := ";</script>"

  // What the script for one chunk appends to the column: the value of its literal.
  function Appended(chunk: string): string {
    var p := ReadLiteral(Js(Html(chunk)) + "'" + END);
    if p.Parsed? then p.value else ""
  }

  function Column(chunks: seq<string>): string {
    if chunks == [] then "" else Column(chunks[..|chunks| - 1]) + Appended(chunks[|chunks| - 1])
  }

  // The literals of the scripts, read one after the other and displayed, show the stream without its carriage returns,
  // however it was cut into chunks.
  lemma {:induction false} FragmentsShowTheSame(chunks: seq<string>)
    ensures Column(chunks) == Html(WithoutReturns(Joined(chunks)))
    ensures DecodeHtml(Column(chunks)) == WithoutReturns(Joined(chunks))
  {
    if chunks != [] {
      var n := |chunks| - 1;
      FragmentsShowTheSame(chunks[..n]);
      JsReadsBack(Html(chunks[n]), END);
      ReturnsPassHtml(chunks[n]);
      EscapedConcat(Visible, Joined(chunks[..n]), chunks[n]);
      EscapedConcat(HtmlByte, WithoutReturns(Joined(chunks[..n])), WithoutReturns(chunks[n]));
    }
    HtmlShows(WithoutReturns(Joined(chunks)));
  }
}
