/** Writing commands down as a line, and reading the line back. */
module Printer {
  import opened Commands
  import opened Decimals
  import opened Parser

  function PrintMarker(c: Command): seq<string> {
    match c.nextType
    case Nothing => []
    case OrdinaryPipe => ["|"]
    case NumberPipeOut => ["|" + Decimal(if c.nextCount >= 0 then c.nextCount else 0)]
    case NumberPipeBoth => ["!" + Decimal(if c.nextCount >= 0 then c.nextCount else 0)]
  }

  function PrintRedirect(c: Command): seq<string> {
    if c.redirectStdout then [">", c.redirectFile] else []
  }

  function PrintCommand(c: Command): seq<string> {
    c.argv + (PrintRedirect(c) + PrintMarker(c))
  }

  function PrintTokens(cs: seq<Command>): seq<string> {
    if cs == [] then [] else PrintCommand(cs[0]) + PrintTokens(cs[1..])
  }

  predicate Plain(word: string) {
    word != "|" && word != ">" && !IsMarker(word)
  }

  // A command that the syntax can express; only the last one may lead nowhere.
  predicate Printable(c: Command, last: bool) {
    && (forall i :: 0 <= i < |c.argv| ==> Plain(c.argv[i]))
    && (c.nextType.Nothing? ==> last && c.argv != [])
    && (!c.redirectStdout ==> c.redirectFile == "")
    && (if IsNumberPipe(c.nextType) then 0 <= c.nextCount <= INT_MAX else c.nextCount == 0)
  }

  predicate AllPrintable(cs: seq<Command>) {
    forall i :: 0 <= i < |cs| ==> Printable(cs[i], i == |cs| - 1)
  }

  lemma {:induction false} ParseWords(words: seq<string>, rest: seq<string>, current: Command)
    requires forall i :: 0 <= i < |words| ==> Plain(words[i])
    ensures ParseFrom(words + rest, current) == ParseFrom(rest, current.(argv := current.argv + words))
  {
    if words == [] {
      assert words + rest == rest && current.argv + words == current.argv;
    } else {
      var tokens := words + rest;
      assert tokens[0] == words[0] && tokens[1..] == words[1..] + rest;
      assert current.argv + [words[0]] + words[1..] == current.argv + words;
      ParseWords(words[1..], rest, current.(argv := current.argv + [words[0]]));
    }
  }

  lemma ParseRedirect(c: Command, rest: seq<string>, current: Command)
    requires current.redirectStdout == false && current.redirectFile == "" && (!c.redirectStdout ==> c.redirectFile == "")
    ensures ParseFrom(PrintRedirect(c) + rest, current) ==
            ParseFrom(rest, current.(redirectStdout := c.redirectStdout, redirectFile := c.redirectFile))
  {
    var tokens := PrintRedirect(c) + rest;
    if c.redirectStdout {
      assert tokens[0] == ">" && tokens[1] == c.redirectFile && tokens[2..] == rest;
    } else {
      assert tokens == rest;
    }
  }

  // The marker printed for a count is a marker of that count.
  lemma PrintedMarker(marker: char, n: nat)
    requires (marker == '|' || marker == '!') && n <= INT_MAX
    ensures var token := [marker] + Decimal(n);
      IsMarker(token) && token != "|" && token != ">" && token[0] == marker && CountOf(token) == Count(n)
  {
    var digits := Decimal(n);
    var token := [marker] + digits;
    assert token[1..] == digits;
    assert forall i :: 0 <= i < |digits| ==> GroupChar(digits, i);
    assert Join([digits], '+') == digits && '+' !in digits;
    SplitJoin([digits], '+');
    ValueOfDecimal(n);
    OneTerm(digits);
  }

  lemma OneTerm(digits: string)
    requires GoodTerm(digits)
    ensures AllGood([digits]) && Sum([digits]) == Value(digits)
  {
    assert [digits][1..] == [];
  }

  lemma ParseMarker(c: Command, rest: seq<string>, current: Command)
    requires !c.nextType.Nothing? && (if IsNumberPipe(c.nextType) then 0 <= c.nextCount <= INT_MAX else c.nextCount == 0)
    requires current.nextCount == 0
    ensures ParseFrom(PrintMarker(c) + rest, current) ==
            Before(current.(nextType := c.nextType, nextCount := c.nextCount), ParseFrom(rest, BLANK))
  {
    var tokens := PrintMarker(c) + rest;
    assert tokens[0] == PrintMarker(c)[0] && tokens[1..] == rest;
    if c.nextType.NumberPipeOut? {
      assert "|" == ['|'];
      PrintedMarker('|', c.nextCount);
    } else if c.nextType.NumberPipeBoth? {
      assert "!" == ['!'];
      PrintedMarker('!', c.nextCount);
    }
  }

  lemma ParseOne(c: Command, last: bool, rest: seq<string>)
    requires Printable(c, last) && (c.nextType.Nothing? ==> rest == [])
    ensures ParseFrom(PrintCommand(c) + rest, BLANK) ==
            if c.nextType.Nothing? then Parsed([c]) else Before(c, ParseFrom(rest, BLANK))
  {
    var after := PrintMarker(c) + rest;
    assert PrintCommand(c) + rest == c.argv + (PrintRedirect(c) + after);
    ParseWords(c.argv, PrintRedirect(c) + after, BLANK);
    assert BLANK.argv + c.argv == c.argv;
    var named := BLANK.(argv := c.argv);
    ParseRedirect(c, after, named);
    var redirected := named.(redirectStdout := c.redirectStdout, redirectFile := c.redirectFile);
    if c.nextType.Nothing? {
      assert after == [] && redirected == c;
    } else {
      ParseMarker(c, rest, redirected);
      assert redirected.(nextType := c.nextType, nextCount := c.nextCount) == c;
    }
  }

  // Parsing undoes printing.
  lemma {:induction false} ParsePrint(cs: seq<Command>)
    requires AllPrintable(cs)
    ensures ParseFrom(PrintTokens(cs), BLANK) == Parsed(cs)
  {
    if cs != [] {
      var c, rest := cs[0], cs[1..];
      assert Printable(c, |cs| == 1);
      assert AllPrintable(rest) by {
        forall i | 0 <= i < |rest| ensures Printable(rest[i], i == |rest| - 1) { assert Printable(cs[i + 1], i + 1 == |cs| - 1); }
      }
      ParsePrint(rest);
      assert c.nextType.Nothing? ==> rest == [];
      ParseOne(c, |cs| == 1, PrintTokens(rest));
      assert cs == [c] + rest;
    }
  }

  // ----- what parsing gives -----

  predicate Begun(current: Command) {
    && (forall i :: 0 <= i < |current.argv| ==> Plain(current.argv[i]))
    && (!current.redirectStdout ==> current.redirectFile == "") && current.nextType.Nothing? && current.nextCount == 0
  }

  // Everything that parses can be printed.
  lemma {:induction false} ParsedIsPrintable(tokens: seq<string>, current: Command)
    requires Begun(current) && ParseFrom(tokens, current).Parsed?
    ensures AllPrintable(ParseFrom(tokens, current).commands)
    decreases |tokens|
  {
    hide IsMarker;
    if tokens != [] {
      var token := tokens[0];
      if token == "|" || IsMarker(token) {
        ParsedIsPrintable(tokens[1..], BLANK);
        var rest := ParseFrom(tokens[1..], BLANK);
        var c := ParseFrom(tokens, current).commands[0];
        assert ParseFrom(tokens, current).commands == [c] + rest.commands;
        assert Printable(c, false);
      } else if token == ">" {
        if |tokens| > 1 {
          ParsedIsPrintable(tokens[2..], current.(redirectStdout := true, redirectFile := tokens[1]));
        } else {
          ParsedIsPrintable(tokens[1..], current);
        }
      } else {
        ParsedIsPrintable(tokens[1..], current.(argv := current.argv + [token]));
      }
    }
  }

  // Whatever a line says, printing what was understood and reading it again changes nothing.
  lemma UnderstoodAgain(tokens: seq<string>)
    requires ParseFrom(tokens, BLANK).Parsed?
    ensures var cs := ParseFrom(tokens, BLANK).commands; ParseFrom(PrintTokens(cs), BLANK) == Parsed(cs)
  {
    ParsedIsPrintable(tokens, BLANK);
    ParsePrint(ParseFrom(tokens, BLANK).commands);
  }

  // ----- lines of text -----

  predicate Word(s: string) {
    s != "" && forall i :: 0 <= i < |s| ==> !IsSpace(s[i])
  }

  // The word a text begins with.
  function FirstWord(s: string): (w: string)
    ensures w <= s
  {
    if s == "" || IsSpace(s[0]) then "" else [s[0]] + FirstWord(s[1..])
  }

  // Reading words from a stream until it ends.
  function Words(line: string): seq<string>
    decreases |line|
  {
    if line == "" then []
    else if IsSpace(line[0]) then Words(line[1..])
    else
      var w := FirstWord(line);
      assert w != "";
      [w] + Words(line[|w|..])
  }

  function Spaced(words: seq<string>): string {
    if words == [] then "" else words[0] + " " + Spaced(words[1..])
  }

  lemma {:induction false} FirstWordBefore(w: string, rest: string)
    requires forall i :: 0 <= i < |w| ==> !IsSpace(w[i])
    ensures FirstWord(w + " " + rest) == w
  {
    var s := w + " " + rest;
    if w == "" {
      assert s[0] == ' ';
    } else {
      FirstWordBefore(w[1..], rest);
      assert s[0] == w[0] && s[1..] == w[1..] + " " + rest && w == [w[0]] + w[1..];
    }
  }

  lemma {:induction false} WordsOfSpaced(words: seq<string>)
    requires forall i :: 0 <= i < |words| ==> Word(words[i])
    ensures Words(Spaced(words)) == words
  {
    if words != [] {
      var w, rest := words[0], Spaced(words[1..]);
      var s := w + " " + rest;
      assert Word(w);
      FirstWordBefore(w, rest);
      assert s[0] == w[0];
      assert s[|w|..] == " " + rest && (" " + rest)[1..] == rest;
      WordsOfSpaced(words[1..]);
      assert words == [w] + words[1..];
    }
  }

  predicate Wordy(c: Command) {
    (forall i :: 0 <= i < |c.argv| ==> Word(c.argv[i])) && (c.redirectStdout ==> Word(c.redirectFile))
  }

  lemma MarkerWord(c: Command)
    ensures forall i :: 0 <= i < |PrintMarker(c)| ==> Word(PrintMarker(c)[i])
  {
    var digits := Decimal(if c.nextCount >= 0 then c.nextCount else 0);
    assert forall i :: 0 <= i < |digits| ==> IsDigit(digits[i]);
  }

  lemma {:induction false} PrintedWords(cs: seq<Command>)
    requires forall i :: 0 <= i < |cs| ==> Wordy(cs[i])
    ensures forall i :: 0 <= i < |PrintTokens(cs)| ==> Word(PrintTokens(cs)[i])
  {
    if cs != [] {
      PrintedWords(cs[1..]);
      assert Wordy(cs[0]);
      MarkerWord(cs[0]);
      assert forall i :: 0 <= i < |PrintRedirect(cs[0])| ==> Word(PrintRedirect(cs[0])[i]);
    }
  }

  // A whole line, split at white space.
  method ParseLine(line: string) returns (parsed: Line)
    ensures parsed == ParseFrom(Words(line), BLANK)
  {
    parsed := ParseTokens(Words(line));
  }

  // A line of text says what was printed into it.
  lemma LineRoundTrip(cs: seq<Command>)
    requires AllPrintable(cs) && forall i :: 0 <= i < |cs| ==> Wordy(cs[i])
    ensures ParseFrom(Words(Spaced(PrintTokens(cs))), BLANK) == Parsed(cs)
  {
    PrintedWords(cs);
    WordsOfSpaced(PrintTokens(cs));
    ParsePrint(cs);
  }
}
