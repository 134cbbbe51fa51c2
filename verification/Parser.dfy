/** From a line of text to commands: tokens, number-pipe markers, redirections; and back. */
module Parser {
  import opened Commands
  import opened Decimals

  // ----- number-pipe tokens -----

  predicate GoodTerm(term: string) {
    term != "" && AllDigits(term)
  }

  predicate AllGood(terms: seq<string>) {
    forall i :: 0 <= i < |terms| ==> GoodTerm(terms[i])
  }

  predicate GoodTerms(terms: seq<string>) {
    terms != [] && AllGood(terms)
  }

  // A marker, then groups of digits joined by plus signs.
  ghost predicate Marked(token: string, marker: char) {
    exists terms :: GoodTerms(terms) && token == [marker] + Join(terms, '+')
  }

  // The same, character by character.
  predicate GroupChar(s: string, i: int)
    requires 0 <= i < |s|
  {
    IsDigit(s[i]) || (s[i] == '+' && 0 < i && IsDigit(s[i - 1]))
  }

  predicate Groups(s: string) {
    s != "" && IsDigit(s[|s| - 1]) && forall i :: 0 <= i < |s| ==> GroupChar(s, i)
  }

  lemma {:induction false} JoinedGroups(terms: seq<string>)
    requires GoodTerms(terms)
    ensures Groups(Join(terms, '+')) && IsDigit(Join(terms, '+')[0])
  {
    var s := Join(terms, '+');
    if |terms| == 1 {
      assert GoodTerm(terms[0]) && s == terms[0];
    } else {
      var rest := Join(terms[1..], '+');
      JoinedGroups(terms[1..]);
      assert GoodTerm(terms[0]) && s == terms[0] + "+" + rest;
      GroupsJoin(terms[0], rest);
    }
  }

  lemma GroupsJoin(first: string, rest: string)
    requires GoodTerm(first) && Groups(rest) && IsDigit(rest[0])
    ensures Groups(first + "+" + rest) && IsDigit((first + "+" + rest)[0])
  {
    var s, n := first + "+" + rest, |first|;
    assert forall i :: 0 <= i < n ==> s[i] == first[i];
    assert s[n] == '+';
    assert forall i :: 0 <= i < |rest| ==> s[n + 1 + i] == rest[i];
    forall i | 0 <= i < |s| ensures GroupChar(s, i) {
      if i > n { assert GroupChar(rest, i - n - 1); }
    }
  }

  lemma {:induction false} GroupsSplit(s: string) returns (terms: seq<string>)
    requires Groups(s)
    ensures GoodTerms(terms) && s == Join(terms, '+')
    decreases |s|
  {
    var n := FirstOf(s, '+');
    forall i | 0 <= i < n ensures IsDigit(s[i]) { assert GroupChar(s, i); }
    if n == |s| {
      terms := [s];
    } else {
      assert GroupChar(s, n);
      var rest := s[n + 1..];
      assert GroupChar(s, n + 1);
      forall i | 0 <= i < |rest| ensures GroupChar(rest, i) { assert GroupChar(s, n + 1 + i); }
      var more := GroupsSplit(rest);
      terms := [s[..n]] + more;
      assert terms[1..] == more;
      assert s == s[..n] + "+" + rest;
    }
  }

  // The loop of isNumberPipeToken accepts exactly the marked tokens.
  method IsNumberPipeToken(token: string, marker: char) returns (yes: bool)
    ensures yes <==> Marked(token, marker)
    ensures yes <==> NumberPipeToken(token, marker)
  {
    MarkedExactly(token, marker);
    if |token| < 2 || token[0] != marker {
      return false;
    }
    var lastWasPlus := true;
    var i := 1;
    ghost var s := token[1..];
    while i < |token|
      invariant 1 <= i <= |token|
      invariant forall j :: 0 <= j < i - 1 ==> GroupChar(s, j)
      invariant lastWasPlus <==> i == 1 || !IsDigit(s[i - 2])
    {
      if IsDigit(token[i]) {
        assert GroupChar(s, i - 1);
        lastWasPlus := false;
      } else if token[i] == '+' {
        if lastWasPlus {
          assert !GroupChar(s, i - 1);
          return false;
        }
        assert GroupChar(s, i - 1);
        lastWasPlus := true;
      } else {
        assert !GroupChar(s, i - 1);
        return false;
      }
      i := i + 1;
    }
    return !lastWasPlus;
  }

  predicate NumberPipeToken(token: string, marker: char) {
    |token| >= 2 && token[0] == marker && Groups(token[1..])
  }

  lemma MarkedExactly(token: string, marker: char)
    ensures Marked(token, marker) <==> NumberPipeToken(token, marker)
  {
    if terms :| GoodTerms(terms) && token == [marker] + Join(terms, '+') {
      JoinedGroups(terms);
      assert token[1..] == Join(terms, '+');
    }
    if NumberPipeToken(token, marker) {
      var terms := GroupsSplit(token[1..]);
      assert token == [marker] + token[1..];
    }
  }

  // ----- their counts -----

  function Sum(terms: seq<string>): nat
    requires AllGood(terms)
  {
    if terms == [] then 0
    else
      assert GoodTerm(terms[0]);
      Value(terms[0]) + Sum(terms[1..])
  }

  // A count beyond an int, in a term or in the total, is no count.
  datatype Count = Count(value: int) | Overflow

  function CountTerms(terms: seq<string>): Count
    requires AllGood(terms)
  {
    if Sum(terms) <= INT_MAX then Count(Sum(terms)) else Overflow
  }

  // The sum of the groups.
  function CountOf(token: string): Count {
    var terms := if token == "" then [] else Split(token[1..], '+');
    if AllGood(terms) then CountTerms(terms) else Overflow
  }

  lemma TermsAreSplit(s: string)
    requires Groups(s)
    ensures GoodTerms(Split(s, '+')) && Join(Split(s, '+'), '+') == s
  {
    var terms := GroupsSplit(s);
    forall i | 0 <= i < |terms| ensures '+' !in terms[i] { assert GoodTerm(terms[i]); }
    assert GoodTerm(terms[|terms| - 1]);
    SplitJoin(terms, '+');
  }

  method ReadTerm(term: string) returns (number: Number)
    requires GoodTerm(term)
    ensures number == if Value(term) <= INT_MAX then Number(Value(term)) else NoNumber
  {
    StoiOfDigits(term);
    number := Stoi(term);
  }

  // For a marked token, the sum of its groups as far as an int reaches.
  method ParseNumberPipeCount(token: string) returns (count: Count)
    requires |token| > 0 && Groups(token[1..])
    ensures count == CountOf(token)
  {
    TermsAreSplit(token[1..]);
    count := AddTerms(token, Split(token[1..], '+'));
  }

  // The loop over the terms of a token.
  method AddTerms(token: string, ghost terms: seq<string>) returns (count: Count)
    requires |token| > 0 && AllGood(terms) && terms != [] && token[1..] == Join(terms, '+')
    ensures count == CountTerms(terms)
  {
    ghost var left := terms;
    var total := 0;
    var termStart := 1;
    while termStart < |token|
      invariant 1 <= termStart <= |token|
      invariant AllGood(left) && token[termStart..] == Join(left, '+') && (left == [] ==> termStart == |token|)
      invariant 0 <= total <= INT_MAX && total + Sum(left) == Sum(terms)
      invariant termStart == |token| ==> left == []
      decreases |token| - termStart
    {
      TermAt(token, termStart, left);
      var length := FirstOf(token[termStart..], '+');
      var number := ReadTerm(token[termStart..termStart + length]);
      if number == NoNumber || total + number.value > INT_MAX {
        return Overflow;
      }
      total := total + number.value;
      left := left[1..];
      termStart := if termStart + length == |token| then |token| else termStart + length + 1;
    }
    return Count(total);
  }

  // The term that starts here, and what is left after it.
  lemma TermAt(token: string, termStart: nat, left: seq<string>)
    requires termStart < |token| && AllGood(left) && token[termStart..] == Join(left, '+')
    ensures left != [] && AllGood(left[1..]) && Sum(left) == Value(left[0]) + Sum(left[1..])
    ensures var length := FirstOf(token[termStart..], '+');
      && token[termStart..termStart + length] == left[0]
      && (if termStart + length == |token| then left[1..] == []
          else termStart + length + 1 < |token| && token[termStart + length + 1..] == Join(left[1..], '+'))
  {
    hide Join;
    var rest := token[termStart..];
    FirstTerm(left);
    var length := FirstOf(rest, '+');
    assert GoodTerm(left[0]) && token[termStart..termStart + length] == rest[..length] == left[0];
    if termStart + length < |token| {
      assert token[termStart + length + 1..] == rest[length + 1..];
    }
  }

  // The first of several joined terms ends at the first plus sign, the only one ends the text.
  lemma FirstTerm(terms: seq<string>)
    requires Join(terms, '+') != "" && AllGood(terms)
    ensures terms != []
    ensures var s := Join(terms, '+'); var n := FirstOf(s, '+');
      && s[..n] == terms[0]
      && (|terms| == 1 ==> n == |s|)
      && (|terms| > 1 ==> n < |s| && s[n + 1..] == Join(terms[1..], '+') && s[n + 1..] != "")
  {
    var s := Join(terms, '+');
    assert GoodTerm(terms[0]);
    assert '+' !in terms[0];
    if |terms| == 1 {
      assert FirstOf(s, '+') == |s|;
    } else {
      FirstAfter(terms[0], '+', Join(terms[1..], '+'));
      JoinedGroups(terms[1..]);
      assert s == terms[0] + "+" + Join(terms[1..], '+');
    }
  }

  // ----- commands -----

  const BLANK := Command([], NextType.Nothing, 0, false, "")

  // An exception while parsing a count ends the parse.
  datatype Line = Parsed(commands: seq<Command>) | Thrown

  function Before(c: Command, line: Line): Line {
    match line
    case Thrown => Thrown
    case Parsed(commands) => Parsed([c] + commands)
  }

  function MarkerType(token: string): NextType
    requires token != ""
  {
    if token[0] == '|' then NumberPipeOut else NumberPipeBoth
  }

  predicate IsMarker(token: string) {
    NumberPipeToken(token, '|') || NumberPipeToken(token, '!')
  }

  // What the tokens from here on add to the commands before, with one command begun.
  function ParseFrom(tokens: seq<string>, current: Command): Line {
    if tokens == [] then Parsed(if current.argv != [] then [current] else [])
    else
      var token := tokens[0];
      if token == "|" then Before(current.(nextType := OrdinaryPipe), ParseFrom(tokens[1..], BLANK))
      else if IsMarker(token) then
        match CountOf(token)
        case Overflow => Thrown
        case Count(n) => Before(current.(nextType := MarkerType(token), nextCount := n), ParseFrom(tokens[1..], BLANK))
      else if token == ">" then
        if |tokens| > 1 then ParseFrom(tokens[2..], current.(redirectStdout := true, redirectFile := tokens[1]))
        else ParseFrom(tokens[1..], current)
      else ParseFrom(tokens[1..], current.(argv := current.argv + [token]))
  }

  function AllBefore(commands: seq<Command>, line: Line): Line {
    match line
    case Thrown => Thrown
    case Parsed(more) => Parsed(commands + more)
  }

  lemma BeforeAll(commands: seq<Command>, c: Command, line: Line)
    ensures AllBefore(commands, Before(c, line)) == AllBefore(commands + [c], line)
  {
    if line.Parsed? { assert commands + ([c] + line.commands) == commands + [c] + line.commands; }
  }

  lemma NothingBefore(line: Line)
    ensures AllBefore([], line) == line
  {
    if line.Parsed? { assert [] + line.commands == line.commands; }
  }

  // The marker of a token, if it is a number pipe.
  method MarkerOf(token: string) returns (marked: bool, count: Count)
    ensures marked == IsMarker(token) && (marked ==> token != "" && count == CountOf(token))
  {
    count := Overflow;
    var isOut := IsNumberPipeToken(token, '|');
    marked := isOut;
    if !isOut {
      marked := IsNumberPipeToken(token, '!');
    }
    if marked {
      count := ParseNumberPipeCount(token);
    }
  }

  method ParseTokens(tokens: seq<string>) returns (line: Line)
    ensures line == ParseFrom(tokens, BLANK)
  {
    var commands: seq<Command> := [];
    var current := BLANK;
    var i := 0;
    NothingBefore(ParseFrom(tokens, BLANK));
    assert tokens[0..] == tokens;
    while i < |tokens|
      invariant 0 <= i <= |tokens|
      invariant ParseFrom(tokens, BLANK) == AllBefore(commands, ParseFrom(tokens[i..], current))
    {
      ghost var left := tokens[i..];
      var token := tokens[i];
      assert left[0] == token && left[1..] == tokens[i + 1..];
      var marked, count := MarkerOf(token);
      if token == "|" {
        BeforeAll(commands, current.(nextType := OrdinaryPipe), ParseFrom(tokens[i + 1..], BLANK));
        commands := commands + [current.(nextType := OrdinaryPipe)];
        current := BLANK;
      } else if marked {
        if count == Overflow {
          return Thrown;
        }
        BeforeAll(commands, current.(nextType := MarkerType(token), nextCount := count.value), ParseFrom(tokens[i + 1..], BLANK));
        commands := commands + [current.(nextType := MarkerType(token), nextCount := count.value)];
        current := BLANK;
      } else if token == ">" {
        if i + 1 < |tokens| {
          assert left[1] == tokens[i + 1] && left[2..] == tokens[i + 2..];
          current := current.(redirectStdout := true, redirectFile := tokens[i + 1]);
          i := i + 1;
        }
      } else {
        current := current.(argv := current.argv + [token]);
      }
      i := i + 1;
    }
    assert tokens[i..] == [];
    if current.argv != [] {
      commands := commands + [current];
    }
    assert commands == commands + [];
    return Parsed(commands);
  }
}
