/** The command lines of both servers: those of the shell, with `<N` and `>N` anywhere in them. */
module Requests {
  import opened Commands
  import opened Decimals
  import opened Parser
  import opened Printer

  // Which users a line receives from and sends to, -1 for none.
  datatype UserPipes = UserPipes(inputFrom: int, outputTo: int)

  const NO_PIPES := UserPipes(-1, -1)

  datatype Request = Understood(commands: seq<Command>, pipes: UserPipes) | Refused

  predicate UserPipeToken(token: string, marker: char) {
    |token| > 1 && token[0] == marker && AllDigits(token[1..])
  }

  predicate TiesUser(token: string) {
    UserPipeToken(token, '<') || UserPipeToken(token, '>')
  }

  // What the shell is left with: user pipes are taken out, except where a file name is due.
  function ShellTokens(tokens: seq<string>): seq<string> {
    if tokens == [] then []
    else if tokens[0] == ">" && |tokens| > 1 then tokens[..2] + ShellTokens(tokens[2..])
    else (if TiesUser(tokens[0]) then [] else [tokens[0]]) + ShellTokens(tokens[1..])
  }

  // The user pipes written, a later one replacing an earlier one; none if a number is beyond an int.
  function PipesIn(tokens: seq<string>, pipes: UserPipes): Option<UserPipes> {
    if tokens == [] then Some(pipes)
    else if tokens[0] == ">" && |tokens| > 1 then PipesIn(tokens[2..], pipes)
    else if !TiesUser(tokens[0]) then PipesIn(tokens[1..], pipes)
    else
      match Stoi(tokens[0][1..])
      case NoNumber => None
      case Number(n) => PipesIn(tokens[1..], Note(tokens[0], n, pipes))
  }

  function Note(token: string, n: int, pipes: UserPipes): UserPipes
    requires token != ""
  {
    if token[0] == '<' then pipes.(inputFrom := n) else pipes.(outputTo := n)
  }

  function Tied(line: Line, pipes: Option<UserPipes>): Request {
    if line.Thrown? || pipes.None? then Refused else Understood(line.commands, pipes.value)
  }

  // A line means the commands it has without its user pipes, and those.
  function RequestOf(tokens: seq<string>): Request {
    Tied(ParseFrom(ShellTokens(tokens), BLANK), PipesIn(tokens, NO_PIPES))
  }

  method IsUserPipeToken(token: string, marker: char) returns (yes: bool)
    ensures yes == UserPipeToken(token, marker)
  {
    if |token| <= 1 || token[0] != marker {
      return false;
    }
    for i := 1 to |token|
      invariant forall j :: 0 <= j < i - 1 ==> IsDigit(token[1..][j])
    {
      if !IsDigit(token[i]) {
        assert !IsDigit(token[1..][i - 1]);
        return false;
      }
    }
    return true;
  }

  // The user pipe a token stands for, if it does.
  method UserPipeOf(token: string) returns (isInput: bool, isOutput: bool, number: Number)
    ensures isInput == UserPipeToken(token, '<') && isOutput == UserPipeToken(token, '>')
    ensures isInput || isOutput ==> number == Stoi(token[1..])
  {
    isInput := IsUserPipeToken(token, '<');
    isOutput := IsUserPipeToken(token, '>');
    number := NoNumber;
    if isInput || isOutput {
      number := Stoi(token[1..]);
    }
  }

  // A command that ends in a number pipe, and what follows it.
  function EndedBy(token: string, current: Command, rest: seq<string>): Line
    requires token != ""
  {
    match CountOf(token)
    case Overflow => Thrown
    case Count(n) => Before(current.(nextType := MarkerType(token), nextCount := n), ParseFrom(rest, BLANK))
  }

  // What the shell makes of the next token.
  lemma NextToken(token: string, rest: seq<string>, current: Command)
    requires token != ">"
    ensures ParseFrom([token] + rest, current) ==
      if token == "|" then Before(current.(nextType := OrdinaryPipe), ParseFrom(rest, BLANK))
      else if IsMarker(token) then EndedBy(token, current, rest)
      else ParseFrom(rest, current.(argv := current.argv + [token]))
  {
    assert ([token] + rest)[1..] == rest;
  }

  lemma MarkersTieNobody(token: string)
    ensures token == "|" || IsMarker(token) ==> !TiesUser(token)
  {
  }

  lemma HeadToken(tokens: seq<string>, i: nat, pipes: UserPipes)
    requires i < |tokens| && tokens[i] != ">"
    ensures var token, rest := tokens[i], ShellTokens(tokens[i + 1..]);
      && ShellTokens(tokens[i..]) == (if TiesUser(token) then rest else [token] + rest)
      && PipesIn(tokens[i..], pipes) ==
           if !TiesUser(token) then PipesIn(tokens[i + 1..], pipes)
           else if Stoi(token[1..]) == NoNumber then None
           else PipesIn(tokens[i + 1..], Note(token, Stoi(token[1..]).value, pipes))
  {
    assert tokens[i..][1..] == tokens[i + 1..];
  }

  lemma HeadFile(tokens: seq<string>, i: nat, pipes: UserPipes, current: Command)
    requires i + 1 < |tokens| && tokens[i] == ">"
    ensures ParseFrom(ShellTokens(tokens[i..]), current) ==
            ParseFrom(ShellTokens(tokens[i + 2..]), current.(redirectStdout := true, redirectFile := tokens[i + 1]))
    ensures PipesIn(tokens[i..], pipes) == PipesIn(tokens[i + 2..], pipes)
  {
    assert tokens[i..][..2] == [">", tokens[i + 1]] && tokens[i..][2..] == tokens[i + 2..];
    FileToken(tokens[i + 1], ShellTokens(tokens[i + 2..]), current);
  }

  lemma LoneFile(tokens: seq<string>, i: nat, pipes: UserPipes, current: Command)
    requires i + 1 == |tokens| && tokens[i] == ">"
    ensures ParseFrom(ShellTokens(tokens[i..]), current) == ParseFrom(ShellTokens(tokens[i + 1..]), current)
    ensures PipesIn(tokens[i..], pipes) == PipesIn(tokens[i + 1..], pipes)
  {
    assert tokens[i..] == [">"] && tokens[i + 1..] == [];
  }

  lemma MarkerEnds(commands: seq<Command>, current: Command, token: string, rest: seq<string>)
    requires token != "" && CountOf(token) != Overflow
    ensures AllBefore(commands, EndedBy(token, current, rest)) ==
            AllBefore(commands + [current.(nextType := MarkerType(token), nextCount := CountOf(token).value)], ParseFrom(rest, BLANK))
  {
    BeforeAll(commands, current.(nextType := MarkerType(token), nextCount := CountOf(token).value), ParseFrom(rest, BLANK));
  }

  // The loop of parseCommands over the tokens of a line.
  method ParseCommands(tokens: seq<string>) returns (request: Request)
    ensures request == RequestOf(tokens)
  {
    var commands: seq<Command> := [];
    var current := BLANK;
    var pipes := NO_PIPES;
    var i := 0;
    NothingBefore(ParseFrom(ShellTokens(tokens), BLANK));
    assert tokens[0..] == tokens;
    while i < |tokens|
      invariant 0 <= i <= |tokens|
      invariant RequestOf(tokens) == Tied(AllBefore(commands, ParseFrom(ShellTokens(tokens[i..]), current)), PipesIn(tokens[i..], pipes))
    {
      var token := tokens[i];
      if token == ">" {
        if i + 1 < |tokens| {
          HeadFile(tokens, i, pipes, current);
          current := current.(redirectStdout := true, redirectFile := tokens[i + 1]);
          i := i + 1;
        } else {
          LoneFile(tokens, i, pipes, current);
        }
      } else {
        ghost var rest := ShellTokens(tokens[i + 1..]);
        var marked, count := MarkerOf(token);
        var isInput, isOutput, number := UserPipeOf(token);
        HeadToken(tokens, i, pipes);
        NextToken(token, rest, current);
        MarkersTieNobody(token);
        if token == "|" {
          BeforeAll(commands, current.(nextType := OrdinaryPipe), ParseFrom(rest, BLANK));
          commands := commands + [current.(nextType := OrdinaryPipe)];
          current := BLANK;
        } else if marked {
          if count == Overflow {
            return Refused;
          }
          MarkerEnds(commands, current, token, rest);
          commands := commands + [current.(nextType := MarkerType(token), nextCount := count.value)];
          current := BLANK;
        } else if isInput || isOutput {
          if number == NoNumber {
            return Refused;
          }
          pipes := Note(token, number.value, pipes);
        } else {
          current := current.(argv := current.argv + [token]);
        }
      }
      i := i + 1;
    }
    assert tokens[i..] == [];
    if current.argv != [] {
      commands := commands + [current];
    }
    assert commands == commands + [];
    return Understood(commands, pipes);
  }

  lemma FileToken(file: string, rest: seq<string>, current: Command)
    ensures ParseFrom([">", file] + rest, current) == ParseFrom(rest, current.(redirectStdout := true, redirectFile := file))
  {
    assert ([">", file] + rest)[2..] == rest;
  }

  // ----- writing requests -----

  // The tokens end in a `>` that still wants its file name.
  predicate AwaitsFile(tokens: seq<string>) {
    tokens != []
    && (if tokens[0] == ">" then |tokens| == 1 || AwaitsFile(tokens[2..]) else AwaitsFile(tokens[1..]))
  }

  function Later(pipes: Option<UserPipes>, tokens: seq<string>): Option<UserPipes> {
    if pipes.None? then None else PipesIn(tokens, pipes.value)
  }

  // Tokens are read one after the other.
  lemma {:induction false} ShellTokensApart(a: seq<string>, b: seq<string>)
    requires !AwaitsFile(a)
    ensures ShellTokens(a + b) == ShellTokens(a) + ShellTokens(b)
    decreases |a|
  {
    hide TiesUser;
    if a == [] {
      assert a + b == b;
    } else if a[0] == ">" {
      assert (a + b)[..2] == a[..2] && (a + b)[2..] == a[2..] + b;
      ShellTokensApart(a[2..], b);
    } else {
      assert (a + b)[1..] == a[1..] + b;
      ShellTokensApart(a[1..], b);
    }
  }

  lemma {:induction false} PipesApart(a: seq<string>, b: seq<string>, pipes: UserPipes)
    requires !AwaitsFile(a)
    ensures PipesIn(a + b, pipes) == Later(PipesIn(a, pipes), b)
    decreases |a|
  {
    if a == [] {
      assert a + b == b;
    } else if a[0] == ">" {
      assert (a + b)[2..] == a[2..] + b;
      PipesApart(a[2..], b, pipes);
    } else {
      assert (a + b)[1..] == a[1..] + b;
      if TiesUser(a[0]) && Stoi(a[0][1..]).Number? {
        var n := Stoi(a[0][1..]).value;
        PipesApart(a[1..], b, Note(a[0], n, pipes));
      } else {
        PipesApart(a[1..], b, pipes);
      }
    }
  }

  lemma {:induction false} AwaitsApart(a: seq<string>, b: seq<string>)
    requires !AwaitsFile(a)
    ensures AwaitsFile(a + b) == AwaitsFile(b)
    decreases |a|
  {
    if a == [] {
      assert a + b == b;
    } else if a[0] == ">" {
      assert (a + b)[2..] == a[2..] + b;
      AwaitsApart(a[2..], b);
    } else {
      assert (a + b)[1..] == a[1..] + b;
      AwaitsApart(a[1..], b);
    }
  }

  // A user pipe may stand anywhere in a line but after `>`: the commands are the same.
  lemma PipesAnywhere(before: seq<string>, token: string, after: seq<string>)
    requires TiesUser(token) && !AwaitsFile(before)
    ensures ShellTokens(before + [token] + after) == ShellTokens(before + after)
  {
    ShellTokensApart(before, [token] + after);
    ShellTokensApart(before, after);
    assert before + [token] + after == before + ([token] + after) && ([token] + after)[1..] == after;
  }

  ghost predicate Untied(tokens: seq<string>) {
    && ShellTokens(tokens) == tokens && !AwaitsFile(tokens)
    && forall pipes :: PipesIn(tokens, pipes) == Some(pipes)
  }

  lemma UntiedBoth(a: seq<string>, b: seq<string>)
    requires Untied(a) && Untied(b)
    ensures Untied(a + b)
  {
    ShellTokensApart(a, b);
    AwaitsApart(a, b);
    forall pipes ensures PipesIn(a + b, pipes) == Some(pipes) {
      PipesApart(a, b, pipes);
    }
  }

  predicate Loose(word: string) {
    word != ">" && !TiesUser(word)
  }

  lemma {:induction false} LooseWords(words: seq<string>)
    requires forall i :: 0 <= i < |words| ==> Loose(words[i])
    ensures Untied(words)
  {
    if words != [] {
      assert Loose(words[0]);
      LooseWords(words[1..]);
      assert words == [words[0]] + words[1..];
    }
  }

  predicate NoTies(c: Command) {
    forall i :: 0 <= i < |c.argv| ==> !TiesUser(c.argv[i])
  }

  lemma PrintedUntied(c: Command)
    requires Printable(c, c.nextType.Nothing?) && NoTies(c)
    ensures Untied(PrintCommand(c))
  {
    forall i | 0 <= i < |c.argv| ensures Loose(c.argv[i]) { assert Plain(c.argv[i]); }
    LooseWords(c.argv);
    MarkerUntied(c);
    FileUntied(c.redirectFile);
    LooseWords([]);
    UntiedBoth(PrintRedirect(c), PrintMarker(c));
    UntiedBoth(c.argv, PrintRedirect(c) + PrintMarker(c));
  }

  lemma MarkerUntied(c: Command)
    ensures Untied(PrintMarker(c))
  {
    LooseWords(PrintMarker(c));
  }

  lemma FileUntied(file: string)
    ensures Untied([">", file])
  {
    assert [">", file][..2] == [">", file] && [">", file][2..] == [];
  }

  lemma {:induction false} AllPrintedUntied(cs: seq<Command>)
    requires AllPrintable(cs) && forall i :: 0 <= i < |cs| ==> NoTies(cs[i])
    ensures Untied(PrintTokens(cs))
  {
    if cs == [] {
      LooseWords([]);
    } else {
      assert Printable(cs[0], |cs| == 1);
      forall i | 0 <= i < |cs| - 1 ensures Printable(cs[1..][i], i == |cs| - 2) { assert Printable(cs[i + 1], i + 1 == |cs| - 1); }
      AllPrintedUntied(cs[1..]);
      assert NoTies(cs[0]);
      PrintedUntied(cs[0]);
      UntiedBoth(PrintCommand(cs[0]), PrintTokens(cs[1..]));
    }
  }

  function PrintTie(marker: char, user: int): seq<string> {
    if user < 0 then [] else [[marker] + Decimal(user)]
  }

  function PrintRequest(cs: seq<Command>, pipes: UserPipes): seq<string> {
    PrintTie('<', pipes.inputFrom) + (PrintTokens(cs) + PrintTie('>', pipes.outputTo))
  }

  predicate Writable(cs: seq<Command>, pipes: UserPipes) {
    && AllPrintable(cs) && (forall i :: 0 <= i < |cs| ==> NoTies(cs[i]))
    && -1 <= pipes.inputFrom <= INT_MAX && -1 <= pipes.outputTo <= INT_MAX
  }

  lemma TieReadsBack(marker: char, user: int, pipes: UserPipes)
    requires (marker == '<' || marker == '>') && -1 <= user <= INT_MAX
    ensures ShellTokens(PrintTie(marker, user)) == [] && !AwaitsFile(PrintTie(marker, user))
    ensures PipesIn(PrintTie(marker, user), pipes) ==
            Some(if user < 0 then pipes else if marker == '<' then pipes.(inputFrom := user) else pipes.(outputTo := user))
  {
    if user >= 0 {
      var token := [marker] + Decimal(user);
      assert token[1..] == Decimal(user);
      StoiOfDecimal(user);
      assert TiesUser(token) && [token][1..] == [];
    }
  }

  // Of several ties of one kind the last one counts, wherever it stands.
  lemma LastTieCounts(before: seq<string>, marker: char, user: nat, after: seq<string>, pipes: UserPipes)
    requires !AwaitsFile(before) && PipesIn(before, NO_PIPES) == Some(pipes) && Untied(after)
    requires (marker == '<' || marker == '>') && user <= INT_MAX
    ensures PipesIn(before + [[marker] + Decimal(user)] + after, NO_PIPES) ==
            Some(if marker == '<' then UserPipes(user, pipes.outputTo) else UserPipes(pipes.inputFrom, user))
  {
    var tie := [[marker] + Decimal(user)];
    TieReadsBack(marker, user, pipes);
    PipesApart(before, tie + after, NO_PIPES);
    PipesApart(tie, after, pipes);
    assert before + tie + after == before + (tie + after);
  }

  lemma PrintedCommands(cs: seq<Command>, pipes: UserPipes)
    requires Writable(cs, pipes)
    ensures ShellTokens(PrintRequest(cs, pipes)) == PrintTokens(cs)
  {
    var from, to, words := PrintTie('<', pipes.inputFrom), PrintTie('>', pipes.outputTo), PrintTokens(cs);
    TieReadsBack('<', pipes.inputFrom, NO_PIPES);
    TieReadsBack('>', pipes.outputTo, NO_PIPES);
    AllPrintedUntied(cs);
    ShellTokensApart(words, to);
    ShellTokensApart(from, words + to);
    assert words + [] == words && [] + words == words;
  }

  lemma PrintedPipes(cs: seq<Command>, pipes: UserPipes)
    requires Writable(cs, pipes)
    ensures PipesIn(PrintRequest(cs, pipes), NO_PIPES) == Some(pipes)
  {
    var from, to, words := PrintTie('<', pipes.inputFrom), PrintTie('>', pipes.outputTo), PrintTokens(cs);
    var taken := NO_PIPES.(inputFrom := pipes.inputFrom);
    TieReadsBack('<', pipes.inputFrom, NO_PIPES);
    TieReadsBack('>', pipes.outputTo, taken);
    AllPrintedUntied(cs);
    PipesApart(words, to, taken);
    PipesApart(from, words + to, NO_PIPES);
  }

  // Reading undoes writing, for every list of commands and every pair of user pipes.
  lemma RequestReadsBack(cs: seq<Command>, pipes: UserPipes)
    requires Writable(cs, pipes)
    ensures RequestOf(PrintRequest(cs, pipes)) == Understood(cs, pipes)
  {
    PrintedCommands(cs, pipes);
    PrintedPipes(cs, pipes);
    ParsePrint(cs);
  }

  lemma {:induction false} PipesInRange(tokens: seq<string>, pipes: UserPipes)
    requires -1 <= pipes.inputFrom <= INT_MAX && -1 <= pipes.outputTo <= INT_MAX && PipesIn(tokens, pipes).Some?
    ensures var p := PipesIn(tokens, pipes).value; -1 <= p.inputFrom <= INT_MAX && -1 <= p.outputTo <= INT_MAX
    decreases |tokens|
  {
    if tokens != [] {
      if tokens[0] == ">" && |tokens| > 1 {
        PipesInRange(tokens[2..], pipes);
      } else if TiesUser(tokens[0]) {
        StoiOfDigits(tokens[0][1..]);
        var n := Stoi(tokens[0][1..]).value;
        PipesInRange(tokens[1..], Note(tokens[0], n, pipes));
      } else {
        PipesInRange(tokens[1..], pipes);
      }
    }
  }

  // No word the shell is given stands for a user pipe.
  lemma {:induction false} WordsTieNobody(tokens: seq<string>, current: Command)
    requires NoTies(current) && ParseFrom(ShellTokens(tokens), current).Parsed?
    ensures var cs := ParseFrom(ShellTokens(tokens), current).commands; forall i :: 0 <= i < |cs| ==> NoTies(cs[i])
    decreases |tokens|
  {
    if tokens != [] {
      var token, rest := tokens[0], ShellTokens(tokens[1..]);
      if token == ">" {
        if |tokens| > 1 {
          FileToken(tokens[1], ShellTokens(tokens[2..]), current);
          assert tokens[..2] == [">", tokens[1]];
          WordsTieNobody(tokens[2..], current.(redirectStdout := true, redirectFile := tokens[1]));
        }
      } else if TiesUser(token) {
        assert ShellTokens(tokens) == rest;
        WordsTieNobody(tokens[1..], current);
      } else {
        NextToken(token, rest, current);
        if token == "|" || IsMarker(token) {
          WordsTieNobody(tokens[1..], BLANK);
        } else {
          WordsTieNobody(tokens[1..], current.(argv := current.argv + [token]));
        }
      }
    }
  }

  // Whatever a line asks for can be written down and is then understood the same.
  lemma RequestUnderstoodAgain(tokens: seq<string>)
    requires RequestOf(tokens).Understood?
    ensures var r := RequestOf(tokens); Writable(r.commands, r.pipes) && RequestOf(PrintRequest(r.commands, r.pipes)) == r
  {
    var r := RequestOf(tokens);
    ParsedIsPrintable(ShellTokens(tokens), BLANK);
    WordsTieNobody(tokens, BLANK);
    PipesInRange(tokens, NO_PIPES);
    RequestReadsBack(r.commands, r.pipes);
  }
}
