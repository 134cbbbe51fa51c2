/** From the bytes a client sends to what the single-process server is asked: lines, however the bytes arrive. */
module ClientLines {
  import opened Commands
  import opened Decimals
  import opened Parser
  import opened Printer
  import opened Requests
  import opened Registry
  import W = ServerWorld

  // ----- what a line asks for -----

  // Idle does nothing at all, Segment only uses up a segment, and Abort is an exception nobody catches.
  datatype Order =
    | Idle
    | Leave
    | Abort
    | Segment
    | NameMe(name: string)
    | TellTo(target: int, text: string)
    | YellOut(text: string)
    | Run(cs: seq<Command>, pipes: UserPipes, line: string)

  function JoinMessage(words: seq<string>): string {
    if words == [] then "" else if |words| == 1 then words[0] else words[0] + " " + JoinMessage(words[1..])
  }

  function TellOrder(words: seq<string>): Order
    requires |words| >= 3
  {
    match Stoi(words[1])
    case NoNumber => Abort
    case Number(target) => TellTo(target, JoinMessage(words[2..]))
  }

  function CommandOrder(words: seq<string>, line: string): Order {
    match RequestOf(words)
    case Refused => Abort
    case Understood(cs, pipes) => if cs == [] then Idle else Run(cs, pipes, line)
  }

  function WordsOrder(words: seq<string>, line: string): Order {
    if words == [] then Idle
    else if words[0] == "exit" then Leave
    else if words[0] == "who" then Segment
    else if words[0] == "name" then if |words| >= 2 then NameMe(words[1]) else Segment
    else if words[0] == "tell" then if |words| >= 3 then TellOrder(words) else Segment
    else if words[0] == "yell" then YellOut(JoinMessage(words[1..]))
    else CommandOrder(words, line)
  }

  function WithoutReturn(line: string): string {
    if line != "" && line[|line| - 1] == '\r' then line[..|line| - 1] else line
  }

  function OrderOf(line: string): Order {
    WordsOrder(Words(WithoutReturn(line)), WithoutReturn(line))
  }

  lemma {:induction false} JoinOneMore(words: seq<string>, word: string)
    requires words != []
    ensures JoinMessage(words + [word]) == JoinMessage(words) + " " + word
  {
    var all := words + [word];
    if |words| == 1 {
      assert all[1..] == [word] && JoinMessage([word]) == word;
    } else {
      JoinOneMore(words[1..], word);
      assert all[1..] == words[1..] + [word];
    }
  }

  method JoinWords(tokens: seq<string>, start: nat) returns (message: string)
    ensures message == if start >= |tokens| then "" else JoinMessage(tokens[start..])
  {
    if start >= |tokens| {
      return "";
    }
    message := tokens[start];
    assert tokens[start..start + 1] == [tokens[start]];
    for i := start + 1 to |tokens|
      invariant message == JoinMessage(tokens[start..i])
    {
      JoinOneMore(tokens[start..i], tokens[i]);
      assert tokens[start..i + 1] == tokens[start..i] + [tokens[i]];
      message := message + " " + tokens[i];
    }
    assert tokens[start..|tokens|] == tokens[start..];
  }

  method ReadTell(words: seq<string>) returns (order: Order)
    ensures order == if |words| >= 3 then TellOrder(words) else Segment
  {
    if |words| < 3 {
      return Segment;
    }
    var target := Stoi(words[1]);
    if target == NoNumber {
      return Abort;
    }
    var text := JoinWords(words, 2);
    return TellTo(target.value, text);
  }

  method ReadYell(words: seq<string>) returns (order: Order)
    requires words != []
    ensures order == YellOut(JoinMessage(words[1..]))
  {
    var text := JoinWords(words, 1);
    return YellOut(text);
  }

  method ReadCommands(words: seq<string>, line: string) returns (order: Order)
    ensures order == CommandOrder(words, line)
  {
    var request := ParseCommands(words);
    if request == Refused {
      return Abort;
    }
    return if request.commands == [] then Idle else Run(request.commands, request.pipes, line);
  }

  // From a line to what the server is asked: the carriage return, then `exit`, the builtins, and commands.
  method ReadOrder(line: string) returns (order: Order)
    ensures order == OrderOf(line)
  {
    hide JoinMessage, TellOrder, CommandOrder, Words;
    var trimmed := line;
    if line != "" && line[|line| - 1] == '\r' {
      trimmed := line[..|line| - 1];
    }
    var words := Words(trimmed);
    if words == [] {
      order := Idle;
    } else if words[0] == "exit" {
      order := Leave;
    } else if words[0] == "who" {
      order := Segment;
    } else if words[0] == "name" {
      order := if |words| >= 2 then NameMe(words[1]) else Segment;
    } else if words[0] == "tell" {
      order := ReadTell(words);
    } else if words[0] == "yell" {
      order := ReadYell(words);
    } else {
      order := ReadCommands(words, trimmed);
    }
  }

  // ----- what is asked for can be said -----

  // A numeral std::stoi reads.
  function Numeral(n: int): string {
    if n >= 0 then Decimal(n) else "-" + Decimal(-n)
  }

  lemma StoiOfNumeral(n: int)
    requires INT_MIN <= n <= INT_MAX
    ensures Stoi(Numeral(n)) == Number(n)
  {
    if n >= 0 {
      StoiOfDecimal(n);
    } else {
      var digits := Decimal(-n);
      assert Numeral(n)[1..] == digits && SkipSpaces(Numeral(n)) == Numeral(n);
      LeadingAll(digits);
      ValueOfDecimal(-n);
    }
  }

  // The words of a line that says an order.
  function Said(order: Order): seq<string> {
    match order
    case Idle => []
    case Leave => ["exit"]
    case Abort => ["tell", "nobody", "anything"]
    case Segment => ["who"]
    case NameMe(name) => ["name", name]
    case TellTo(target, text) => ["tell", Numeral(target)] + Words(text)
    case YellOut(text) => ["yell"] + Words(text)
    case Run(cs, pipes, _) => PrintRequest(cs, pipes)
  }

  // Single words between single spaces.
  predicate Plainly(text: string) {
    JoinMessage(Words(text)) == text
  }

  predicate NoBuiltin(words: seq<string>) {
    words != [] && words[0] != "exit" && words[0] != "who" && words[0] != "name" && words[0] != "tell" && words[0] != "yell"
  }

  predicate Sayable(order: Order) {
    match order
    case NameMe(name) => Word(name)
    case TellTo(target, text) => INT_MIN <= target <= INT_MAX && text != "" && Plainly(text)
    case YellOut(text) => Plainly(text)
    case Run(cs, pipes, line) =>
      && cs != [] && Writable(cs, pipes) && (forall i :: 0 <= i < |cs| ==> Wordy(cs[i]))
      && NoBuiltin(PrintRequest(cs, pipes)) && line == Spaced(PrintRequest(cs, pipes))
    case _ => true
  }

  lemma {:induction false} WordsAreWords(line: string)
    ensures forall n :: 0 <= n < |Words(line)| ==> Word(Words(line)[n])
    decreases |line|
  {
    if line != "" {
      if IsSpace(line[0]) {
        WordsAreWords(line[1..]);
      } else {
        var w := FirstWord(line);
        assert w != "";
        FirstWordIsWord(line);
        WordsAreWords(line[|w|..]);
      }
    }
  }

  lemma {:induction false} FirstWordIsWord(line: string)
    ensures forall i :: 0 <= i < |FirstWord(line)| ==> !IsSpace(FirstWord(line)[i])
  {
    if line != "" && !IsSpace(line[0]) { FirstWordIsWord(line[1..]); }
  }

  lemma TieWord(marker: char, user: int)
    requires !IsSpace(marker)
    ensures forall i :: 0 <= i < |PrintTie(marker, user)| ==> Word(PrintTie(marker, user)[i])
  {
    if user >= 0 {
      var digits := Decimal(user);
      assert forall i :: 0 <= i < |digits| ==> IsDigit(digits[i]);
    }
  }

  lemma NumeralWord(n: int)
    ensures Word(Numeral(n))
  {
    var digits := Decimal(if n >= 0 then n else -n);
    assert forall i :: 0 <= i < |digits| ==> IsDigit(digits[i]);
  }

  lemma SaidInWords(order: Order)
    requires Sayable(order)
    ensures forall i :: 0 <= i < |Said(order)| ==> Word(Said(order)[i])
  {
    match order
    case TellTo(target, text) =>
      WordsAreWords(text);
      NumeralWord(target);
    case YellOut(text) => WordsAreWords(text);
    case Run(cs, pipes, _) =>
      PrintedWords(cs);
      TieWord('<', pipes.inputFrom);
      TieWord('>', pipes.outputTo);
    case _ =>
  }

  lemma SpacedEnds(words: seq<string>)
    ensures WithoutReturn(Spaced(words)) == Spaced(words)
  {
    SpacedLast(words);
  }

  lemma {:induction false} SpacedLast(words: seq<string>)
    ensures Spaced(words) == "" || Spaced(words)[|Spaced(words)| - 1] == ' '
  {
    if words != [] { SpacedLast(words[1..]); }
  }

  // Every order a client can have carried out can be written on a line, and the line is then understood as that order.
  lemma OrderReadsBack(order: Order)
    requires Sayable(order)
    ensures OrderOf(Spaced(Said(order))) == order
  {
    var words := Said(order);
    SaidInWords(order);
    WordsOfSpaced(words);
    SpacedEnds(words);
    SaidMeans(order);
  }

  lemma SaidMeans(order: Order)
    requires Sayable(order)
    ensures WordsOrder(Said(order), Spaced(Said(order))) == order
  {
    var words := Said(order);
    match order
    case TellTo(target, text) =>
      StoiOfNumeral(target);
      assert words[2..] == Words(text);
    case YellOut(text) => assert words[1..] == Words(text);
    case Run(cs, pipes, _) => RequestReadsBack(cs, pipes);
    case Abort => assert SkipSpaces("nobody") == "nobody" && LeadingDigits("nobody") == "";
    case _ =>
  }

  // ----- lines of a stream -----

  // What is left of a text after its last line end, and the lines before.
  function Unfinished(text: string): string {
    if text == "" || text[|text| - 1] == '\n' then "" else Unfinished(text[..|text| - 1]) + [text[|text| - 1]]
  }

  function Lines(text: string): seq<string> {
    if text == "" then []
    else if text[|text| - 1] == '\n' then Lines(text[..|text| - 1]) + [Unfinished(text[..|text| - 1])]
    else Lines(text[..|text| - 1])
  }

  lemma OneMoreChar(s: string, c: char)
    ensures Lines(s + [c]) == if c == '\n' then Lines(s) + [Unfinished(s)] else Lines(s)
    ensures Unfinished(s + [c]) == if c == '\n' then "" else Unfinished(s) + [c]
  {
    assert (s + [c])[..|s|] == s;
  }

  lemma Regroup<T>(a: seq<T>, b: seq<T>, last: T)
    ensures a + b + [last] == a + (b + [last])
  {
  }

  lemma OneMoreBoth(x: string, before: seq<string>, y: string, c: char)
    requires Lines(x) == before + Lines(y) && Unfinished(x) == Unfinished(y)
    ensures Lines(x + [c]) == before + Lines(y + [c]) && Unfinished(x + [c]) == Unfinished(y + [c])
  {
    OneMoreChar(x, c);
    OneMoreChar(y, c);
    Regroup(before, Lines(y), Unfinished(y));
  }

  // More text completes the unfinished line and adds its own.
  lemma {:induction false} LinesApart(a: string, b: string)
    ensures Lines(a + b) == Lines(a) + Lines(Unfinished(a) + b)
    ensures Unfinished(a + b) == Unfinished(Unfinished(a) + b)
  {
    var u := Unfinished(a);
    if b == "" {
      assert a + b == a && u + b == u;
      UnfinishedIsNoLine(a);
    } else {
      var past, c := b[..|b| - 1], b[|b| - 1];
      LinesApart(a, past);
      OneMoreBoth(a + past, Lines(a), u + past, c);
      assert b == past + [c];
      assert a + b == a + past + [c] && u + b == u + past + [c];
    }
  }

  lemma {:induction false} UnfinishedIsNoLine(a: string)
    ensures Lines(Unfinished(a)) == [] && Unfinished(Unfinished(a)) == Unfinished(a)
  {
    if a != "" && a[|a| - 1] != '\n' {
      UnfinishedIsNoLine(a[..|a| - 1]);
      assert Unfinished(a)[..|Unfinished(a)| - 1] == Unfinished(a[..|a| - 1]);
    }
  }

  lemma {:induction false} NoLineEnd(text: string)
    requires '\n' !in text
    ensures Lines(text) == [] && Unfinished(text) == text
  {
    if text != "" { NoLineEnd(text[..|text| - 1]); }
  }

  lemma OneLine(line: string)
    requires '\n' !in line
    ensures Lines(line + ['\n']) == [line] && Unfinished(line + ['\n']) == ""
  {
    NoLineEnd(line);
    assert (line + ['\n'])[..|line|] == line;
    assert Lines(line) + [Unfinished(line)] == [line];
  }

  lemma LineAndMore(line: string, more: string)
    requires '\n' !in line
    ensures Lines(line + ['\n'] + more) == [line] + Lines(more) && Unfinished(line + ['\n'] + more) == Unfinished(more)
  {
    OneLine(line);
    LinesApart(line + ['\n'], more);
    assert "" + more == more;
  }

  // Up to the first line end is the first line.
  lemma FirstLine(text: string, i: nat)
    requires i < |text| && text[i] == '\n' && '\n' !in text[..i]
    ensures Lines(text) == [text[..i]] + Lines(text[i + 1..]) && Unfinished(text) == Unfinished(text[i + 1..])
  {
    var line, more := text[..i], text[i + 1..];
    assert text == line + ['\n'] + more;
    LineAndMore(line, more);
  }

  // How lines are understood.
  type Reader = string -> Order

  // ----- what happens at the server -----

  // A connection, the end of a client's input, or a read of some of its bytes.
  datatype Happening = Arrive(ip: string, port: int, peer: nat) | End(id: int) | Read(id: int, bytes: string)

  // What the server does about it. A newcomer beyond the thirtieth gets no id.
  datatype Act = Came(given: Option<int>, ip: string, port: int, peer: nat) | Left(id: int) | Did(id: int, order: Order)

  // alive ends with an exception; buffers are the unfinished lines of the clients that are there.
  datatype Talk = Talk(alive: bool, buffers: map<int, string>, acts: seq<Act>)

  const SILENCE := Talk(true, map[], [])

  // A client's lines are worked off one by one, until it leaves.
  function Work(read: Reader, t: Talk, id: int, lines: seq<string>, rest: string): Talk
    decreases |lines|
  {
    if lines == [] then t.(buffers := t.buffers[id := rest])
    else
      var order := read(lines[0]);
      if order == Leave then t.(buffers := t.buffers - {id}, acts := t.acts + [Left(id)])
      else if order == Abort then t.(alive := false, buffers := map[])
      else Work(read, t.(acts := t.acts + [Did(id, order)]), id, lines[1..], rest)
  }

  // A newcomer with an id begins with an empty buffer.
  function Seat(t: Talk, given: Option<int>): Talk {
    match given
    case None => t
    case Some(id) => t.(buffers := t.buffers[id := ""])
  }

  function Hear(read: Reader, t: Talk, e: Happening): Talk {
    if !t.alive then t
    else
      match e
      case Arrive(ip, port, peer) =>
        var given := LeastUnused(t.buffers.Keys, 1);
        Seat(t.(acts := t.acts + [Came(given, ip, port, peer)]), given)
      case End(id) => if id in t.buffers then t.(buffers := t.buffers - {id}, acts := t.acts + [Left(id)]) else t
      case Read(id, bytes) =>
        if id in t.buffers then
          var text := t.buffers[id] + bytes;
          Work(read, t, id, Lines(text), Unfinished(text))
        else t
  }

  function Heard(read: Reader, events: seq<Happening>): Talk {
    if events == [] then SILENCE else Hear(read, Heard(read, events[..|events| - 1]), events[|events| - 1])
  }

  // ----- how the bytes arrive does not matter -----

  lemma {:induction false} WorkForgets(read: Reader, t: Talk, id: int, lines: seq<string>, rest: string, x: string)
    ensures Work(read, t.(buffers := t.buffers[id := x]), id, lines, rest) == Work(read, t, id, lines, rest)
    decreases |lines|
  {
    var t' := t.(buffers := t.buffers[id := x]);
    if lines == [] {
      assert t'.buffers[id := rest] == t.buffers[id := rest];
    } else {
      assert t'.buffers - {id} == t.buffers - {id};
      WorkForgets(read, t.(acts := t.acts + [Did(id, read(lines[0]))]), id, lines[1..], rest, x);
    }
  }

  lemma {:induction false} WorkApart(read: Reader, t: Talk, id: int, a: seq<string>, aRest: string, b: seq<string>, bRest: string)
    ensures var after := Work(read, t, id, a, aRest);
      && Work(read, t, id, a + b, bRest) == (if id in after.buffers then Work(read, after, id, b, bRest) else after)
      && (id in after.buffers ==> after.buffers[id] == aRest && after.alive == t.alive)
    decreases |a|
  {
    if a == [] {
      assert a + b == b;
      WorkForgets(read, t, id, b, bRest, aRest);
    } else {
      assert (a + b)[1..] == a[1..] + b;
      WorkApart(read, t.(acts := t.acts + [Did(id, read(a[0]))]), id, a[1..], aRest, b, bRest);
    }
  }

  // A client's bytes read in two pieces have the effect of the same bytes read at once.
  lemma ReadTwice(read: Reader, t: Talk, id: int, a: string, b: string)
    ensures Hear(read, Hear(read, t, Read(id, a)), Read(id, b)) == Hear(read, t, Read(id, a + b))
  {
    if t.alive && id in t.buffers {
      var text := t.buffers[id] + a;
      var more := Unfinished(text) + b;
      LinesApart(text, b);
      assert text + b == t.buffers[id] + (a + b);
      WorkApart(read, t, id, Lines(text), Unfinished(text), Lines(more), Unfinished(more));
    }
  }

  // ----- what a client asks is what its lines say -----

  function Meanings(read: Reader, lines: seq<string>): seq<Order> {
    if lines == [] then [] else [read(lines[0])] + Meanings(read, lines[1..])
  }

  // What is carried out before the client leaves or the server falls.
  function Until(orders: seq<Order>): (u: seq<Order>)
    ensures u <= orders
  {
    if orders == [] || orders[0] == Leave || orders[0] == Abort then [] else [orders[0]] + Until(orders[1..])
  }

  function ServedMore(before: seq<Order>, act: Act, id: int): seq<Order> {
    match act
    case Came(given, _, _, _) => if given == Some(id) then [] else before
    case Left(_) => before
    case Did(who, order) => if who == id then before + [order] else before
  }

  // What a client has been served since it last came.
  function Served(acts: seq<Act>, id: int): seq<Order> {
    if acts == [] then [] else ServedMore(Served(acts[..|acts| - 1], id), acts[|acts| - 1], id)
  }

  // What has been read from a client since it last came.
  function Stream(read: Reader, events: seq<Happening>, id: int): string {
    if events == [] then ""
    else
      var past := events[..|events| - 1];
      match events[|events| - 1]
      case Arrive(_, _, _) =>
        if Heard(read, past).alive && LeastUnused(Heard(read, past).buffers.Keys, 1) == Some(id) then "" else Stream(read, past, id)
      case End(_) => Stream(read, past, id)
      case Read(who, bytes) => if who == id && id in Heard(read, past).buffers then Stream(read, past, id) + bytes else Stream(read, past, id)
  }

  lemma {:induction false} MeaningsApart(read: Reader, a: seq<string>, b: seq<string>)
    ensures Meanings(read, a + b) == Meanings(read, a) + Meanings(read, b)
  {
    if a == [] {
      assert a + b == b;
    } else {
      assert (a + b)[1..] == a[1..] + b;
      MeaningsApart(read, a[1..], b);
    }
  }

  lemma {:induction false} UntilApart(a: seq<Order>, b: seq<Order>)
    requires Until(a) == a
    ensures Until(a + b) == a + Until(b)
  {
    if a == [] {
      assert a + b == b;
    } else {
      assert (a + b)[1..] == a[1..] + b;
      UntilApart(a[1..], b);
    }
  }

  lemma ServedSnoc(acts: seq<Act>, act: Act, id: int)
    ensures Served(acts + [act], id) == ServedMore(Served(acts, id), act, id)
  {
    assert (acts + [act])[..|acts|] == acts;
  }

  lemma PutBefore<T>(a: seq<T>, first: T, b: seq<T>)
    ensures a + [first] + b == a + ([first] + b)
  {
  }

  // Working off a client's lines serves what they say until it leaves, and nobody else.
  lemma {:induction false} WorkServes(read: Reader, t: Talk, id: int, lines: seq<string>, rest: string, other: int)
    ensures Served(Work(read, t, id, lines, rest).acts, other) ==
            Served(t.acts, other) + (if other == id then Until(Meanings(read, lines)) else [])
    decreases |lines|
  {
    hide Served;
    if lines != [] {
      var order := read(lines[0]);
      if order == Leave {
        ServedSnoc(t.acts, Left(id), other);
      } else if order != Abort {
        ServedSnoc(t.acts, Did(id, order), other);
        WorkServes(read, t.(acts := t.acts + [Did(id, order)]), id, lines[1..], rest, other);
        var before, after := Served(t.acts, other), Until(Meanings(read, lines[1..]));
        PutBefore(before, order, after);
      }
    }
  }

  // Who is still there has had all its lines worked off; the others keep their unfinished lines.
  lemma {:induction false} WorkKeeps(read: Reader, t: Talk, id: int, lines: seq<string>, rest: string)
    ensures var after := Work(read, t, id, lines, rest);
      && (id in after.buffers ==> Until(Meanings(read, lines)) == Meanings(read, lines) && after.buffers[id] == rest)
      && (after.buffers == map[] || after.buffers - {id} == t.buffers - {id})
      && (t.alive && !after.alive ==> after.buffers == map[])
    decreases |lines|
  {
    if lines != [] {
      var order := read(lines[0]);
      if order != Leave && order != Abort {
        WorkKeeps(read, t.(acts := t.acts + [Did(id, order)]), id, lines[1..], rest);
      }
    }
  }

  // A client has been served what its text says, and what is kept of it is the line it has not finished.
  ghost predicate Faithful(read: Reader, t: Talk, text: string, id: int) {
    && Served(t.acts, id) == Until(Meanings(read, Lines(text)))
    && (id in t.buffers ==> Served(t.acts, id) == Meanings(read, Lines(text)) && t.buffers[id] == Unfinished(text))
    && (!t.alive ==> t.buffers == map[])
  }

  lemma ReadServes(read: Reader, t: Talk, text: string, id: int, who: int, bytes: string)
    requires Faithful(read, t, text, id) && t.alive && who in t.buffers
    ensures Faithful(read, Hear(read, t, Read(who, bytes)), if who == id then text + bytes else text, id)
  {
    var now := t.buffers[who] + bytes;
    var after := Hear(read, t, Read(who, bytes));
    WorkServes(read, t, who, Lines(now), Unfinished(now), id);
    WorkKeeps(read, t, who, Lines(now), Unfinished(now));
    assert who != id && id in after.buffers ==> id in after.buffers - {who} && after.buffers[id] == (t.buffers - {who})[id];
    if who == id {
      LinesApart(text, bytes);
      MeaningsApart(read, Lines(text), Lines(now));
      UntilApart(Meanings(read, Lines(text)), Meanings(read, Lines(now)));
    }
  }

  lemma ArrivalServes(read: Reader, t: Talk, text: string, id: int, e: Happening)
    requires Faithful(read, t, text, id) && t.alive && e.Arrive?
    ensures Faithful(read, Hear(read, t, e), if LeastUnused(t.buffers.Keys, 1) == Some(id) then "" else text, id)
  {
    ServedSnoc(t.acts, Came(LeastUnused(t.buffers.Keys, 1), e.ip, e.port, e.peer), id);
    assert Lines("") == [] && Unfinished("") == "";
  }

  lemma EndServes(read: Reader, t: Talk, text: string, id: int, who: int)
    requires Faithful(read, t, text, id) && t.alive
    ensures Faithful(read, Hear(read, t, End(who)), text, id)
  {
    ServedSnoc(t.acts, Left(who), id);
  }

  // Whoever is served gets what the lines of its own bytes say, each once and in order, however the bytes arrived and
  // whatever the others did meanwhile; what is kept of a client is the line it has not finished.
  lemma {:induction false} ServedItsLines(read: Reader, events: seq<Happening>, id: int)
    ensures Faithful(read, Heard(read, events), Stream(read, events, id), id)
  {
    if events == [] {
      assert Lines("") == [];
    } else {
      var past, e := events[..|events| - 1], events[|events| - 1];
      ServedItsLines(read, past, id);
      var t, text := Heard(read, past), Stream(read, past, id);
      if t.alive {
        match e
        case Arrive(_, _, _) => ArrivalServes(read, t, text, id, e);
        case End(who) => EndServes(read, t, text, id, who);
        case Read(who, bytes) => if who in t.buffers { ReadServes(read, t, text, id, who, bytes); }
      }
    }
  }

  // ----- what the server is asked -----

  // opens says whether the file of a command could be opened, command k of the n-th thing that happened.
  function RequestFor(id: int, order: Order, n: nat, opens: (nat, nat) -> bool): Option<W.Input> {
    match order
    case Segment => Some(W.Who(id))
    case NameMe(name) => Some(W.Rename(id, name))
    case TellTo(target, text) => Some(W.TellUser(id, target, text))
    case YellOut(text) => Some(W.YellAll(id, text))
    case Run(cs, pipes, line) =>
      Some(W.Execute(id, cs, pipes.inputFrom, pipes.outputTo, line, seq(|cs|, k requires 0 <= k < |cs| => opens(n, k))))
    case _ => None
  }

  function InputOf(act: Act, n: nat, opens: (nat, nat) -> bool): Option<W.Input> {
    match act
    case Came(_, ip, port, peer) => Some(W.Connect(ip, port, peer))
    case Left(id) => Some(W.Hangup(id))
    case Did(id, order) => RequestFor(id, order, n, opens)
  }

  function Asked(input: Option<W.Input>): seq<W.Input> {
    match input
    case None => []
    case Some(i) => [i]
  }

  function Inputs(acts: seq<Act>, opens: (nat, nat) -> bool): seq<W.Input> {
    if acts == [] then []
    else Inputs(acts[..|acts| - 1], opens) + Asked(InputOf(acts[|acts| - 1], |acts| - 1, opens))
  }

  lemma InputsSnoc(acts: seq<Act>, act: Act, opens: (nat, nat) -> bool)
    ensures Inputs(acts + [act], opens) == Inputs(acts, opens) + Asked(InputOf(act, |acts|, opens))
  {
    assert (acts + [act])[..|acts|] == acts;
  }

  // Every line the server is asked to run is tidy when its turn comes.
  ghost predicate TidyActs(made: nat, acts: seq<Act>, opens: (nat, nat) -> bool) {
    forall n :: 0 <= n < |Inputs(acts, opens)| ==> W.Tidy(W.After(made, Inputs(acts, opens)[..n]), Inputs(acts, opens)[n])
  }

  lemma {:induction false} InputsPrefix(a: seq<Act>, b: seq<Act>, opens: (nat, nat) -> bool)
    requires a <= b
    ensures Inputs(a, opens) <= Inputs(b, opens)
  {
    if |a| < |b| {
      InputsPrefix(a, b[..|b| - 1], opens);
    } else {
      assert a == b;
    }
  }

  lemma TidyPrefix(made: nat, a: seq<Act>, b: seq<Act>, opens: (nat, nat) -> bool)
    requires a <= b && TidyActs(made, b, opens)
    ensures TidyActs(made, a, opens)
  {
    InputsPrefix(a, b, opens);
    var x, y := Inputs(a, opens), Inputs(b, opens);
    forall n | 0 <= n < |x| ensures W.Tidy(W.After(made, x[..n]), x[n]) {
      assert x[..n] == y[..n] && x[n] == y[n];
    }
  }

  lemma {:induction false} WorkGrows(read: Reader, t: Talk, id: int, lines: seq<string>, rest: string)
    ensures t.acts <= Work(read, t, id, lines, rest).acts
    decreases |lines|
  {
    if lines != [] { WorkGrows(read, t.(acts := t.acts + [Did(id, read(lines[0]))]), id, lines[1..], rest); }
  }

  // ----- who is there -----

  function Joining(clients: set<int>): set<int> {
    match LeastUnused(clients, 1)
    case None => clients
    case Some(id) => clients + {id}
  }

  function Roster(acts: seq<Act>): set<int> {
    if acts == [] then {}
    else
      var before := Roster(acts[..|acts| - 1]);
      match acts[|acts| - 1]
      case Came(_, _, _, _) => Joining(before)
      case Left(id) => before - {id}
      case Did(_, _) => before
  }

  lemma {:induction false} WorkClients(read: Reader, t: Talk, id: int, lines: seq<string>, rest: string)
    requires t.alive && id in t.buffers && t.buffers.Keys == Roster(t.acts)
    ensures var after := Work(read, t, id, lines, rest); after.alive ==> after.buffers.Keys == Roster(after.acts)
    decreases |lines|
  {
    if lines != [] {
      var order := read(lines[0]);
      assert (t.acts + [Left(id)])[..|t.acts|] == t.acts;
      assert (t.acts + [Did(id, order)])[..|t.acts|] == t.acts;
      if order != Leave && order != Abort {
        WorkClients(read, t.(acts := t.acts + [Did(id, order)]), id, lines[1..], rest);
      }
    }
  }

  lemma HearClients(read: Reader, t: Talk, e: Happening)
    requires t.alive ==> t.buffers.Keys == Roster(t.acts)
    ensures var after := Hear(read, t, e); after.alive ==> after.buffers.Keys == Roster(after.acts)
  {
    if t.alive {
      match e
      case Arrive(ip, port, peer) =>
        assert (t.acts + [Came(LeastUnused(t.buffers.Keys, 1), ip, port, peer)])[..|t.acts|] == t.acts;
      case End(id) =>
        assert (t.acts + [Left(id)])[..|t.acts|] == t.acts;
      case Read(id, bytes) =>
        if id in t.buffers {
          var text := t.buffers[id] + bytes;
          WorkClients(read, t, id, Lines(text), Unfinished(text));
        }
    }
  }

  function InputClients(clients: set<int>, i: W.Input): set<int> {
    if i.Connect? then Joining(clients) else if i.Hangup? then clients - {i.id} else clients
  }

  lemma TieClients(w: W.World, i: W.Input)
    requires i.Execute? && W.ValidInput(i) && W.Present(w, i.id)
    ensures W.Tie(w, i.id, i).0.registry.clients == w.registry.clients
  {
  }

  lemma StepClients(w: W.World, i: W.Input)
    requires W.Sane(w)
    ensures W.Step(w, i).0.registry.clients.Keys == InputClients(w.registry.clients.Keys, i)
  {
    hide W.Tie;
    if i.Execute? && W.ValidInput(i) && W.Present(w, i.id) { TieClients(w, i); }
  }

  lemma AfterInput(made: nat, inputs: seq<W.Input>, i: W.Input)
    ensures W.After(made, inputs + [i]).registry.clients.Keys == InputClients(W.After(made, inputs).registry.clients.Keys, i)
  {
    W.RunKeeps(made, inputs);
    StepClients(W.After(made, inputs), i);
    assert (inputs + [i])[..|inputs|] == inputs;
  }

  // What is asked of the server because of an act changes its clients as the act does.
  lemma ActClients(clients: set<int>, act: Act, n: nat, opens: (nat, nat) -> bool)
    ensures var input := InputOf(act, n, opens);
      if input.None? then act.Did?
      else InputClients(clients, input.value) == if act.Came? then Joining(clients) else if act.Left? then clients - {act.id} else clients
  {
  }

  // The clients of the registry are those that came and have not left.
  lemma {:induction false} RosterIsClients(made: nat, acts: seq<Act>, opens: (nat, nat) -> bool)
    ensures W.After(made, Inputs(acts, opens)).registry.clients.Keys == Roster(acts)
  {
    if acts != [] {
      var past, act := acts[..|acts| - 1], acts[|acts| - 1];
      RosterIsClients(made, past, opens);
      ActClients(Roster(past), act, |past|, opens);
      var asked := InputOf(act, |past|, opens);
      if asked.Some? {
        AfterInput(made, Inputs(past, opens), asked.value);
      } else {
        assert Inputs(past, opens) + [] == Inputs(past, opens);
      }
    }
  }
}
