/** From the bytes of clients to what happens at the server: what their lines do, and pipes between two of them. */
module TypedLines {
  import opened Commands
  import opened Decimals
  import opened Parser
  import opened Printer
  import opened Requests
  import opened Registry
  import opened ClientLines
  import Routing
  import ServerLedger
  import ServerLoop
  import W = ServerWorld

  // ----- lines -----

  // The line has these words, whether or not it ends in a carriage return. raw is what notices repeat of it.
  predicate Typed(line: string, raw: string, words: seq<string>) {
    (line == raw || line == raw + "\r") && (raw == "" || raw[|raw| - 1] != '\r') && Words(raw) == words
  }

  // A line is understood as its words are, with or without a carriage return at its end.
  lemma TypedOrder(line: string, raw: string, words: seq<string>)
    requires Typed(line, raw, words)
    ensures OrderOf(line) == WordsOrder(words, raw)
    ensures OrderOf(raw) == OrderOf(raw + "\r") == OrderOf(line)
  {
    assert (raw + "\r")[..|raw|] == raw;
  }

  // ----- when a line has its turn -----

  function TextOf(events: seq<Happening>, j: nat, id: int): string
    requires j <= |events|
  {
    Stream(OrderOf, events[..j], id)
  }

  // Read j completes line m of what a client has sent since it came.
  predicate Completes(events: seq<Happening>, j: nat, id: int, m: nat) {
    && j < |events| && events[j].Read? && events[j].id == id && id in Heard(OrderOf, events[..j]).buffers
    && |Lines(TextOf(events, j, id))| <= m < |Lines(TextOf(events, j + 1, id))|
  }

  predicate Carries(line: string) {
    OrderOf(line) != Leave && OrderOf(line) != Abort
  }

  // No line of the client up to this one is `exit` or makes the server fall.
  predicate Reaches(events: seq<Happening>, j: nat, id: int, m: nat) {
    && Completes(events, j, id, m)
    && var lines := Lines(TextOf(events, j + 1, id)); forall l :: 0 <= l <= m ==> Carries(lines[l])
  }

  function LineAt(events: seq<Happening>, j: nat, id: int, m: nat): string
    requires Completes(events, j, id, m)
  {
    Lines(TextOf(events, j + 1, id))[m]
  }

  // What has been done once event j is over.
  function ActsThrough(events: seq<Happening>, j: nat): seq<Act>
    requires j < |events|
  {
    Heard(OrderOf, events[..j + 1]).acts
  }

  // How many acts there are before the one of this line.
  function Turn(events: seq<Happening>, j: nat, id: int, m: nat): nat
    requires Completes(events, j, id, m)
  {
    |Heard(OrderOf, events[..j]).acts| + (m - |Lines(TextOf(events, j, id))|)
  }

  lemma {:induction false} WorkDoes(read: Reader, t: Talk, id: int, lines: seq<string>, rest: string, l: nat)
    requires l < |lines| && forall i :: 0 <= i <= l ==> read(lines[i]) != Leave && read(lines[i]) != Abort
    ensures var acts := Work(read, t, id, lines, rest).acts;
      && |t.acts| + l < |acts| && t.acts <= acts && acts[|t.acts| + l] == Did(id, read(lines[l]))
      && forall n :: |t.acts| <= n <= |t.acts| + l ==> acts[n].Did? && acts[n].id == id
    decreases l
  {
    var next := t.(acts := t.acts + [Did(id, read(lines[0]))]);
    if l == 0 {
      WorkGrows(read, next, id, lines[1..], rest);
    } else {
      forall i | 0 <= i <= l - 1 ensures read(lines[1..][i]) != Leave && read(lines[1..][i]) != Abort { assert lines[1..][i] == lines[i + 1]; }
      WorkDoes(read, next, id, lines[1..], rest, l - 1);
    }
  }

  lemma StreamSnoc(read: Reader, events: seq<Happening>, j: nat, id: int)
    requires j < |events| && events[j].Read? && events[j].id == id && id in Heard(read, events[..j]).buffers
    ensures Stream(read, events[..j + 1], id) == Stream(read, events[..j], id) + events[j].bytes
    ensures Heard(read, events[..j + 1]) == Hear(read, Heard(read, events[..j]), events[j])
  {
    assert events[..j + 1][..j] == events[..j];
  }

  // The lines a read completes follow those completed before, and are worked off one by one.
  lemma LinesOfRead(events: seq<Happening>, j: nat, id: int) returns (lines: seq<string>, rest: string)
    requires j < |events| && events[j].Read? && events[j].id == id && id in Heard(OrderOf, events[..j]).buffers
    ensures Lines(TextOf(events, j + 1, id)) == Lines(TextOf(events, j, id)) + lines
    ensures Heard(OrderOf, events[..j]).alive
    ensures Heard(OrderOf, events[..j + 1]) == Work(OrderOf, Heard(OrderOf, events[..j]), id, lines, rest)
  {
    hide OrderOf;
    var t := Heard(OrderOf, events[..j]);
    ServedItsLines(OrderOf, events[..j], id);
    StreamSnoc(OrderOf, events, j, id);
    LinesApart(TextOf(events, j, id), events[j].bytes);
    var text := t.buffers[id] + events[j].bytes;
    lines, rest := Lines(text), Unfinished(text);
  }

  // The act at the turn of a line is the one it asks for; since the read began nobody else was served.
  lemma HasItsTurn(events: seq<Happening>, j: nat, id: int, m: nat)
    requires Reaches(events, j, id, m)
    ensures var before, acts, p := Heard(OrderOf, events[..j]).acts, ActsThrough(events, j), Turn(events, j, id, m);
      && |before| <= p < |acts| && before <= acts && acts[p] == Did(id, OrderOf(LineAt(events, j, id, m)))
      && forall n :: |before| <= n <= p ==> acts[n].Did? && acts[n].id == id
    ensures Heard(OrderOf, events[..j]).alive
  {
    hide OrderOf, Lines, Heard, TextOf, Work;
    var lines, rest := LinesOfRead(events, j, id);
    var earlier := |Lines(TextOf(events, j, id))|;
    forall i | 0 <= i <= m - earlier ensures OrderOf(lines[i]) != Leave && OrderOf(lines[i]) != Abort {
      assert Carries(Lines(TextOf(events, j + 1, id))[earlier + i]);
    }
    WorkDoes(OrderOf, Heard(OrderOf, events[..j]), id, lines, rest, m - earlier);
  }

  // ----- from acts to inputs -----

  lemma InputAt(acts: seq<Act>, p: nat, opens: (nat, nat) -> bool)
    requires p < |acts| && InputOf(acts[p], p, opens).Some?
    ensures var past, full := Inputs(acts[..p], opens), Inputs(acts, opens);
      && |past| < |full| && full[..|past|] == past && full[|past|] == InputOf(acts[p], p, opens).value
      && full[..|past| + 1] == Inputs(acts[..p + 1], opens)
  {
    assert acts[..p + 1] == acts[..p] + [acts[p]];
    InputsSnoc(acts[..p], acts[p], opens);
    InputsPrefix(acts[..p + 1], acts, opens);
  }

  // What the server has come to, and what it has told its clients.
  datatype Moment = Moment(world: W.World, said: seq<Delivery>)

  // Before act p.
  function At(made: nat, acts: seq<Act>, p: nat, opens: (nat, nat) -> bool): Moment
    requires p <= |acts|
  {
    Moment(W.After(made, Inputs(acts[..p], opens)), W.Heard(made, Inputs(acts[..p], opens)))
  }

  function Next(a: Moment, i: W.Input): Moment {
    Moment(W.Step(a.world, i).0, a.said + W.Step(a.world, i).1)
  }

  lemma Moves(made: nat, acts: seq<Act>, p: nat, opens: (nat, nat) -> bool)
    requires p < |acts| && InputOf(acts[p], p, opens).Some?
    ensures At(made, acts, p + 1, opens) == Next(At(made, acts, p, opens), InputOf(acts[p], p, opens).value)
  {
    InputAt(acts, p, opens);
    W.AfterSnoc(made, Inputs(acts, opens), |Inputs(acts[..p], opens)|);
  }

  lemma NothingMoves(made: nat, acts: seq<Act>, r: nat, opens: (nat, nat) -> bool)
    requires r < |acts| && InputOf(acts[r], r, opens).None?
    ensures At(made, acts, r + 1, opens) == At(made, acts, r, opens)
  {
    assert acts[..r + 1] == acts[..r] + [acts[r]];
    InputsSnoc(acts[..r], acts[r], opens);
    assert Inputs(acts[..r], opens) + [] == Inputs(acts[..r], opens);
  }

  // ----- who is there when a line has its turn -----

  lemma {:induction false} HeardClients(read: Reader, events: seq<Happening>)
    ensures var t := Heard(read, events); if t.alive then t.buffers.Keys == Roster(t.acts) else t.buffers == map[]
  {
    if events != [] {
      HeardClients(read, events[..|events| - 1]);
      HearClients(read, Heard(read, events[..|events| - 1]), events[|events| - 1]);
      ServedItsLines(read, events, 0);
    }
  }

  lemma {:induction false} OnlyServed(acts: seq<Act>, from: nat, p: nat)
    requires from <= p <= |acts| && forall n :: from <= n < p ==> acts[n].Did?
    ensures Roster(acts[..p]) == Roster(acts[..from])
  {
    if from < p {
      OnlyServed(acts, from, p - 1);
      assert acts[..p][..p - 1] == acts[..p - 1];
    }
  }

  // Whoever was there before a read is there until the line that has its turn, and is known to the server.
  lemma ThereAtTurn(made: nat, events: seq<Happening>, j: nat, id: int, m: nat, opens: (nat, nat) -> bool)
    requires Reaches(events, j, id, m)
    ensures var acts, p := ActsThrough(events, j), Turn(events, j, id, m);
      && p < |acts| && W.Sane(At(made, acts, p, opens).world)
      && At(made, acts, p, opens).world.registry.clients.Keys == Heard(OrderOf, events[..j]).buffers.Keys
  {
    hide OrderOf, W.Sane;
    HasItsTurn(events, j, id, m);
    var before, acts, p := Heard(OrderOf, events[..j]).acts, ActsThrough(events, j), Turn(events, j, id, m);
    HeardClients(OrderOf, events[..j]);
    OnlyServed(acts, |before|, p);
    assert acts[..|before|] == before;
    RosterIsClients(made, acts[..p], opens);
    W.RunKeeps(made, Inputs(acts[..p], opens));
  }

  // ----- what lines ask for -----

  // Line m of a client, which read j completes, has these words.
  predicate Writes(events: seq<Happening>, j: nat, id: int, m: nat, raw: string, words: seq<string>) {
    Reaches(events, j, id, m) && Typed(LineAt(events, j, id, m), raw, words)
  }

  // The input at the turn of a line.
  lemma AsksFor(made: nat, events: seq<Happening>, j: nat, id: int, m: nat, raw: string, words: seq<string>, opens: (nat, nat) -> bool)
    requires Writes(events, j, id, m, raw, words)
    ensures var acts, p := ActsThrough(events, j), Turn(events, j, id, m);
      && p < |acts| && acts[p] == Did(id, WordsOrder(words, raw))
      && var w := At(made, acts, p, opens).world;
         W.Sane(w) && W.Present(w, id) && w.registry.clients.Keys == Heard(OrderOf, events[..j]).buffers.Keys
  {
    hide OrderOf, WordsOrder;
    HasItsTurn(events, j, id, m);
    TypedOrder(LineAt(events, j, id, m), raw, words);
    ThereAtTurn(made, events, j, id, m, opens);
  }

  // From one moment to the next a client has used up a segment, and nothing else has changed but the registry.
  predicate OnlySegment(w: W.World, w': W.World, id: int) {
    && id in w.shells && w' == w.(registry := w'.registry, shells := w'.shells) && w'.shells.Keys == w.shells.Keys
    && (forall other :: other in w.shells && other != id ==> w'.shells[other] == w.shells[other])
    && w'.shells[id].executed == w.shells[id].executed + 1
    && w'.shells[id] == w.shells[id].(executed := w'.shells[id].executed, pipes := w.shells[id].pipes - {w.shells[id].executed + 1})
  }

  // From a to b just this was said, and a segment of the client used up.
  predicate Tells(a: Moment, b: Moment, id: int, said: seq<Delivery>) {
    OnlySegment(a.world, b.world, id) && b.said == a.said + said
  }

  // The client has the new name and everybody hears it, unless somebody had it already.
  predicate NameDone(a: Moment, b: Moment, id: int, name: string) {
    id in a.world.registry.clients
    && var clients := a.world.registry.clients;
       if exists other :: other in clients && clients[other].name == name
       then b.world.registry == a.world.registry && Tells(a, b, id, [Delivery({id}, NameTaken(name))])
       else && b.world.registry == a.world.registry.(clients := clients[id := clients[id].(name := name)])
            && Tells(a, b, id, [Delivery(clients.Keys, Renamed(clients[id].ip, clients[id].port, name))])
  }

  // The target alone hears the text, or the sender hears that there is no such user.
  predicate TellDone(a: Moment, b: Moment, id: int, target: int, text: string) {
    && id in a.world.registry.clients && b.world.registry == a.world.registry
    && var clients := a.world.registry.clients;
       Tells(a, b, id, if target in clients then [Delivery({target}, Told(clients[id].name, text))] else [Delivery({id}, NoUser(target))])
  }

  // Everybody hears the text, the sender too.
  predicate YellDone(a: Moment, b: Moment, id: int, text: string) {
    && id in a.world.registry.clients && b.world.registry == a.world.registry
    && var clients := a.world.registry.clients; Tells(a, b, id, [Delivery(clients.Keys, Yelled(clients[id].name, text))])
  }

  predicate SegmentDone(a: Moment, b: Moment, id: int) {
    b.world.registry == a.world.registry && Tells(a, b, id, [])
  }

  lemma BuiltinsDone(a: Moment, id: int, name: string, target: int, text: string)
    requires W.Present(a.world, id)
    ensures NameDone(a, Next(a, W.Rename(id, name)), id, name)
    ensures TellDone(a, Next(a, W.TellUser(id, target, text)), id, target, text)
    ensures YellDone(a, Next(a, W.YellAll(id, text)), id, text)
    ensures SegmentDone(a, Next(a, W.Who(id)), id)
  {
  }

  // What the builtins of the server do when they are typed, and an empty line.
  predicate BuiltinTyped(a: Moment, b: Moment, id: int, words: seq<string>) {
    && (words == [] ==> b == a)
    && (|words| >= 2 && words[0] == "name" ==> NameDone(a, b, id, words[1]))
    && (words != [] && words[0] == "yell" ==> YellDone(a, b, id, JoinMessage(words[1..])))
    && (words == ["name"] || (words != [] && words[0] == "who") || (0 < |words| < 3 && words[0] == "tell") ==> SegmentDone(a, b, id))
  }

  predicate TellTyped(a: Moment, b: Moment, id: int, words: seq<string>) {
    forall target :: INT_MIN <= target <= INT_MAX && |words| >= 3 && words[0] == "tell" && words[1] == Numeral(target) ==>
      TellDone(a, b, id, target, JoinMessage(words[2..]))
  }

  // Whatever else is going on, a client that types a builtin of the server has just the effect of that builtin.
  lemma BuiltinTakesEffect(made: nat, events: seq<Happening>, j: nat, id: int, m: nat, raw: string, words: seq<string>,
                           opens: (nat, nat) -> bool)
    requires Writes(events, j, id, m, raw, words)
    ensures var acts, p := ActsThrough(events, j), Turn(events, j, id, m);
      && p < |acts|
      && BuiltinTyped(At(made, acts, p, opens), At(made, acts, p + 1, opens), id, words)
      && TellTyped(At(made, acts, p, opens), At(made, acts, p + 1, opens), id, words)
  {
    hide Turn, Heard, At, NameDone, TellDone, YellDone, SegmentDone, W.Sane, W.Present;
    var acts, p := ActsThrough(events, j), Turn(events, j, id, m);
    AsksFor(made, events, j, id, m, raw, words, opens);
    BuiltinInput(made, acts, p, id, raw, words, opens);
  }

  lemma BuiltinInput(made: nat, acts: seq<Act>, p: nat, id: int, raw: string, words: seq<string>, opens: (nat, nat) -> bool)
    requires p < |acts| && acts[p] == Did(id, WordsOrder(words, raw)) && W.Present(At(made, acts, p, opens).world, id)
    ensures BuiltinTyped(At(made, acts, p, opens), At(made, acts, p + 1, opens), id, words)
    ensures TellTyped(At(made, acts, p, opens), At(made, acts, p + 1, opens), id, words)
  {
    hide NameDone, TellDone, YellDone, SegmentDone, W.Present, Next, CommandOrder, JoinMessage, At;
    var a, b := At(made, acts, p, opens), At(made, acts, p + 1, opens);
    if words == [] {
      NothingMoves(made, acts, p, opens);
    } else if InputOf(acts[p], p, opens).Some? {
      Moves(made, acts, p, opens);
      BuiltinsDone(a, id, if |words| >= 2 then words[1] else "", 0, JoinMessage(words[1..]));
    }
    forall target | INT_MIN <= target <= INT_MAX && |words| >= 3 && words[0] == "tell" && words[1] == Numeral(target)
      ensures TellDone(a, b, id, target, JoinMessage(words[2..]))
    {
      StoiOfNumeral(target);
      BuiltinsDone(a, id, "", target, JoinMessage(words[2..]));
    }
  }

  // ----- coming and going -----

  // The client has just come with this number: it has the default name, a fresh shell and its socket; it is welcomed, and
  // everybody hears that it came.
  predicate ComesAs(a: Moment, b: Moment, id: int, ip: string, port: int, peer: nat) {
    var w, clients := a.world, a.world.registry.clients;
    && id !in clients
    && b.world == w.(registry := w.registry.(clients := clients[id := Registry.Member("(no name)", ip, port)]),
                     sockets := w.sockets[id := Routing.Socket(peer)], shells := w.shells[id := Routing.FRESH_SHELL])
    && b.said == a.said + [Delivery({id}, Welcome), Delivery(clients.Keys + {id}, Notice.Entered(ip, port))]
  }

  // A newcomer gets the least number nobody has; with thirty clients nothing happens.
  ghost predicate Entered(a: Moment, b: Moment, ip: string, port: int, peer: nat) {
    var clients := a.world.registry.clients;
    if forall id :: 1 <= id <= MAX_USERS ==> id in clients then b == a
    else exists id :: 1 <= id <= MAX_USERS && ComesAs(a, b, id, ip, port, peer) && forall less :: 1 <= less < id ==> less in clients
  }

  // Nothing of the client is left, nor any pipe from or to it; the others hear that it went.
  ghost predicate Gone(a: Moment, b: Moment, id: int) {
    var w, w', clients := a.world, b.world, a.world.registry.clients;
    && id in clients
    && w'.registry.clients == clients - {id} && w'.sockets == w.sockets - {id} && w'.shells == w.shells - {id} && w'.made == w.made
    && (forall p :: p in w'.serials <==> p in w.serials && p.0 != id && p.1 != id)
    && (forall p :: p in w'.serials ==> w'.serials[p] == w.serials[p])
    && w'.registry.pipes == w'.serials.Keys
    && b.said == a.said + [Delivery(clients.Keys - {id}, Departed(clients[id].name))]
  }

  lemma ConnectEnters(a: Moment, ip: string, port: int, peer: nat)
    ensures Entered(a, Next(a, W.Connect(ip, port, peer)), ip, port, peer)
  {
    ServerLedger.ConnectStep(a.world, ip, port, peer);
    var free := LeastUnused(a.world.registry.clients.Keys, 1);
    assert a.said + [] == a.said;
    if free.Some? { assert ComesAs(a, Next(a, W.Connect(ip, port, peer)), free.value, ip, port, peer); }
  }

  lemma HangupGoes(a: Moment, id: int)
    requires W.Present(a.world, id) && a.world.serials.Keys == a.world.registry.pipes
    ensures Gone(a, Next(a, W.Hangup(id)), id)
  {
    ServerLedger.HangupStep(a.world, id);
    assert (a.world.registry.clients - {id}).Keys == a.world.registry.clients.Keys - {id};
  }

  // A connection is an arrival, whoever else is there.
  lemma ArrivalTakesEffect(made: nat, events: seq<Happening>, j: nat, opens: (nat, nat) -> bool)
    requires j < |events| && events[j].Arrive? && Heard(OrderOf, events[..j]).alive
    ensures var p, acts := |Heard(OrderOf, events[..j]).acts|, ActsThrough(events, j);
      && |acts| == p + 1 && acts[..p] == Heard(OrderOf, events[..j]).acts
      && Entered(At(made, acts, p, opens), At(made, acts, p + 1, opens), events[j].ip, events[j].port, events[j].peer)
  {
    hide OrderOf, Entered, At, Next;
    assert events[..j + 1][..j] == events[..j];
    var p, acts := |Heard(OrderOf, events[..j]).acts|, ActsThrough(events, j);
    Moves(made, acts, p, opens);
    ConnectEnters(At(made, acts, p, opens), events[j].ip, events[j].port, events[j].peer);
  }

  lemma LeftGoes(made: nat, acts: seq<Act>, p: nat, id: int, opens: (nat, nat) -> bool)
    requires p < |acts| && acts[p] == Left(id) && id in At(made, acts, p, opens).world.registry.clients
    ensures Gone(At(made, acts, p, opens), At(made, acts, p + 1, opens), id)
  {
    hide Gone, Next, W.Apart;
    W.RunKeeps(made, Inputs(acts[..p], opens));
    Moves(made, acts, p, opens);
    HangupGoes(At(made, acts, p, opens), id);
  }

  // The end of a client's input is a departure.
  lemma EndTakesEffect(made: nat, events: seq<Happening>, j: nat, opens: (nat, nat) -> bool)
    requires j < |events| && events[j].End? && events[j].id in Heard(OrderOf, events[..j]).buffers
    ensures var p, acts := |Heard(OrderOf, events[..j]).acts|, ActsThrough(events, j);
      && |acts| == p + 1 && acts[..p] == Heard(OrderOf, events[..j]).acts
      && Gone(At(made, acts, p, opens), At(made, acts, p + 1, opens), events[j].id)
  {
    hide OrderOf, Gone;
    assert events[..j + 1][..j] == events[..j];
    var p, acts := |Heard(OrderOf, events[..j]).acts|, ActsThrough(events, j);
    HeardClients(OrderOf, events[..j]);
    RosterIsClients(made, acts[..p], opens);
    LeftGoes(made, acts, p, events[j].id, opens);
  }

  lemma {:induction false} WorkEnds(read: Reader, t: Talk, id: int, lines: seq<string>, rest: string, l: nat)
    requires l < |lines| && read(lines[l]) == Leave && forall i :: 0 <= i < l ==> read(lines[i]) != Leave && read(lines[i]) != Abort
    ensures var after := Work(read, t, id, lines, rest); var acts := after.acts;
      && id !in after.buffers && |acts| == |t.acts| + l + 1 && t.acts <= acts && acts[|t.acts| + l] == Left(id)
      && forall n :: |t.acts| <= n < |t.acts| + l ==> acts[n].Did?
    decreases l
  {
    if l > 0 {
      forall i | 0 <= i < l - 1 ensures read(lines[1..][i]) != Leave && read(lines[1..][i]) != Abort { assert lines[1..][i] == lines[i + 1]; }
      WorkEnds(read, t.(acts := t.acts + [Did(id, read(lines[0]))]), id, lines[1..], rest, l - 1);
    }
  }

  // Line m is the first that asks to leave, or that makes the server fall.
  predicate Ends(events: seq<Happening>, j: nat, id: int, m: nat) {
    && Completes(events, j, id, m)
    && var lines := Lines(TextOf(events, j + 1, id)); !Carries(lines[m]) && forall l :: 0 <= l < m ==> Carries(lines[l])
  }

  lemma LineEnds(events: seq<Happening>, j: nat, id: int, m: nat)
    requires Ends(events, j, id, m) && OrderOf(LineAt(events, j, id, m)) == Leave
    ensures var t, acts, p := Heard(OrderOf, events[..j]), ActsThrough(events, j), Turn(events, j, id, m);
      && t.alive && |t.acts| <= p && |acts| == p + 1 && t.acts <= acts && acts[p] == Left(id)
      && forall n :: |t.acts| <= n < p ==> acts[n].Did?
    ensures id !in Heard(OrderOf, events[..j + 1]).buffers
  {
    hide OrderOf, Lines, Heard, TextOf, Work;
    var lines, rest := LinesOfRead(events, j, id);
    var earlier := |Lines(TextOf(events, j, id))|;
    forall i | 0 <= i < m - earlier ensures OrderOf(lines[i]) != Leave && OrderOf(lines[i]) != Abort {
      assert Carries(Lines(TextOf(events, j + 1, id))[earlier + i]);
    }
    WorkEnds(OrderOf, Heard(OrderOf, events[..j]), id, lines, rest, m - earlier);
  }

  // `exit` is a departure, and nothing the client has written behind it is read.
  lemma ExitTakesEffect(made: nat, events: seq<Happening>, j: nat, id: int, m: nat, raw: string, words: seq<string>, opens: (nat, nat) -> bool)
    requires Ends(events, j, id, m) && Typed(LineAt(events, j, id, m), raw, words) && words != [] && words[0] == "exit"
    ensures var acts, p := ActsThrough(events, j), Turn(events, j, id, m);
      |acts| == p + 1 && Gone(At(made, acts, p, opens), At(made, acts, p + 1, opens), id)
  {
    hide OrderOf, Gone, Carries, Lines, TextOf;
    TypedOrder(LineAt(events, j, id, m), raw, words);
    LineEnds(events, j, id, m);
    var t, acts, p := Heard(OrderOf, events[..j]), ActsThrough(events, j), Turn(events, j, id, m);
    HeardClients(OrderOf, events[..j]);
    OnlyServed(acts, |t.acts|, p);
    assert acts[..|t.acts|] == t.acts;
    RosterIsClients(made, acts[..p], opens);
    LeftGoes(made, acts, p, id, opens);
  }

  // ----- lines that bring the server down -----

  lemma {:induction false} WorkFalls(read: Reader, t: Talk, id: int, lines: seq<string>, rest: string, l: nat)
    requires l < |lines| && read(lines[l]) == Abort && forall i :: 0 <= i < l ==> read(lines[i]) != Leave && read(lines[i]) != Abort
    ensures var after := Work(read, t, id, lines, rest); !after.alive && after.buffers == map[] && |after.acts| == |t.acts| + l
    decreases l
  {
    if l > 0 {
      forall i | 0 <= i < l - 1 ensures read(lines[1..][i]) != Leave && read(lines[1..][i]) != Abort { assert lines[1..][i] == lines[i + 1]; }
      WorkFalls(read, t.(acts := t.acts + [Did(id, read(lines[0]))]), id, lines[1..], rest, l - 1);
    }
  }

  // `tell` to something that does not begin like a number is an exception nobody catches: no line is served after it.
  lemma TellNobodyFalls(events: seq<Happening>, j: nat, id: int, m: nat, raw: string, words: seq<string>)
    requires Ends(events, j, id, m) && Typed(LineAt(events, j, id, m), raw, words)
    requires |words| >= 3 && words[0] == "tell"
    requires words[1] != "" && !IsDigit(words[1][0]) && !IsSpace(words[1][0]) && words[1][0] != '+' && words[1][0] != '-'
    ensures !Heard(OrderOf, events[..j + 1]).alive && |ActsThrough(events, j)| == Turn(events, j, id, m)
  {
    hide OrderOf, Lines, Heard, TextOf, Work, Words;
    TypedOrder(LineAt(events, j, id, m), raw, words);
    assert Stoi(words[1]) == NoNumber;
    var lines, rest := LinesOfRead(events, j, id);
    var earlier := |Lines(TextOf(events, j, id))|;
    forall i | 0 <= i < m - earlier ensures OrderOf(lines[i]) != Leave && OrderOf(lines[i]) != Abort {
      assert Carries(Lines(TextOf(events, j + 1, id))[earlier + i]);
    }
    WorkFalls(OrderOf, Heard(OrderOf, events[..j]), id, lines, rest, m - earlier);
  }

  // ----- lines of commands -----

  // The input is this line: its commands, whom it receives from and sends to, its text for the notices, and whether each
  // of its files could be opened at its turn.
  predicate Puts(i: W.Input, id: int, cs: seq<Command>, pipes: UserPipes, raw: string, p: nat, opens: (nat, nat) -> bool) {
    && i.Execute? && i.id == id && i.cs == cs && i.from == pipes.inputFrom && i.to == pipes.outputTo && i.line == raw
    && |i.openOk| == |cs| && forall k :: 0 <= k < |cs| ==> i.openOk[k] == opens(p, k)
  }

  // A line of commands a client has written: the read that completes it, which of the lines since the client came it is,
  // its text, its commands and its user pipes.
  datatype Written = Written(read: nat, id: int, number: nat, raw: string, commands: seq<Command>, pipes: UserPipes)

  // However the words of the line are spaced.
  predicate IsWritten(events: seq<Happening>, l: Written) {
    && Writes(events, l.read, l.id, l.number, l.raw, PrintRequest(l.commands, l.pipes))
    && l.commands != [] && Writable(l.commands, l.pipes)
    && NoBuiltin(PrintRequest(l.commands, l.pipes))
  }

  function TurnOf(events: seq<Happening>, l: Written): nat
    requires Completes(events, l.read, l.id, l.number)
  {
    Turn(events, l.read, l.id, l.number)
  }

  // A line of commands asks for just those commands, with the user pipes written in it.
  lemma CommandsTakeTurn(made: nat, events: seq<Happening>, l: Written, opens: (nat, nat) -> bool)
    requires IsWritten(events, l)
    ensures var acts, p := ActsThrough(events, l.read), TurnOf(events, l);
      && p < |acts| && InputOf(acts[p], p, opens).Some?
      && Puts(InputOf(acts[p], p, opens).value, l.id, l.commands, l.pipes, l.raw, p, opens)
      && var w := At(made, acts, p, opens).world;
         W.Sane(w) && W.Present(w, l.id) && w.registry.clients.Keys == Heard(OrderOf, events[..l.read]).buffers.Keys
  {
    hide Heard, Turn, At, Writes, RequestOf, Writable, W.Sane, W.Present;
    AsksFor(made, events, l.read, l.id, l.number, l.raw, PrintRequest(l.commands, l.pipes), opens);
    RequestReadsBack(l.commands, l.pipes);
  }

  // `setenv` or `printenv` alone only uses up a segment: the user pipes written beside it are neither taken nor made.
  lemma EnvironmentTakesTurn(made: nat, events: seq<Happening>, l: Written, opens: (nat, nat) -> bool)
    requires IsWritten(events, l) && |l.commands| == 1 && l.commands[0].argv != [] && l.commands[0].argv[0] in {"setenv", "printenv"}
    ensures var acts, p := ActsThrough(events, l.read), TurnOf(events, l);
      p < |acts| && SegmentDone(At(made, acts, p, opens), At(made, acts, p + 1, opens), l.id)
  {
    hide OrderOf, Lines, Stream, Carries, Typed, Heard, TurnOf, W.Sane, InputOf, Writable, NoBuiltin, PrintRequest, At;
    CommandsTakeTurn(made, events, l, opens);
    var acts, p := ActsThrough(events, l.read), TurnOf(events, l);
    Moves(made, acts, p, opens);
    EnvironmentDone(At(made, acts, p, opens), InputOf(acts[p], p, opens).value);
  }

  lemma EnvironmentDone(a: Moment, i: W.Input)
    requires i.Execute? && W.Present(a.world, i.id) && |i.openOk| == |i.cs| == 1
    requires i.cs[0].argv != [] && i.cs[0].argv[0] in {"setenv", "printenv"}
    ensures SegmentDone(a, Next(a, i), i.id)
  {
    assert a.said + [] == a.said;
  }

  // ----- a pipe between two clients, as they type it -----

  // The client is there all the time from before read j to before read k.
  predicate Stays(events: seq<Happening>, j: nat, k: nat, id: int)
    requires k <= |events|
  {
    forall i :: j <= i <= k ==> id in Heard(OrderOf, events[..i]).buffers
  }

  // A client that is there before and after has not left.
  lemma HearKeeps(read: Reader, t: Talk, e: Happening, id: int)
    requires id in t.buffers && id in Hear(read, t, e).buffers
    ensures var after := Hear(read, t, e); t.acts <= after.acts && forall n :: |t.acts| <= n < |after.acts| ==> after.acts[n] != Left(id)
  {
    if t.alive && e.Read? && e.id in t.buffers {
      var text := t.buffers[e.id] + e.bytes;
      WorkLeaves(read, t, e.id, Lines(text), Unfinished(text), id);
    }
  }

  lemma {:induction false} WorkLeaves(read: Reader, t: Talk, who: int, lines: seq<string>, rest: string, id: int)
    ensures var after := Work(read, t, who, lines, rest);
      && t.acts <= after.acts
      && (id in after.buffers ==> forall n :: |t.acts| <= n < |after.acts| ==> after.acts[n] != Left(id))
    decreases |lines|
  {
    if lines != [] {
      WorkLeaves(read, t.(acts := t.acts + [Did(who, read(lines[0]))]), who, lines[1..], rest, id);
    }
  }

  lemma {:induction false} NeverLeft(events: seq<Happening>, j: nat, k: nat, id: int)
    requires j <= k <= |events| && Stays(events, j, k, id)
    ensures var before, acts := Heard(OrderOf, events[..j]).acts, Heard(OrderOf, events[..k]).acts;
      before <= acts && forall n :: |before| <= n < |acts| ==> acts[n] != Left(id)
  {
    hide OrderOf;
    if j < k {
      NeverLeft(events, j, k - 1, id);
      assert events[..k][..k - 1] == events[..k - 1];
      assert id in Heard(OrderOf, events[..k - 1]).buffers && id in Heard(OrderOf, events[..k]).buffers;
      HearKeeps(OrderOf, Heard(OrderOf, events[..k - 1]), events[k - 1], id);
    }
  }

  // What is done is neither that the reader receives the pipe nor that a client leaves.
  predicate Spares(act: Act, a: int, b: int) {
    && act != Left(a) && act != Left(b)
    && (act.Did? && act.id == b && act.order.Run? ==> act.order.pipes.inputFrom != a)
  }

  lemma SparedInput(act: Act, n: nat, opens: (nat, nat) -> bool, a: int, b: int)
    requires Spares(act, a, b) && InputOf(act, n, opens).Some?
    ensures W.LetsPipeBe(InputOf(act, n, opens).value, a, b)
  {
  }

  lemma ActSpares(made: nat, acts: seq<Act>, r: nat, opens: (nat, nat) -> bool, a: int, b: int)
    requires r < |acts| && Spares(acts[r], a, b) && (a, b) in At(made, acts, r, opens).world.serials
    ensures var w, w' := At(made, acts, r, opens).world, At(made, acts, r + 1, opens).world;
      (a, b) in w'.serials && w'.serials[(a, b)] == w.serials[(a, b)]
  {
    hide W.Sane, W.Apart, W.Step, InputOf, W.LetsPipeBe, Spares;
    if InputOf(acts[r], r, opens).Some? {
      W.RunKeeps(made, Inputs(acts[..r], opens));
      Moves(made, acts, r, opens);
      SparedInput(acts[r], r, opens, a, b);
      W.StaysOpen(At(made, acts, r, opens).world, InputOf(acts[r], r, opens).value, a, b);
    } else {
      NothingMoves(made, acts, r, opens);
    }
  }

  lemma {:induction false} PipeLasts(made: nat, acts: seq<Act>, p: nat, q: nat, opens: (nat, nat) -> bool, a: int, b: int, pipe: nat)
    requires p <= q <= |acts| && forall r :: p <= r < q ==> Spares(acts[r], a, b)
    requires var w := At(made, acts, p, opens).world; (a, b) in w.serials && w.serials[(a, b)] == pipe
    ensures var w := At(made, acts, q, opens).world; (a, b) in w.serials && w.serials[(a, b)] == pipe
  {
    hide At, Spares;
    if p < q {
      PipeLasts(made, acts, p, q - 1, opens, a, b, pipe);
      ActSpares(made, acts, q - 1, opens, a, b);
    }
  }

  lemma HeardPrefix(events: seq<Happening>, j: nat, k: nat)
    requires j <= k <= |events|
    ensures Heard(OrderOf, events[..j]).acts <= Heard(OrderOf, events[..k]).acts
  {
    assert events[..k][..j] == events[..j];
    ServerLoop.HeardGrows(OrderOf, events[..k], j);
  }

  // At the turn of the line there is no pipe from a to b.
  predicate Free(made: nat, events: seq<Happening>, l: Written, opens: (nat, nat) -> bool, a: int, b: int)
    requires Completes(events, l.read, l.id, l.number)
  {
    var acts, p := ActsThrough(events, l.read), TurnOf(events, l);
    p <= |acts| && (a, b) !in At(made, acts, p, opens).world.registry.pipes
  }

  // The second line has its turn after the first, and in between its writer receives nothing from the other's.
  predicate Follows(events: seq<Happening>, s: Written, r: Written)
    requires Completes(events, s.read, s.id, s.number) && Completes(events, r.read, r.id, r.number)
  {
    && (s.read < r.read || (s.read == r.read && s.number < r.number))
    && var acts := ActsThrough(events, r.read);
       forall n :: TurnOf(events, s) < n < TurnOf(events, r) && n < |acts| && acts[n].Did? && acts[n].id == r.id && acts[n].order.Run?
         ==> acts[n].order.pipes.inputFrom != s.id
  }

  lemma InTurn(events: seq<Happening>, s: Written, r: Written)
    requires Reaches(events, s.read, s.id, s.number) && Reaches(events, r.read, r.id, r.number) && Follows(events, s, r)
    requires Stays(events, s.read, r.read, s.id) && Stays(events, s.read, r.read, r.id)
    ensures var acts, p, q := ActsThrough(events, r.read), TurnOf(events, s), TurnOf(events, r);
      && p < q < |acts| && ActsThrough(events, s.read) <= acts && p < |ActsThrough(events, s.read)|
      && forall n :: p < n < q ==> Spares(acts[n], s.id, r.id)
  {
    hide OrderOf, Stays, Lines;
    var j, k := s.read, r.read;
    HasItsTurn(events, j, s.id, s.number);
    HasItsTurn(events, k, r.id, r.number);
    HeardPrefix(events, j + 1, k + 1);
    if j < k {
      HeardPrefix(events, j + 1, k);
      HeardPrefix(events, j, k);
      NeverLeft(events, j, k, s.id);
      NeverLeft(events, j, k, r.id);
      var acts, past := ActsThrough(events, k), Heard(OrderOf, events[..k]).acts;
      forall n | TurnOf(events, s) < n < TurnOf(events, r) ensures Spares(acts[n], s.id, r.id) {
        if n < |past| { assert acts[n] == past[n]; }
      }
    }
  }

  lemma SendsAtTurn(w: W.World, i: W.Input, a: int, b: int)
    requires W.Present(w, a) && b in w.registry.clients && (a, b) !in w.registry.pipes
    requires i.Execute? && W.ValidInput(i) && i.id == a && i.to == b >= 0 && !W.IsShellBuiltin(i.cs)
    ensures W.SendsTo(w, i, a, b)
  {
  }

  lemma ReceivesAtTurn(w: W.World, i: W.Input, a: int, b: int)
    requires W.Sane(w) && W.Present(w, b) && a in w.registry.clients && (a, b) in w.serials
    requires i.Execute? && W.ValidInput(i) && i.id == b && i.from == a >= 0 && !W.IsShellBuiltin(i.cs)
    ensures W.ReceivesFrom(w, i, a, b)
  {
  }

  // The line is what is asked at its turn, by a client that is there; so are all that were there before its read.
  ghost predicate HasTurn(made: nat, events: seq<Happening>, l: Written, acts: seq<Act>, p: nat, opens: (nat, nat) -> bool)
    requires l.read <= |events|
  {
    && p < |acts| && InputOf(acts[p], p, opens).Some?
    && Puts(InputOf(acts[p], p, opens).value, l.id, l.commands, l.pipes, l.raw, p, opens)
    && l.commands != [] && !W.IsShellBuiltin(l.commands)
    && var w := At(made, acts, p, opens).world;
       W.Sane(w) && W.Present(w, l.id) && w.registry.clients.Keys == Heard(OrderOf, events[..l.read]).buffers.Keys
  }

  lemma TakesTurn(made: nat, events: seq<Happening>, l: Written, acts: seq<Act>, opens: (nat, nat) -> bool)
    requires IsWritten(events, l) && !W.IsShellBuiltin(l.commands) && ActsThrough(events, l.read) <= acts
    ensures HasTurn(made, events, l, acts, TurnOf(events, l), opens)
  {
    hide OrderOf, Lines, Stream, Carries, Typed, Heard, TurnOf, W.Sane, W.Present, InputOf, Writable, NoBuiltin, PrintRequest;
    CommandsTakeTurn(made, events, l, opens);
    var p := TurnOf(events, l);
    assert acts[..p] == ActsThrough(events, l.read)[..p];
  }

  lemma SendTaken(made: nat, events: seq<Happening>, s: Written, b: int, acts: seq<Act>, p: nat, opens: (nat, nat) -> bool)
    requires s.read <= |events| && HasTurn(made, events, s, acts, p, opens) && s.pipes.outputTo == b >= 0
    requires b in Heard(OrderOf, events[..s.read]).buffers && (s.id, b) !in At(made, acts, p, opens).world.registry.pipes
    ensures W.SendsTo(At(made, acts, p, opens).world, InputOf(acts[p], p, opens).value, s.id, b)
  {
    hide At, Heard, W.Sane, W.Present, InputOf, W.SendsTo, W.IsShellBuiltin;
    SendsAtTurn(At(made, acts, p, opens).world, InputOf(acts[p], p, opens).value, s.id, b);
  }

  lemma ReceiveTaken(made: nat, events: seq<Happening>, r: Written, a: int, acts: seq<Act>, q: nat, opens: (nat, nat) -> bool)
    requires r.read <= |events| && HasTurn(made, events, r, acts, q, opens) && r.pipes.inputFrom == a >= 0
    requires a in Heard(OrderOf, events[..r.read]).buffers && (a, r.id) in At(made, acts, q, opens).world.serials
    ensures W.ReceivesFrom(At(made, acts, q, opens).world, InputOf(acts[q], q, opens).value, a, r.id)
  {
    hide At, Heard, W.Sane, W.Present, InputOf, W.ReceivesFrom, W.IsShellBuiltin;
    ReceivesAtTurn(At(made, acts, q, opens).world, InputOf(acts[q], q, opens).value, a, r.id);
  }

  lemma FreeAtTurn(made: nat, events: seq<Happening>, s: Written, acts: seq<Act>, opens: (nat, nat) -> bool, a: int, b: int)
    requires Completes(events, s.read, s.id, s.number) && Free(made, events, s, opens, a, b) && ActsThrough(events, s.read) <= acts
    ensures TurnOf(events, s) <= |acts| && (a, b) !in At(made, acts, TurnOf(events, s), opens).world.registry.pipes
  {
    hide OrderOf, TurnOf, Heard;
    assert acts[..TurnOf(events, s)] == ActsThrough(events, s.read)[..TurnOf(events, s)];
  }

  lemma PipeMade(w: W.World, i: W.Input, a: int, b: int) returns (pipe: nat)
    requires W.SendsTo(w, i, a, b)
    ensures (a, b) in W.Step(w, i).0.serials && W.Step(w, i).0.serials[(a, b)] == pipe
    ensures i.cs[|i.cs| - 1].argv != [] ==> W.WroteLast(W.Step(w, i).0, a, pipe, i.cs[|i.cs| - 1])
  {
    W.SendOpens(w, i, a, b);
    pipe := W.Step(w, i).0.serials[(a, b)];
    if i.cs[|i.cs| - 1].argv != [] {
      var written := W.SentThrough(w, i, a, b);
    }
  }

  // A send, then nothing that touches the pipe, then a line that asks for it.
  lemma PipeBetween(made: nat, acts: seq<Act>, p: nat, q: nat, opens: (nat, nat) -> bool, a: int, b: int)
    returns (x: nat, y: nat, pipe: nat)
    requires p < q < |acts| && forall n :: p < n < q ==> Spares(acts[n], a, b)
    requires InputOf(acts[p], p, opens).Some? && W.SendsTo(At(made, acts, p, opens).world, InputOf(acts[p], p, opens).value, a, b)
    requires InputOf(acts[q], q, opens).Some?
    requires var w := At(made, acts, q, opens).world; (a, b) in w.serials ==> W.ReceivesFrom(w, InputOf(acts[q], q, opens).value, a, b)
    ensures var inputs := Inputs(acts, opens);
      && x < y < |inputs| && inputs[x] == InputOf(acts[p], p, opens).value && inputs[y] == InputOf(acts[q], q, opens).value
      && W.SendsTo(W.After(made, inputs[..x]), inputs[x], a, b) && W.ReceivesFrom(W.After(made, inputs[..y]), inputs[y], a, b)
      && inputs[x].cs != [] && inputs[y].cs != []
      && (var c := inputs[x].cs[|inputs[x].cs| - 1]; c.argv != [] ==> W.WroteLast(W.After(made, inputs[..x + 1]), a, pipe, c))
      && W.ReadFirst(W.After(made, inputs[..y]), W.After(made, inputs[..y + 1]), b, pipe, inputs[y].cs[0])
  {
    hide W.WroteLast, W.ReadFirst, W.Step, InputOf, Spares, W.TakeFrom, Inputs, W.After;
    pipe := PipeMade(At(made, acts, p, opens).world, InputOf(acts[p], p, opens).value, a, b);
    Moves(made, acts, p, opens);
    PipeLasts(made, acts, p + 1, q, opens, a, b, pipe);
    Moves(made, acts, q, opens);
    W.ReadFrom(At(made, acts, q, opens).world, InputOf(acts[q], q, opens).value, a, b, pipe);
    InputAt(acts, p, opens);
    InputAt(acts, q, opens);
    InputsPrefix(acts[..p + 1], acts[..q], opens);
    x, y := |Inputs(acts[..p], opens)|, |Inputs(acts[..q], opens)|;
  }

  // The last thing said because of this input, to everybody, is that a has piped it to b.
  ghost predicate PipedHeard(made: nat, inputs: seq<W.Input>, x: nat, a: int, b: int)
    requires x < |inputs| && inputs[x].Execute?
  {
    var clients, heard := W.After(made, inputs[..x]).registry.clients, W.Heard(made, inputs[..x + 1]);
    && a in clients && b in clients && |heard| > |W.Heard(made, inputs[..x])|
    && heard[|heard| - 1] == Delivery(clients.Keys, Piped(clients[a].name, a, inputs[x].line, clients[b].name, b))
  }

  // The first thing said because of this input, to everybody, is that b has received from a.
  ghost predicate ReceivedHeard(made: nat, inputs: seq<W.Input>, y: nat, a: int, b: int)
    requires y < |inputs| && inputs[y].Execute?
  {
    var clients, before, heard := W.After(made, inputs[..y]).registry.clients, W.Heard(made, inputs[..y]), W.Heard(made, inputs[..y + 1]);
    && a in clients && b in clients && |heard| > |before|
    && heard[|before|] == Delivery(clients.Keys, Received(clients[b].name, b, clients[a].name, a, inputs[y].line))
  }

  lemma PipeHeard(made: nat, inputs: seq<W.Input>, x: nat, y: nat, a: int, b: int)
    requires x < |inputs| && W.SendsTo(W.After(made, inputs[..x]), inputs[x], a, b)
    requires y < |inputs| && W.ReceivesFrom(W.After(made, inputs[..y]), inputs[y], a, b)
    ensures PipedHeard(made, inputs, x, a, b) && ReceivedHeard(made, inputs, y, a, b)
  {
    hide W.Step, W.After, W.Heard, W.Started;
    W.SendHeard(W.After(made, inputs[..x]), inputs[x], a, b);
    W.ReceiveHeard(W.After(made, inputs[..y]), inputs[y], a, b);
    W.AfterSnoc(made, inputs, x);
    W.AfterSnoc(made, inputs, y);
  }

  // A client types a line that writes to another, who types a later one that is the next to read from it, and both stay.
  // Then the first line sends to the second's writer, the second receives from the first's, everybody hears of both, and
  // it is one pipe that the last command of the first writes and the first command of the second reads.
  lemma SharedPipe(made: nat, events: seq<Happening>, s: Written, r: Written, opens: (nat, nat) -> bool)
    returns (x: nat, y: nat, pipe: nat)
    requires IsWritten(events, s) && IsWritten(events, r) && Follows(events, s, r)
    requires !W.IsShellBuiltin(s.commands) && !W.IsShellBuiltin(r.commands)
    requires s.pipes.outputTo == r.id >= 0 && r.pipes.inputFrom == s.id >= 0
    requires Stays(events, s.read, r.read, s.id) && Stays(events, s.read, r.read, r.id) && Free(made, events, s, opens, s.id, r.id)
    ensures var inputs := Inputs(ActsThrough(events, r.read), opens);
      && x < y < |inputs|
      && W.SendsTo(W.After(made, inputs[..x]), inputs[x], s.id, r.id)
      && Puts(inputs[x], s.id, s.commands, s.pipes, s.raw, TurnOf(events, s), opens)
      && W.ReceivesFrom(W.After(made, inputs[..y]), inputs[y], s.id, r.id)
      && Puts(inputs[y], r.id, r.commands, r.pipes, r.raw, TurnOf(events, r), opens)
      && PipedHeard(made, inputs, x, s.id, r.id) && ReceivedHeard(made, inputs, y, s.id, r.id)
      && (s.commands[|s.commands| - 1].argv != []
          ==> W.WroteLast(W.After(made, inputs[..x + 1]), s.id, pipe, s.commands[|s.commands| - 1]))
      && W.ReadFirst(W.After(made, inputs[..y]), W.After(made, inputs[..y + 1]), r.id, pipe, r.commands[0])
  {
    hide OrderOf, Lines, Stream, Carries, Typed, Heard, At, InputOf, Writable, NoBuiltin, PrintRequest,
         Free, TurnOf, Spares, W.SendsTo, W.ReceivesFrom, W.WroteLast, W.ReadFirst, W.Sane, W.Present, PipedHeard, ReceivedHeard;
    var a, b, acts, p, q := s.id, r.id, ActsThrough(events, r.read), TurnOf(events, s), TurnOf(events, r);
    InTurn(events, s, r);
    TakesTurn(made, events, s, acts, opens);
    TakesTurn(made, events, r, acts, opens);
    FreeAtTurn(made, events, s, acts, opens, a, b);
    SendTaken(made, events, s, b, acts, p, opens);
    if (a, b) in At(made, acts, q, opens).world.serials {
      ReceiveTaken(made, events, r, a, acts, q, opens);
    }
    x, y, pipe := PipeBetween(made, acts, p, q, opens, a, b);
    PipeHeard(made, Inputs(acts, opens), x, y, a, b);
  }
}
