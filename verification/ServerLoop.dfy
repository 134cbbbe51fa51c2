/** The single-process server from its clients' bytes: buffers, lines and what they make the server do. */
module ServerLoop {
  import opened Commands
  import opened Decimals
  import opened Kernel
  import opened ShellCore
  import opened ClientLines
  import opened Registry
  import opened SingleServer
  import W = ServerWorld

  class EventLoop {
    const server: Server
    // Whether a file could be opened; see InputOf.
    const opens: (nat, nat) -> bool
    var alive: bool
    // The inputBuffer of every client.
    var buffers: map<int, string>
    var happened: nat
    ghost var acts: seq<Act>
    ghost const made: nat
    // What had been started before.
    ghost const before: seq<SpawnRecord>

    ghost function State(): Talk
      reads this
    {
      Talk(alive, buffers, acts)
    }

    // The server has done what it was asked, started exactly the commands of that, and told its clients what it says.
    ghost predicate InStep()
      reads this`happened, this`acts, server, server.k
    {
      && server.Valid() && happened == |acts|
      && server.g.world == W.After(made, Inputs(acts, opens)) && server.sent == W.Heard(made, Inputs(acts, opens))
      && Starts(before, server.k.spawns, W.Started(made, Inputs(acts, opens)))
    }

    ghost predicate Valid()
      reads this, server, server.k
    {
      InStep() && (alive ==> buffers.Keys == Roster(acts))
    }

    constructor (server: Server, opens: (nat, nat) -> bool)
      requires server.Valid() && server.g.world == W.Birth(server.k.pipesMade) && server.sent == []
      ensures this.server == server && this.opens == opens && made == server.k.pipesMade
      ensures before == server.k.spawns && Valid() && State() == SILENCE
    {
      this.server, this.opens, this.made, this.before := server, opens, server.k.pipesMade, server.k.spawns;
      alive, buffers, happened, acts := true, map[], 0, [];
    }

    // The server does what it is asked.
    method Ask(i: W.Input, ghost act: Act)
      requires InStep() && TidyActs(made, acts + [act], opens) && InputOf(act, |acts|, opens) == Some(i)
      modifies server, server.k
      ensures server.Valid() && server.k.badCloses == old(server.k.badCloses)
      ensures server.g.world == W.After(made, Inputs(acts + [act], opens))
      ensures server.sent == W.Heard(made, Inputs(acts + [act], opens))
      ensures Starts(before, server.k.spawns, W.Started(made, Inputs(acts + [act], opens)))
    {
      hide Starts;
      AskedLast(made, acts, act, opens);
      ghost var spawns, inputs := server.k.spawns, Inputs(acts, opens);
      server.Handle(i);
      StartsInTurn(before, spawns, server.k.spawns, W.Started(made, inputs), W.RunsAt(W.After(made, inputs), i));
    }

    method Note(ghost act: Act)
      requires server.Valid() && happened == |acts|
      requires server.g.world == W.After(made, Inputs(acts + [act], opens))
      requires server.sent == W.Heard(made, Inputs(acts + [act], opens))
      requires Starts(before, server.k.spawns, W.Started(made, Inputs(acts + [act], opens)))
      modifies this`happened, this`acts
      ensures InStep() && acts == old(acts) + [act]
    {
      happened, acts := happened + 1, acts + [act];
    }

    // One thing happens at the server.
    method Carry(act: Act)
      requires InStep() && TidyActs(made, acts + [act], opens)
      modifies this`happened, this`acts, server, server.k
      ensures InStep() && acts == old(acts) + [act] && server.k.badCloses == old(server.k.badCloses)
    {
      var input := InputOf(act, happened, opens);
      if input.Some? {
        Ask(input.value, act);
      } else {
        NothingAsked(acts, act, opens);
      }
      Note(act);
    }

    // The number for a newcomer.
    method NewId() returns (given: Option<int>)
      requires Valid() && alive
      ensures given == LeastUnused(buffers.Keys, 1)
    {
      RosterIsClients(made, acts, opens);
      var id := server.SmallestUnusedId();
      given := if id < 0 then None else Some(id);
    }

    method AcceptClient(ip: string, port: int, peer: nat)
      requires Valid() && alive && TidyActs(made, Hear(OrderOf, State(), Arrive(ip, port, peer)).acts, opens)
      modifies this, server, server.k
      ensures InStep() && State() == Hear(OrderOf, old(State()), Arrive(ip, port, peer))
      ensures server.k.badCloses == old(server.k.badCloses)
    {
      hide Inputs, Work;
      var given := NewId();
      Carry(Came(given, ip, port, peer));
      Settle(given);
    }

    method Settle(given: Option<int>)
      requires InStep()
      modifies this`buffers
      ensures InStep() && State() == Seat(old(State()), given)
    {
      if given.Some? {
        Keep(given.value, "");
      }
    }

    method Keep(id: int, rest: string)
      requires InStep()
      modifies this`buffers
      ensures InStep() && State() == old(State()).(buffers := old(buffers)[id := rest])
    {
      buffers := buffers[id := rest];
    }

    method Forget(id: int)
      requires InStep()
      modifies this`buffers
      ensures InStep() && State() == old(State()).(buffers := old(buffers) - {id})
    {
      buffers := buffers - {id};
    }

    method CleanupClient(id: int)
      requires InStep() && TidyActs(made, acts + [Left(id)], opens)
      modifies this, server, server.k
      ensures InStep() && State() == old(State()).(buffers := old(buffers) - {id}, acts := old(acts) + [Left(id)])
      ensures server.k.badCloses == old(server.k.badCloses)
    {
      Carry(Left(id));
      Forget(id);
    }

    method Abandon()
      requires InStep()
      modifies this`alive, this`buffers
      ensures InStep() && State() == old(State()).(alive := false, buffers := map[])
    {
      alive, buffers := false, map[];
    }

    // One line of a client; running tells whether there is anybody left to read the next.
    method ExecuteLine(id: int, line: string) returns (running: bool)
      requires InStep() && alive && id in buffers && TidyActs(made, LineDone(OrderOf, State(), id, line).acts, opens)
      modifies this, server, server.k
      ensures InStep() && State() == LineDone(OrderOf, old(State()), id, line)
      ensures running <==> alive && id in buffers
      ensures server.k.badCloses == old(server.k.badCloses)
    {
      hide OrderOf;
      var order := ReadOrder(line);
      running := false;
      if order == Leave {
        CleanupClient(id);
      } else if order == Abort {
        Abandon();
      } else {
        Carry(Did(id, order));
        running := true;
      }
    }

    // Take the first complete line off a client's buffer.
    method CutLine(id: int, newline: nat, ghost goal: Talk) returns (line: string)
      requires InStep() && alive && id in buffers && newline == FirstOf(buffers[id], '\n') < |buffers[id]|
      requires AllDone(OrderOf, State(), id) == goal && TidyActs(made, goal.acts, opens)
      modifies this`buffers
      ensures InStep() && id in buffers && |buffers[id]| < |old(buffers[id])|
      ensures var after := LineDone(OrderOf, State(), id, line);
        TidyActs(made, after.acts, opens) && goal == if id in after.buffers then AllDone(OrderOf, after, id) else after
    {
      LineOfMany(OrderOf, made, State(), id, newline, goal, opens);
      line := buffers[id][..newline];
      Keep(id, buffers[id][newline + 1..]);
    }

    method TakeLine(id: int, newline: nat, ghost goal: Talk) returns (running: bool)
      requires InStep() && alive && id in buffers && newline == FirstOf(buffers[id], '\n') < |buffers[id]|
      requires AllDone(OrderOf, State(), id) == goal && TidyActs(made, goal.acts, opens)
      modifies this, server, server.k
      ensures InStep() && server.k.badCloses == old(server.k.badCloses)
      ensures if running then alive && id in buffers && |buffers[id]| < |old(buffers[id])| && AllDone(OrderOf, State(), id) == goal
              else State() == goal
    {
      hide W.After, OrderOf;
      var line := CutLine(id, newline, goal);
      running := ExecuteLine(id, line);
    }

    // The loop over the complete lines of a client's buffer.
    method HandleClientInput(id: int, bytes: string)
      requires InStep() && alive && id in buffers && TidyActs(made, Hear(OrderOf, State(), Read(id, bytes)).acts, opens)
      modifies this, server, server.k
      ensures InStep() && State() == Hear(OrderOf, old(State()), Read(id, bytes))
      ensures server.k.badCloses == old(server.k.badCloses)
    {
      hide OrderOf, Inputs, Work;
      ghost var goal := Hear(OrderOf, State(), Read(id, bytes));
      var text := buffers[id] + bytes;
      StartsReading(OrderOf, State(), id, text);
      Keep(id, text);
      var running := true;
      var newline := FirstOf(buffers[id], '\n');
      while running && newline < |buffers[id]|
        invariant InStep() && server.k.badCloses == old(server.k.badCloses)
        invariant if running then alive && id in buffers && newline == FirstOf(buffers[id], '\n') && AllDone(OrderOf, State(), id) == goal
                  else State() == goal
        decreases running, if running then |buffers[id]| else 0
      {
        running := TakeLine(id, newline, goal);
        if running {
          newline := FirstOf(buffers[id], '\n');
        }
      }
      if running {
        NothingLeft(OrderOf, State(), id);
      }
    }

    // Whatever select reports; nothing once an exception has ended the server.
    method Handle(e: Happening)
      requires Valid() && TidyActs(made, Hear(OrderOf, State(), e).acts, opens)
      modifies this, server, server.k
      ensures Valid() && State() == Hear(OrderOf, old(State()), e) && server.k.badCloses == old(server.k.badCloses)
    {
      HearClients(OrderOf, State(), e);
      if alive {
        match e {
          case Arrive(ip, port, peer) => AcceptClient(ip, port, peer);
          case End(id) => if id in buffers { CleanupClient(id); }
          case Read(id, bytes) => if id in buffers { HandleClientInput(id, bytes); }
        }
      }
    }

    method Run(events: seq<Happening>)
      requires Valid() && State() == SILENCE && TidyActs(made, Heard(OrderOf, events).acts, opens)
      modifies this, server, server.k
      ensures Valid() && State() == Heard(OrderOf, events) && server.k.badCloses == old(server.k.badCloses)
    {
      hide OrderOf;
      var n := 0;
      while n < |events|
        invariant 0 <= n <= |events| && Valid() && State() == Heard(OrderOf, events[..n])
        invariant server.k.badCloses == old(server.k.badCloses)
      {
        HeardSnoc(OrderOf, events, n);
        TidyPrefix(made, Heard(OrderOf, events[..n + 1]).acts, Heard(OrderOf, events).acts, opens);
        Handle(events[n]);
        n := n + 1;
      }
      assert events[..n] == events;
    }
  }

  lemma HeardSnoc(read: Reader, events: seq<Happening>, n: nat)
    requires n < |events|
    ensures Heard(read, events[..n + 1]) == Hear(read, Heard(read, events[..n]), events[n])
    ensures Heard(read, events[..n + 1]).acts <= Heard(read, events).acts
  {
    assert events[..n + 1][..n] == events[..n];
    HeardGrows(read, events, n + 1);
  }

  lemma {:induction false} HeardGrows(read: Reader, events: seq<Happening>, n: nat)
    requires n <= |events|
    ensures Heard(read, events[..n]).acts <= Heard(read, events).acts
  {
    if n < |events| {
      var past := events[..|events| - 1];
      HeardGrows(read, past, n);
      assert past[..n] == events[..n];
      HearGrows(read, Heard(read, past), events[|events| - 1]);
    } else {
      assert events[..n] == events;
    }
  }

  lemma HearGrows(read: Reader, t: Talk, e: Happening)
    ensures t.acts <= Hear(read, t, e).acts
  {
    if e.Read? && e.id in t.buffers {
      var text := t.buffers[e.id] + e.bytes;
      WorkGrows(read, t, e.id, Lines(text), Unfinished(text));
    }
  }

  // After one line of a client, and after all that are complete.
  function LineDone(read: Reader, t: Talk, id: int, line: string): Talk
    requires id in t.buffers
  {
    var order := read(line);
    if order == Leave then t.(buffers := t.buffers - {id}, acts := t.acts + [Left(id)])
    else if order == Abort then t.(alive := false, buffers := map[])
    else t.(acts := t.acts + [Did(id, order)])
  }

  function AllDone(read: Reader, t: Talk, id: int): Talk
    requires id in t.buffers
  {
    Work(read, t, id, Lines(t.buffers[id]), Unfinished(t.buffers[id]))
  }

  lemma StartsReading(read: Reader, t: Talk, id: int, text: string)
    ensures AllDone(read, t.(buffers := t.buffers[id := text]), id) == Work(read, t, id, Lines(text), Unfinished(text))
  {
    WorkForgets(read, t, id, Lines(text), Unfinished(text), text);
  }

  // Working off the first line and then what follows it.
  lemma TakesLine(read: Reader, t: Talk, id: int, i: nat)
    requires t.alive && id in t.buffers && i < |t.buffers[id]| && i == FirstOf(t.buffers[id], '\n')
    ensures var text := t.buffers[id];
      var after := LineDone(read, t.(buffers := t.buffers[id := text[i + 1..]]), id, text[..i]);
      AllDone(read, t, id) == if id in after.buffers then AllDone(read, after, id) else after
  {
    var text := t.buffers[id];
    var line, rest := text[..i], text[i + 1..];
    FirstLine(text, i);
    WorkForgets(read, t, id, [line] + Lines(rest), Unfinished(rest), rest);
    assert ([line] + Lines(rest))[1..] == Lines(rest);
  }

  lemma LineOfMany(read: Reader, made: nat, t: Talk, id: int, i: nat, goal: Talk, opens: (nat, nat) -> bool)
    requires t.alive && id in t.buffers && i < |t.buffers[id]| && i == FirstOf(t.buffers[id], '\n')
    requires AllDone(read, t, id) == goal && TidyActs(made, goal.acts, opens)
    ensures var text := t.buffers[id];
      var after := LineDone(read, t.(buffers := t.buffers[id := text[i + 1..]]), id, text[..i]);
      && TidyActs(made, after.acts, opens)
      && goal == if id in after.buffers then AllDone(read, after, id) else after
  {
    TakesLine(read, t, id, i);
    var text := t.buffers[id];
    var after := LineDone(read, t.(buffers := t.buffers[id := text[i + 1..]]), id, text[..i]);
    if id in after.buffers { WorkGrows(read, after, id, Lines(after.buffers[id]), Unfinished(after.buffers[id])); }
    TidyPrefix(made, after.acts, goal.acts, opens);
  }

  lemma NothingLeft(read: Reader, t: Talk, id: int)
    requires id in t.buffers && FirstOf(t.buffers[id], '\n') == |t.buffers[id]|
    ensures AllDone(read, t, id) == t
  {
    NoLineEnd(t.buffers[id]);
    assert t.buffers[id := t.buffers[id]] == t.buffers;
  }

  lemma NothingAsked(acts: seq<Act>, act: Act, opens: (nat, nat) -> bool)
    requires InputOf(act, |acts|, opens) == None
    ensures Inputs(acts + [act], opens) == Inputs(acts, opens)
  {
    InputsSnoc(acts, act, opens);
  }

  lemma AskedLast(made: nat, acts: seq<Act>, act: Act, opens: (nat, nat) -> bool)
    requires TidyActs(made, acts + [act], opens) && InputOf(act, |acts|, opens).Some?
    ensures var inputs, i := Inputs(acts, opens), InputOf(act, |acts|, opens).value;
      && W.Tidy(W.After(made, inputs), i)
      && W.After(made, Inputs(acts + [act], opens)) == W.Step(W.After(made, inputs), i).0
      && W.Heard(made, Inputs(acts + [act], opens)) == W.Heard(made, inputs) + W.Step(W.After(made, inputs), i).1
      && W.Started(made, Inputs(acts + [act], opens)) == W.Started(made, inputs) + W.RunsAt(W.After(made, inputs), i)
  {
    InputsSnoc(acts, act, opens);
    var inputs, more := Inputs(acts, opens), Inputs(acts + [act], opens);
    assert more[..|inputs|] == inputs && more[|inputs|] == InputOf(act, |acts|, opens).value;
  }

  // The whole server, from bytes to descriptors: if the lines its clients write are tidy, then whatever they write,
  // however it arrives and however it interleaves, the server has done and said what the world without descriptor
  // numbers does for exactly those lines, has started exactly its commands with their routes, in order, has closed
  // nothing twice, and has open exactly what it holds.
  method RunServer(server: Server, opens: (nat, nat) -> bool, events: seq<Happening>) returns (alive: bool)
    requires server.Valid() && server.g.world == W.Birth(server.k.pipesMade) && server.sent == []
    requires TidyActs(server.k.pipesMade, Heard(OrderOf, events).acts, opens)
    modifies server, server.k
    ensures server.Valid() && server.Intact(old(server.k.badCloses)) && alive == Heard(OrderOf, events).alive
    ensures var inputs, made := Inputs(Heard(OrderOf, events).acts, opens), old(server.k.pipesMade);
      && server.g.world == W.After(made, inputs) && server.sent == W.Heard(made, inputs)
      && Starts(old(server.k.spawns), server.k.spawns, W.Started(made, inputs))
  {
    var loop := new EventLoop(server, opens);
    loop.Run(events);
    server.ValidIsIntact();
    return loop.alive;
  }
}
