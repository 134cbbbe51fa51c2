/** The original single-user shell, whose engine the multi-user shells generalise. */
module NpShell {
  import opened Commands
  import opened Routing
  import opened Kernel
  import opened Descriptors
  import opened ShellCore

  // ----- the meaning of a line, without any caller-supplied configuration -----

  // The original routing rules: a file, an ordinary pipe, a numbered pipe, or the shell's own output.
  function PlainDispatch(e: Engine, blank: Outcome, out: Endpoint, err: Endpoint, openOk: bool): Engine {
    var c := blank.command;
    if c.redirectStdout then
      if openOk then Spawn(e, blank, File(c.redirectFile), err, None)
      else e.(input := None, log := e.log + [blank])
    else match c.nextType
      case Nothing => Spawn(e, blank, out, err, None)
      case OrdinaryPipe =>
        Spawn(e.(next := e.next + 1), blank, PipeWrite(e.next), err, Some(PipeRead(e.next)))
      case NumberPipeOut =>
        var (e', p) := Target(e, blank.segment + c.nextCount);
        Spawn(e', blank, PipeWrite(p), err, None)
      case NumberPipeBoth =>
        var (e', p) := Target(e, blank.segment + c.nextCount);
        Spawn(e', blank, PipeWrite(p), PipeWrite(p), None)
  }

  // What the shell knows of its own descriptors: nothing is lent to a line and nothing is forced.
  function PlainConfig(out: Endpoint, err: Endpoint): Config {
    Config(None, out, err, false)
  }

  function PlainStep(e: Engine, cs: seq<Command>, i: nat, base: int, out: Endpoint, err: Endpoint, openOk: bool): Engine
    requires i < |cs|
  {
    var blank := Blank(cs, i, base, PlainConfig(out, err));
    if cs[i].argv == [] then e.(log := e.log + [blank])
    else PlainDispatch(if blank.starts then Attach(e, blank.segment) else e, blank, out, err, openOk)
  }

  function PlainExec(e: Engine, cs: seq<Command>, n: nat, base: int, out: Endpoint, err: Endpoint, openOk: seq<bool>): Engine
    requires n <= |cs| == |openOk|
  {
    if n == 0 then e
    else PlainStep(PlainExec(e, cs, n - 1, base, out, err, openOk), cs, n - 1, base, out, err, openOk[n - 1])
  }

  lemma PlainStepIsStep(e: Engine, cs: seq<Command>, i: nat, base: int, out: Endpoint, err: Endpoint, openOk: bool)
    requires i < |cs|
    ensures PlainStep(e, cs, i, base, out, err, openOk) == Step(e, cs, i, base, PlainConfig(out, err), openOk)
  {
  }

  // With the default configuration the generalised engine does exactly what the original one did: the same
  // routes and launches for every command, the same numbered pipes and the same pipe counter.
  lemma {:induction false} ConservativeExtension(e: Engine, cs: seq<Command>, n: nat, base: int, out: Endpoint, err: Endpoint,
                                                 openOk: seq<bool>)
    requires n <= |cs| == |openOk|
    ensures PlainExec(e, cs, n, base, out, err, openOk) == Exec(e, cs, n, base, PlainConfig(out, err), openOk)
  {
    if n > 0 {
      ConservativeExtension(e, cs, n - 1, base, out, err, openOk);
      SameNext(e, cs, n, base, out, err, openOk, PlainExec(e, cs, n - 1, base, out, err, openOk));
    }
  }

  lemma SameNext(e: Engine, cs: seq<Command>, n: nat, base: int, out: Endpoint, err: Endpoint, openOk: seq<bool>, m: Engine)
    requires 0 < n <= |cs| == |openOk|
    requires m == PlainExec(e, cs, n - 1, base, out, err, openOk)
    requires m == Exec(e, cs, n - 1, base, PlainConfig(out, err), openOk)
    ensures PlainExec(e, cs, n, base, out, err, openOk) == Exec(e, cs, n, base, PlainConfig(out, err), openOk)
  {
    hide Step;
    PlainStepIsStep(m, cs, n - 1, base, out, err, openOk[n - 1]);
  }

  // ----- whole sessions -----

  datatype Turn = Turn(cs: seq<Command>, openOk: seq<bool>)

  predicate IsBuiltinLine(cs: seq<Command>) {
    |cs| == 1 && cs[0].argv != [] && cs[0].argv[0] in {"setenv", "printenv", "exit"}
  }

  predicate IsExit(cs: seq<Command>) {
    IsBuiltinLine(cs) && cs[0].argv[0] == "exit"
  }

  // The first n lines of a script do not end the session.
  predicate GoesOn(script: seq<Turn>, n: nat)
    requires n <= |script|
  {
    n == 0 || (GoesOn(script, n - 1) && !IsExit(script[n - 1].cs))
  }

  function After(s: Shell, turn: Turn, out: Endpoint, err: Endpoint): Shell
    requires |turn.openOk| == |turn.cs|
  {
    if turn.cs == [] then s
    else if IsBuiltinLine(turn.cs) then RunLine(s, Builtin)
    else
      var e := PlainExec(Engine(s.pipes, s.next, None, s.log), turn.cs, |turn.cs|, s.executed, out, err, turn.openOk);
      Shell(e.pipes, s.executed + SegmentsOpened(turn.cs, |turn.cs|), e.next, e.log, Grown(s.owned, s.next, e.next))
  }

  function Play(script: seq<Turn>, first: nat, out: Endpoint, err: Endpoint): Shell
    requires forall i :: 0 <= i < |script| ==> |script[i].openOk| == |script[i].cs|
  {
    if script == [] then FRESH_SHELL.(next := first)
    else After(Play(script[..|script| - 1], first, out, err), script[|script| - 1], out, err)
  }

  lemma PlaySnoc(script: seq<Turn>, n: nat, first: nat, out: Endpoint, err: Endpoint)
    requires n < |script| && forall i :: 0 <= i < |script| ==> |script[i].openOk| == |script[i].cs|
    ensures Play(script[..n + 1], first, out, err) == After(Play(script[..n], first, out, err), script[n], out, err)
  {
    assert script[..n + 1][..n] == script[..n];
  }

  lemma AfterSound(s: Shell, turn: Turn, out: Endpoint, err: Endpoint)
    requires |turn.openOk| == |turn.cs| && (IsBuiltinLine(turn.cs) || WellFormed(turn.cs, false))
    requires SoundShell(s) && !IsPipe(out) && !IsPipe(err)
    ensures SoundShell(After(s, turn, out, err))
  {
    if turn.cs != [] && !IsBuiltinLine(turn.cs) {
      ConservativeExtension(Engine(s.pipes, s.next, None, s.log), turn.cs, |turn.cs|, s.executed, out, err, turn.openOk);
      RunLineSound(s, External(turn.cs, PlainConfig(out, err), turn.openOk, s.next));
    } else {
      BuiltinSound(s);
    }
  }

  // Every session of the original shell whose lines of commands are well formed is routed as promised.
  lemma {:induction false} PlaySound(script: seq<Turn>, first: nat, out: Endpoint, err: Endpoint)
    requires forall i :: 0 <= i < |script| ==> |script[i].openOk| == |script[i].cs|
    requires forall i :: 0 <= i < |script| ==> IsBuiltinLine(script[i].cs) || WellFormed(script[i].cs, false)
    requires !IsPipe(out) && !IsPipe(err)
    ensures SoundShell(Play(script, first, out, err))
  {
    if script != [] {
      PlaySound(script[..|script| - 1], first, out, err);
      AfterSound(Play(script[..|script| - 1], first, out, err), script[|script| - 1], out, err);
    }
  }

  // A command that inherits nothing: exactly its three standard descriptors are open when it starts.
  predicate Isolated(s: SpawnRecord) {
    s.table.Keys == {STDIN, STDOUT, STDERR}
  }

  lemma StandardBound(table: map<int, Endpoint>, np: map<int, PipeFD>)
    requires Holds(table, np) && STDIN in table && STDOUT in table && STDERR in table
    ensures var rest := Rest(table, np, {});
            && STDIN in rest && STDOUT in rest && STDERR in rest
            && rest[STDIN] == table[STDIN] && rest[STDOUT] == table[STDOUT] && rest[STDERR] == table[STDERR]
    ensures Rest(table, np, InTransit(-1)) == Rest(table, np, {})
  {
    forall fd | fd in Fds(np) ensures fd > STDERR { HeldFds(table, np, fd); }
  }

  lemma LaunchedIsolated(before: seq<SpawnRecord>, after: seq<SpawnRecord>, line: seq<Outcome>, inherited: Endpoint, rest: map<int, Endpoint>)
    requires Launched(before, after, line, inherited, rest, []) && rest.Keys == {STDIN, STDOUT, STDERR}
    ensures forall i :: |before| <= i < |after| ==> Isolated(after[i])
  {
    forall i | |before| <= i < |after| ensures Isolated(after[i]) {
      var s := after[i];
      assert Confined(s, rest, []);
      forall fd | fd in s.table.Keys ensures fd in {STDIN, STDOUT, STDERR} {
        if fd > STDERR { assert fd in rest.Keys; }
      }
    }
  }

  // ----- the session object -----

  // The state shared with the later engine, plus the environment of this shell, run line by line.
  class ShellSession {
    const k: Process
    const state: ShellState

    // Apart from its own numbered pipes the shell holds its three standard descriptors and nothing else.
    ghost predicate Valid()
      reads k, state
    {
      && k.Valid() && Holds(k.table, state.numberedPipes)
      && Rest(k.table, state.numberedPipes, {}).Keys == {STDIN, STDOUT, STDERR}
      && state.counter == k.pipesMade
    }

    ghost function Model(): Shell
      reads k, state
      requires Valid()
    {
      state.Model(k.table)
    }

    // What the three standard descriptors stand for never changes.
    ghost function Standard(): (Endpoint, Endpoint, Endpoint)
      reads k, state
      requires Valid()
    {
      StandardBound(k.table, state.numberedPipes);
      (k.table[STDIN], k.table[STDOUT], k.table[STDERR])
    }

    constructor (k: Process)
      requires k.Valid() && k.table.Keys == {STDIN, STDOUT, STDERR}
      ensures this.k == k && fresh(state) && Valid()
      ensures state.numberedPipes == map[] && state.executedSegments == 0 && state.log == [] && state.owned == {}
      ensures state.counter == k.pipesMade
    {
      this.k := k;
      var s := new ShellState();
      s.counter := k.pipesMade;
      this.state := s;
      new;
      assert Fds(s.numberedPipes) == {};
    }

    // Decide where a command writes: a file comes before the next command, that before a later segment, that before the terminal.
    method PrepareIoPlan(command: Command, segment: int, inFd: int, openOk: bool, ghost blank: Outcome, ghost cfg: Config, ghost e: Engine)
      returns (ok: bool, plan: IoPlan, inFd': int)
      requires k.Valid() && Routable(k.table, state.numberedPipes, k.pipesMade, inFd, DEFAULT_CONFIG, cfg, e)
      requires !blank.ran && !blank.forced && blank.command == command && blank.segment == segment
      modifies k`table, k`badCloses, k`pipesMade, state`numberedPipes
      ensures k.Valid()
      ensures Done(old(k.table), old(state.numberedPipes), inFd, k.table, state.numberedPipes, k.pipesMade, plan, inFd', ok,
                   DEFAULT_CONFIG, cfg, e, blank, openOk)
      ensures ok ==> (plan.errFd == STDERR || plan.errFd == plan.outFd)
      ensures k.badCloses == old(k.badCloses)
    {
      inFd' := inFd;
      ok := true;
      if command.redirectStdout {
        ok, plan, inFd' := RouteToFile(k, state, inFd, DEFAULT_CONFIG, openOk, blank, command.redirectFile, cfg, e);
      } else if command.nextType == OrdinaryPipe {
        plan := RouteToOrdinary(k, state, inFd, DEFAULT_CONFIG, openOk, blank, cfg, e);
      } else if !IsNumberPipe(command.nextType) {
        plan := BLANK_PLAN;
        PlainDone(k.table, state.numberedPipes, k.pipesMade, inFd, DEFAULT_CONFIG, cfg, e, blank, openOk);
      } else {
        plan := RouteToSegment(k, state, command, segment + command.nextCount, inFd, DEFAULT_CONFIG, openOk, blank, cfg, e);
      }
    }

    // Close the child's copies of what the plan opened or moved.
    static method CloseOwnIo(child: Process, plan: IoPlan, inFd: int)
      requires inFd == -1 || inFd > STDERR
      requires plan.outFd == STDOUT || plan.outFd > STDERR
      requires plan.errFd == STDERR || plan.errFd == plan.outFd
      modifies child`table, child`badCloses
      ensures child.table == old(child.table) - ChildIo(plan, inFd)
    {
      ghost var table := child.table;
      var _ := CloseFd(child, plan.ordinaryPipe.readFd);
      var _ := CloseFd(child, plan.ordinaryPipe.writeFd);
      MinusUnion(table, InTransit(plan.ordinaryPipe.readFd), InTransit(plan.ordinaryPipe.writeFd));
      var _ := CloseFd(child, plan.redirectFd);
      MinusUnion(table, InTransit(plan.ordinaryPipe.readFd) + InTransit(plan.ordinaryPipe.writeFd), InTransit(plan.redirectFd));
      var _ := CloseFd(child, inFd);
      MinusUnion(table, PlanFds(plan), InTransit(inFd));
      assert child.table == table - (PlanFds(plan) + Above(inFd));
      if plan.outFd >= 0 && plan.outFd != STDOUT {
        var _ := CloseFd(child, plan.outFd);
        MinusUnion(table, PlanFds(plan) + Above(inFd), Above(plan.outFd));
      }
      assert ChildIo(plan, inFd) == PlanFds(plan) + Above(inFd) + Above(plan.outFd);
    }

    method RunChildProcess(child: Process, plan: IoPlan, inFd: int)
      requires child.Valid() && Holds(child.table, state.numberedPipes) && Planned(child.table, state.numberedPipes, plan, inFd)
      requires plan.errFd == STDERR || plan.errFd == plan.outFd
      requires child != k
      modifies child`table, child`badCloses
      ensures child.table == ChildTable(old(child.table), state.numberedPipes, plan, inFd, [])
    {
      BindStandard(child, plan, inFd);
      ghost var table := child.table;
      CloseOwnIo(child, plan, inFd);
      CloseNumberedPipesInChild(child, state.numberedPipes);
      MinusUnion(table, ChildIo(plan, inFd), Fds(state.numberedPipes));
      assert ChildIo(plan, inFd) + Fds(state.numberedPipes) == ChildCloses(state.numberedPipes, plan, inFd, []);
    }

    method ForkCommand(command: Command, plan: IoPlan, inFd: int, waited: bool)
      requires k.Valid() && Holds(k.table, state.numberedPipes) && Planned(k.table, state.numberedPipes, plan, inFd)
      requires plan.errFd == STDERR || plan.errFd == plan.outFd
      modifies k`spawns
      ensures |k.spawns| == |old(k.spawns)| + 1 && k.spawns[..|old(k.spawns)|] == old(k.spawns)
      ensures var s := k.spawns[|old(k.spawns)|];
              && Confined(s, Rest(k.table, state.numberedPipes, InTransit(inFd) + PlanFds(plan)), [])
              && SeenAs(s) == Launch(command.argv, Bound(k.table, inFd).GetOr(k.table[STDIN]),
                                     k.table[plan.outFd], k.table[plan.errFd], waited)
    {
      var child := new Process.Fork(k);
      RunChildProcess(child, plan, inFd);
      k.Exec(child, command.argv, waited);
      ChildConfined(k.table, state.numberedPipes, plan, inFd, [],
                    Rest(k.table, state.numberedPipes, InTransit(inFd) + PlanFds(plan)), command.argv, waited);
    }

    method LaunchPrepared(command: Command, plan: IoPlan, inFd: int, waited: bool,
                          ghost cfg: Config, ghost e': Engine, ghost r: Outcome, ghost rest: map<int, Endpoint>)
      returns (nextInFd: int)
      requires k.Valid() && Holds(k.table, state.numberedPipes) && Planned(k.table, state.numberedPipes, plan, inFd)
      requires plan.errFd == STDERR || plan.errFd == plan.outFd
      requires EngineOf(k.table, state.numberedPipes, k.pipesMade, plan.nextInFd, e'.log) == e'
      requires Rest(k.table, state.numberedPipes, InTransit(inFd) + PlanFds(plan)) == rest && LentFrom(rest, DEFAULT_CONFIG, cfg)
      requires STDIN in rest && k.table[STDIN] == rest[STDIN]
      requires r.ran && r.command == command && r.waited == waited
      requires r.stdin == Bound(k.table, inFd) && r.stdout == k.table[plan.outFd] && r.stderr == k.table[plan.errFd]
      modifies k
      ensures k.Valid()
      ensures Between(k.table, state.numberedPipes, k.pipesMade, nextInFd, DEFAULT_CONFIG, cfg, e', rest)
      ensures Started(old(k.spawns), k.spawns, r, rest[STDIN], rest, [])
      ensures k.badCloses == old(k.badCloses)
    {
      ForkCommand(command, plan, inFd, waited);
      nextInFd := ReleaseParent(k, state.numberedPipes, plan, inFd, e'.log);
    }

    method DispatchCommand(command: Command, segment: int, waited: bool, inFd: int, openOk: bool,
                           ghost blank: Outcome, ghost cfg: Config, ghost e: Engine, ghost rest: map<int, Endpoint>)
      returns (inFd': int)
      requires k.Valid() && Between(k.table, state.numberedPipes, k.pipesMade, inFd, DEFAULT_CONFIG, cfg, e, rest)
      requires !blank.ran && !blank.forced && blank.command == command && blank.segment == segment && blank.waited == waited
      modifies k, state`numberedPipes
      ensures k.Valid()
      ensures Between(k.table, state.numberedPipes, k.pipesMade, inFd', DEFAULT_CONFIG, cfg, Dispatch(e, blank, cfg, openOk), rest)
      ensures Started(old(k.spawns), k.spawns, Dispatch(e, blank, cfg, openOk).log[|e.log|], rest[STDIN], rest, [])
      ensures k.badCloses == old(k.badCloses)
    {
      BetweenRoutable(k.table, state.numberedPipes, k.pipesMade, inFd, DEFAULT_CONFIG, cfg, e, rest);
      ghost var e' := Dispatch(e, blank, cfg, openOk);
      var ok, plan;
      ok, plan, inFd' := PrepareIoPlan(command, segment, inFd, openOk, blank, cfg, e);
      if !ok {
        assert InTransit(inFd') + {} == InTransit(inFd');
        return;
      }
      inFd' := LaunchPrepared(command, plan, inFd', waited, cfg, e', e'.log[|e.log|], rest);
    }

    method RunCommand(cs: seq<Command>, i: nat, plan: LinePlan, waitable: seq<bool>, inFd: int, openOk: bool,
                      ghost base: int, ghost cfg: Config, ghost e: Engine, ghost rest: map<int, Endpoint>)
      returns (inFd': int)
      requires i < |cs| == |plan.commandSegments| == |plan.segmentStarts| == |waitable|
      requires plan.commandSegments[i] == base + SegmentOf(cs, i) && plan.segmentStarts[i] == StartsSegment(cs, i)
      requires waitable[i] == Waits(cs, i)
      requires k.Valid() && Between(k.table, state.numberedPipes, k.pipesMade, inFd, DEFAULT_CONFIG, cfg, e, rest)
      requires cfg.input == None
      modifies k, state`numberedPipes
      ensures k.Valid()
      ensures Between(k.table, state.numberedPipes, k.pipesMade, inFd', DEFAULT_CONFIG, cfg, Step(e, cs, i, base, cfg, openOk), rest)
      ensures k.badCloses == old(k.badCloses)
      ensures Started(old(k.spawns), k.spawns, Step(e, cs, i, base, cfg, openOk).log[|e.log|], rest[STDIN], rest, [])
    {
      inFd' := inFd;
      var command := cs[i];
      if command.argv == [] {
        return;
      }
      var segment := plan.commandSegments[i];
      inFd' := AttachAtStart(k, state, segment, plan.segmentStarts[i], inFd, DEFAULT_CONFIG, cfg, e, rest);
      ghost var e1 := if StartsSegment(cs, i) then Attach(e, segment) else e;
      ghost var blank := Blank(cs, i, base, cfg);
      assert Step(e, cs, i, base, cfg, openOk) == Dispatch(e1, blank, cfg, openOk);
      inFd' := DispatchCommand(command, segment, waitable[i], inFd', openOk, blank, cfg, e1, rest);
    }

    method RunCommands(cs: seq<Command>, plan: LinePlan, waitable: seq<bool>, openOk: seq<bool>,
                       ghost cfg: Config, ghost e0: Engine, ghost rest: map<int, Endpoint>)
      returns (inFd: int, ghost e: Engine)
      requires |openOk| == |cs| == |plan.commandSegments| == |plan.segmentStarts| == |waitable|
      requires forall i :: 0 <= i < |cs| ==> plan.segmentStarts[i] == StartsSegment(cs, i) && waitable[i] == Waits(cs, i)
      requires forall i :: 0 <= i < |cs| ==> plan.commandSegments[i] == state.executedSegments + SegmentOf(cs, i)
      requires k.Valid() && Between(k.table, state.numberedPipes, k.pipesMade, -1, DEFAULT_CONFIG, cfg, e0, rest)
      requires cfg.input == None
      modifies k, state`numberedPipes
      ensures k.Valid()
      ensures e == Exec(e0, cs, |cs|, state.executedSegments, cfg, openOk)
      ensures Between(k.table, state.numberedPipes, k.pipesMade, inFd, DEFAULT_CONFIG, cfg, e, rest)
      ensures k.badCloses == old(k.badCloses)
      ensures |e.log| >= |e0.log| && e.log[..|e0.log|] == e0.log
      ensures Launched(old(k.spawns), k.spawns, e.log[|e0.log|..], rest[STDIN], rest, [])
    {
      hide Rest;
      inFd := -1;
      e := e0;
      ghost var line: seq<Outcome> := [];
      for i := 0 to |cs|
        invariant k.Valid()
        invariant e == Exec(e0, cs, i, state.executedSegments, cfg, openOk) && e.log == e0.log + line
        invariant Between(k.table, state.numberedPipes, k.pipesMade, inFd, DEFAULT_CONFIG, cfg, e, rest)
        invariant k.badCloses == old(k.badCloses)
        invariant Launched(old(k.spawns), k.spawns, line, rest[STDIN], rest, [])
      {
        ghost var middle := k.spawns;
        ghost var e' := Step(e, cs, i, state.executedSegments, cfg, openOk[i]);
        ghost var r := e'.log[|e.log|];
        inFd := RunCommand(cs, i, plan, waitable, inFd, openOk[i], state.executedSegments, cfg, e, rest);
        LaunchedSnoc(old(k.spawns), middle, k.spawns, line, r, rest[STDIN], rest, rest, []);
        StepSnoc(e, cs, i, state.executedSegments, cfg, openOk[i], e0.log, line);
        e := e';
        line := line + [r];
      }
    }

    method ExecuteExternalCommands(cs: seq<Command>, openOk: seq<bool>)
      requires |openOk| == |cs| && cs != [] && !IsBuiltinLine(cs)
      requires Valid()
      modifies k, state
      ensures Valid() && Standard() == old(Standard())
      ensures Model() == After(old(Model()), Turn(cs, openOk), Standard().1, Standard().2)
      ensures k.badCloses == old(k.badCloses)
      ensures |state.log| >= |old(state.log)| && state.log[..|old(state.log)|] == old(state.log)
      ensures Launched(old(k.spawns), k.spawns, state.log[|old(state.log)|..], Standard().0,
                       old(Rest(k.table, state.numberedPipes, {})), [])
    {
      hide Holds, IsBuiltinLine, Exec;
      var plan := BuildLinePlan(cs, state.executedSegments);
      var waitable := BuildWaitability(cs);
      ghost var out, err := Standard().1, Standard().2;
      ghost var e0 := EngineOf(k.table, state.numberedPipes, k.pipesMade, -1, state.log);
      StandardBound(k.table, state.numberedPipes);
      ConservativeExtension(e0, cs, |cs|, state.executedSegments, out, err, openOk);
      ghost var e;
      var inFd;
      inFd, e := RunCommands(cs, plan, waitable, openOk, PlainConfig(out, err), e0, Rest(k.table, state.numberedPipes, {}));
      FinishLine(k, state, inFd, plan.segmentCount, e, Grown(state.owned, e0.next, e.next),
                 old(Rest(k.table, state.numberedPipes, {})));
      StandardBound(k.table, state.numberedPipes);
    }

    // setenv, printenv and exit. All three drop the pipe addressed to them; exit ends the process.
    method TryRunBuiltin(command: Command) returns (handled: bool, exits: bool)
      requires Valid()
      modifies k`table, k`badCloses, state
      ensures Valid() && Standard() == old(Standard())
      ensures handled == IsBuiltinLine([command]) && exits == IsExit([command])
      ensures state.log == old(state.log)
      ensures !handled ==> Model() == old(Model())
      ensures handled && !exits ==> Model() == RunLine(old(Model()), Builtin)
      ensures handled ==> state.numberedPipes == old(state.numberedPipes) - {old(state.executedSegments) + 1}
      ensures !handled ==> state.numberedPipes == old(state.numberedPipes)
      ensures state.executedSegments == old(state.executedSegments) + if handled && !exits then 1 else 0
      ensures k.badCloses == old(k.badCloses)
      ensures state.env == if handled && command.argv[0] == "setenv" && |command.argv| >= 3
                           then old(state.env)[command.argv[1] := command.argv[2]] else old(state.env)
    {
      hide Holds, Fds, Serials, Grown;
      handled, exits := false, false;
      if command.argv == [] || command.argv[0] !in {"setenv", "printenv", "exit"} {
        return;
      }
      StandardBound(k.table, state.numberedPipes);
      DiscardIncomingPipe(k, state, state.executedSegments + 1);
      StandardBound(k.table, state.numberedPipes);
      handled := true;
      if command.argv[0] == "exit" {
        exits := true;
        return;
      }
      if command.argv[0] == "setenv" && |command.argv| >= 3 {
        state.env := state.env[command.argv[1] := command.argv[2]];
      }
      state.executedSegments := state.executedSegments + 1;
    }

    // Since spawn number n0: every launch is one the log asks for, and every command was isolated.
    ghost predicate Recorded(n0: nat)
      reads k, state
      requires Valid()
    {
      && n0 <= |k.spawns| && Seen(k.spawns[n0..]) == Launches(state.log, Standard().0)
      && forall i :: n0 <= i < |k.spawns| ==> Isolated(k.spawns[i])
    }

    // One external line, with the launches of the whole session carried along.
    method RunExternalLine(turn: Turn, ghost n0: nat)
      requires |turn.openOk| == |turn.cs| && turn.cs != [] && !IsBuiltinLine(turn.cs)
      requires Valid() && Recorded(n0)
      modifies k, state
      ensures Valid() && Standard() == old(Standard())
      ensures Model() == After(old(Model()), turn, Standard().1, Standard().2)
      ensures k.badCloses == old(k.badCloses)
      ensures Recorded(n0)
    {
      ghost var spawns0, log0 := k.spawns, state.log;
      ExecuteExternalCommands(turn.cs, turn.openOk);
      LaunchedIsolated(spawns0, k.spawns, state.log[|log0|..], Standard().0, old(Rest(k.table, state.numberedPipes, {})));
      RecordedSnoc(spawns0, k.spawns, n0, log0, state.log, Standard().0);
    }

    // One line of input: a builtin, nothing, or commands.
    method RunTurn(turn: Turn, ghost n0: nat) returns (exits: bool)
      requires |turn.openOk| == |turn.cs|
      requires Valid() && Recorded(n0)
      modifies k, state
      ensures Valid() && Standard() == old(Standard())
      ensures exits == IsExit(turn.cs)
      ensures !exits ==> Model() == After(old(Model()), turn, Standard().1, Standard().2)
      ensures exits ==> state.log == old(state.log)
      ensures k.badCloses == old(k.badCloses)
      ensures Recorded(n0)
    {
      exits := false;
      if |turn.cs| == 1 {
        var handled;
        handled, exits := TryRunBuiltin(turn.cs[0]);
        assert turn.cs == [turn.cs[0]];
        if handled {
          return;
        }
      }
      if turn.cs != [] {
        RunExternalLine(turn, n0);
      }
    }

    // The whole session, until the input ends or a line says exit. Whatever was run: no descriptor was closed twice,
    // every command started with its three standard descriptors and no others, bound to the routes of its line.
    method Run(script: seq<Turn>) returns (ran: nat)
      requires forall i :: 0 <= i < |script| ==> |script[i].openOk| == |script[i].cs|
      requires Valid() && Model() == FRESH_SHELL.(next := k.pipesMade)
      modifies k, state
      ensures ran <= |script| && GoesOn(script, ran) && (ran < |script| ==> IsExit(script[ran].cs))
      ensures Valid() && Standard() == old(Standard())
      ensures ran == |script| ==> Model() == Play(script, old(k.pipesMade), Standard().1, Standard().2)
      ensures state.log == Play(script[..ran], old(k.pipesMade), Standard().1, Standard().2).log
      ensures k.badCloses == old(k.badCloses)
      ensures Recorded(|old(k.spawns)|)
    {
      ran := 0;
      ghost var first, n0, std := k.pipesMade, |k.spawns|, Standard();
      ghost var played := Model();
      while ran < |script|
        invariant ran <= |script| && GoesOn(script, ran)
        invariant Valid() && Standard() == std && Model() == played
        invariant played == Play(script[..ran], first, std.1, std.2)
        invariant k.badCloses == old(k.badCloses)
        invariant Recorded(n0)
      {
        PlaySnoc(script, ran, first, std.1, std.2);
        var exits := RunTurn(script[ran], n0);
        if exits {
          return;
        }
        played := Model();
        ran := ran + 1;
      }
      assert script[..ran] == script;
    }
  }

  lemma RecordedSnoc(spawns0: seq<SpawnRecord>, spawns: seq<SpawnRecord>, n0: nat, log0: seq<Outcome>, log: seq<Outcome>, inherited: Endpoint)
    requires n0 <= |spawns0| <= |spawns| && spawns[..|spawns0|] == spawns0
    requires |log0| <= |log| && log[..|log0|] == log0
    requires Seen(spawns0[n0..]) == Launches(log0, inherited)
    requires Seen(spawns[|spawns0|..]) == Launches(log[|log0|..], inherited)
    requires forall i :: n0 <= i < |spawns0| ==> Isolated(spawns0[i])
    requires forall i :: |spawns0| <= i < |spawns| ==> Isolated(spawns[i])
    ensures Seen(spawns[n0..]) == Launches(log, inherited)
    ensures forall i :: n0 <= i < |spawns| ==> Isolated(spawns[i])
  {
    LaunchesConcat(log0, log[|log0|..], inherited);
    assert log == log0 + log[|log0|..];
    assert spawns[n0..] == spawns0[n0..] + spawns[|spawns0|..];
    SeenConcat(spawns0[n0..], spawns[|spawns0|..]);
    forall i | n0 <= i < |spawns| ensures Isolated(spawns[i]) {
      if i < |spawns0| { assert spawns[i] == spawns[..|spawns0|][i]; }
    }
  }
}
