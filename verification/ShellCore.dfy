/** The execution engine of the multi-user shells: numbered pipes, redirects, caller-supplied descriptors. */
module ShellCore {
  import opened Commands
  import opened Routing
  import opened Kernel
  import opened Descriptors

  datatype ExecutionConfig = ExecutionConfig(
    inputFd: int, outputFd: int, errorFd: int, forceLastOutput: bool, closeInChild: seq<int>)

  const DEFAULT_CONFIG := ExecutionConfig(-1, STDOUT, STDERR, false, [])

  datatype IoPlan = IoPlan(outFd: int, errFd: int, nextInFd: int, redirectFd: int, ordinaryPipe: PipeFD)

  const BLANK_PLAN := IoPlan(STDOUT, STDERR, -1, -1, NO_PIPE)

  class ShellState {
    var numberedPipes: map<int, PipeFD>
    var executedSegments: int
    var env: map<string, string>
    // Everything this shell was asked to run, the pipes it made, and the pipe counter when it last stopped.
    ghost var log: seq<Outcome>
    ghost var owned: set<nat>
    ghost var counter: nat

    constructor ()
      ensures numberedPipes == map[] && executedSegments == 0 && env == map["PATH" := "bin:."]
      ensures log == [] && owned == {} && counter == 0
    {
      numberedPipes := map[];
      executedSegments := 0;
      env := map["PATH" := "bin:."];
      log, owned, counter := [], {}, 0;
    }

    // A shell taken up where it was left.
    constructor Resume(numberedPipes: map<int, PipeFD>, executedSegments: int, env: map<string, string>, ghost s: Shell)
      ensures this.numberedPipes == numberedPipes && this.executedSegments == executedSegments && this.env == env
      ensures log == s.log && owned == s.owned && counter == s.next
    {
      this.numberedPipes, this.executedSegments, this.env := numberedPipes, executedSegments, env;
      log, owned, counter := s.log, s.owned, s.next;
    }

    // The shell without descriptor numbers.
    ghost function Model(table: map<int, Endpoint>): Shell
      reads this
      requires Holds(table, numberedPipes)
    {
      Shell(Serials(table, numberedPipes), executedSegments, counter, log, owned)
    }
  }

  // What the caller lends to a line: descriptors that are open and not numbered pipes of this shell, and
  // an input, if any, that is not shared with the outputs.
  ghost predicate Lends(table: map<int, Endpoint>, np: map<int, PipeFD>, config: ExecutionConfig) {
    && Loose(table, np, config.inputFd)
    && config.outputFd in table && config.outputFd !in Fds(np) && config.outputFd != config.inputFd
    && config.errorFd in table && config.errorFd !in Fds(np) && config.errorFd != config.inputFd
    && (config.outputFd == STDOUT || config.outputFd > STDERR)
    && (config.errorFd == STDERR || config.errorFd > STDERR)
  }

  ghost function Meaning(table: map<int, Endpoint>, config: ExecutionConfig): Config
    requires config.outputFd in table && config.errorFd in table
  {
    Config(Bound(table, config.inputFd), table[config.outputFd], table[config.errorFd], config.forceLastOutput)
  }

  ghost function EngineOf(table: map<int, Endpoint>, np: map<int, PipeFD>, made: nat, inFd: int, log: seq<Outcome>): Engine
    requires Holds(table, np)
  {
    Engine(Serials(table, np), made, Bound(table, inFd), log)
  }

  method DiscardIncomingPipe(k: Process, st: ShellState, targetSegment: int)
    requires k.Valid() && Holds(k.table, st.numberedPipes)
    modifies k`table, k`badCloses, st`numberedPipes
    ensures k.Valid() && Holds(k.table, st.numberedPipes)
    ensures st.numberedPipes == old(st.numberedPipes) - {targetSegment}
    ensures Serials(k.table, st.numberedPipes) == old(Serials(k.table, st.numberedPipes)) - {targetSegment}
    ensures Rest(k.table, st.numberedPipes, {}) == old(Rest(k.table, st.numberedPipes, {}))
    ensures k.badCloses == old(k.badCloses)
  {
    if targetSegment !in st.numberedPipes {
      return;
    }
    var incoming := st.numberedPipes[targetSegment];
    Drop(k.table, st.numberedPipes, targetSegment);
    ghost var table0, np0 := k.table, st.numberedPipes;
    ClosePipe(k, incoming);
    st.numberedPipes := st.numberedPipes - {targetSegment};
    assert k.table == table0 - {incoming.readFd, incoming.writeFd} && st.numberedPipes == np0 - {targetSegment};
  }

  // Every builtin uses up a segment and drops the pipe addressed to it.
  method AdvanceBuiltinSegment(k: Process, st: ShellState)
    requires k.Valid() && Holds(k.table, st.numberedPipes)
    modifies k`table, k`badCloses, st`numberedPipes, st`executedSegments
    ensures k.Valid() && Holds(k.table, st.numberedPipes)
    ensures st.Model(k.table) == RunLine(old(st.Model(k.table)), Builtin)
    ensures st.executedSegments == old(st.executedSegments) + 1
    ensures st.numberedPipes == old(st.numberedPipes) - {old(st.executedSegments) + 1}
    ensures Rest(k.table, st.numberedPipes, {}) == old(Rest(k.table, st.numberedPipes, {}))
    ensures k.badCloses == old(k.badCloses)
  {
    DiscardIncomingPipe(k, st, st.executedSegments + 1);
    st.executedSegments := st.executedSegments + 1;
  }

  // The two environment builtins. Either one uses up a segment and drops the pipe addressed to it.
  method ExecuteShellBuiltin(k: Process, st: ShellState, command: Command) returns (handled: bool, printed: Option<string>)
    requires k.Valid() && Holds(k.table, st.numberedPipes)
    modifies k`table, k`badCloses, st
    ensures k.Valid() && Holds(k.table, st.numberedPipes)
    ensures Rest(k.table, st.numberedPipes, {}) == old(Rest(k.table, st.numberedPipes, {}))
    ensures k.badCloses == old(k.badCloses)
    ensures handled <==> command.argv != [] && command.argv[0] in {"setenv", "printenv"}
    ensures handled ==> st.Model(k.table) == RunLine(old(st.Model(k.table)), Builtin)
    ensures handled ==> st.executedSegments == old(st.executedSegments) + 1
    ensures handled ==> st.numberedPipes == old(st.numberedPipes) - {old(st.executedSegments) + 1}
    ensures !handled ==> st.executedSegments == old(st.executedSegments)
    ensures !handled ==> st.numberedPipes == old(st.numberedPipes) && st.Model(k.table) == old(st.Model(k.table))
    ensures st.env == if handled && command.argv[0] == "setenv" && |command.argv| >= 3
                      then old(st.env)[command.argv[1] := command.argv[2]] else old(st.env)
    ensures printed == if handled && command.argv[0] == "printenv" && |command.argv| >= 2 && command.argv[1] in st.env
                       then Some(st.env[command.argv[1]] + "\n") else None
  {
    var name := if command.argv == [] then "" else command.argv[0];
    printed := None;
    if name == "setenv" {
      if |command.argv| >= 3 {
        st.env := st.env[command.argv[1] := command.argv[2]];
      }
      AdvanceBuiltinSegment(k, st);
      return true, None;
    }
    if name == "printenv" {
      if |command.argv| >= 2 && command.argv[1] in st.env {
        printed := Some(st.env[command.argv[1]] + "\n");
      }
      AdvanceBuiltinSegment(k, st);
      return true, printed;
    }
    return false, None;
  }

  // The table once the pipe of a segment is attached: gone is what the code closes.
  lemma Attached(table: map<int, Endpoint>, np: map<int, PipeFD>, made: nat, inFd: int, segment: int, log: seq<Outcome>,
                 gone: set<int>, inFd': int)
    requires Holds(table, np) && Loose(table, np, inFd) && -1 !in table && segment in np
    requires gone == {np[segment].writeFd} + if inFd < 0 then {} else {np[segment].readFd}
    requires inFd' == if inFd < 0 then np[segment].readFd else inFd
    ensures var table', np' := table - gone, np - {segment};
            && Holds(table', np') && Loose(table', np', inFd')
            && EngineOf(table', np', made, inFd', log) == Attach(EngineOf(table, np, made, inFd, log), segment)
            && Rest(table', np', InTransit(inFd')) == Rest(table, np, InTransit(inFd))
    ensures inFd != np[segment].readFd
  {
    DropEnds(table, np, segment, gone, InTransit(inFd), {inFd'});
    assert np[segment].readFd in Fds(np) && np[segment].writeFd in Fds(np);
    var table' := table - gone;
    assert inFd' in table' && table'[inFd'] == table[inFd'];
  }

  method AttachIncomingNumberedPipe(k: Process, st: ShellState, segment: int, inFd: int, ghost log: seq<Outcome>) returns (inFd': int)
    requires k.Valid() && Holds(k.table, st.numberedPipes) && Loose(k.table, st.numberedPipes, inFd)
    modifies k`table, k`badCloses, st`numberedPipes
    ensures k.Valid() && Holds(k.table, st.numberedPipes) && Loose(k.table, st.numberedPipes, inFd')
    ensures EngineOf(k.table, st.numberedPipes, k.pipesMade, inFd', log) ==
            Attach(old(EngineOf(k.table, st.numberedPipes, k.pipesMade, inFd, log)), segment)
    ensures Rest(k.table, st.numberedPipes, InTransit(inFd')) == old(Rest(k.table, st.numberedPipes, InTransit(inFd)))
    ensures k.badCloses == old(k.badCloses)
  {
    inFd' := inFd;
    if segment !in st.numberedPipes {
      return;
    }
    var incoming := st.numberedPipes[segment];
    ghost var table0, np0 := k.table, st.numberedPipes;
    ghost var gone := {incoming.writeFd} + if inFd < 0 then {} else {incoming.readFd};
    Attached(table0, np0, k.pipesMade, inFd, segment, log, gone, if inFd < 0 then incoming.readFd else inFd);
    if inFd < 0 {
      inFd' := incoming.readFd;
    } else if inFd != incoming.readFd {
      var _ := CloseFd(k, incoming.readFd);
    }
    var _ := CloseFd(k, incoming.writeFd);
    st.numberedPipes := st.numberedPipes - {segment};
    assert k.table == table0 - gone;
  }

  // ----- routing one command -----

  function PlanFds(plan: IoPlan): set<int> {
    InTransit(plan.ordinaryPipe.readFd) + InTransit(plan.ordinaryPipe.writeFd) + InTransit(plan.redirectFd)
  }

  // The two outputs the caller lent are still open, and stand for the endpoints they stood for.
  ghost predicate Lent(table: map<int, Endpoint>, np: map<int, PipeFD>, config: ExecutionConfig, cfg: Config) {
    && config.outputFd in table && config.outputFd !in Fds(np) && table[config.outputFd] == cfg.output
    && config.errorFd in table && config.errorFd !in Fds(np) && table[config.errorFd] == cfg.error
    && (config.outputFd == STDOUT || config.outputFd > STDERR)
    && (config.errorFd == STDERR || config.errorFd > STDERR)
  }

  // A finished plan: its descriptors are open, above the standard ones, and not numbered pipes unless they are the output.
  ghost predicate Planned(table: map<int, Endpoint>, np: map<int, PipeFD>, plan: IoPlan, inFd: int) {
    && plan.outFd in table && (plan.outFd == STDOUT || plan.outFd > STDERR)
    && plan.errFd in table && (plan.errFd == STDERR || plan.errFd > STDERR)
    && plan.nextInFd == plan.ordinaryPipe.readFd
    && Loose(table, np, inFd) && Loose(table, np, plan.redirectFd)
    && Loose(table, np, plan.ordinaryPipe.readFd) && Loose(table, np, plan.ordinaryPipe.writeFd)
    && (plan.ordinaryPipe.readFd < 0 <==> plan.ordinaryPipe.writeFd < 0)
    && (plan.ordinaryPipe.readFd < 0 || plan.redirectFd < 0)
    && (plan.ordinaryPipe.readFd >= 0 ==> plan.ordinaryPipe.readFd != plan.ordinaryPipe.writeFd)
    && (inFd >= 0 ==> inFd !in PlanFds(plan))
  }

  // A lent input replaces the one a command would have had.
  method OverrideInput(k: Process, st: ShellState, inFd: int, inputFd: int, ghost log: seq<Outcome>) returns (inFd': int)
    requires k.Valid() && Holds(k.table, st.numberedPipes)
    requires Loose(k.table, st.numberedPipes, inFd) && Loose(k.table, st.numberedPipes, inputFd)
    requires inputFd >= 0 && inFd != inputFd
    modifies k`table, k`badCloses
    ensures k.Valid() && Holds(k.table, st.numberedPipes) && inFd' == inputFd && Loose(k.table, st.numberedPipes, inFd')
    ensures EngineOf(k.table, st.numberedPipes, k.pipesMade, inFd', log) ==
            old(EngineOf(k.table, st.numberedPipes, k.pipesMade, inFd, log).(input := Bound(k.table, inputFd)))
    ensures k.table == old(k.table) - InTransit(inFd)
    ensures k.badCloses == old(k.badCloses)
  {
    CloseOthers(k.table, st.numberedPipes, InTransit(inFd), {});
    var _ := CloseFd(k, inFd);
    inFd' := inputFd;
  }

  // The table once a new pipe is stored under an unused target.
  lemma Stored(table: map<int, Endpoint>, np: map<int, PipeFD>, made: nat, target: int, p: PipeFD, inFd: int, log: seq<Outcome>)
    requires Holds(table, np) && Loose(table, np, inFd) && target !in np
    requires STDIN in table && STDOUT in table && STDERR in table && -1 !in table
    requires p.readFd >= 0 && p.writeFd >= 0 && p.readFd != p.writeFd && p.readFd !in table && p.writeFd !in table
    requires forall fd :: fd in table && IsPipe(table[fd]) ==> table[fd].pipe < made
    ensures var table', np' := table[p.readFd := PipeRead(made)][p.writeFd := PipeWrite(made)], np[target := p];
            && Holds(table', np') && Loose(table', np', inFd)
            && Fds(np') == Fds(np) + {p.readFd, p.writeFd}
            && (EngineOf(table', np', made + 1, inFd, log), made) == Target(EngineOf(table, np, made, inFd, log), target)
            && Rest(table', np', InTransit(inFd)) == Rest(table, np, InTransit(inFd))
  {
    Store(table, np, target, p, made);
    StoreRest(table, np, target, p, PipeRead(made), PipeWrite(made), InTransit(inFd));
    FdsAdd(np, target, p);
  }

  // The pipe of a target segment: the one already waiting, or a new one.
  method TargetPipe(k: Process, st: ShellState, target: int, inFd: int, ghost log: seq<Outcome>) returns (p: PipeFD)
    requires k.Valid() && Holds(k.table, st.numberedPipes) && Loose(k.table, st.numberedPipes, inFd)
    modifies k`table, k`pipesMade, st`numberedPipes
    ensures k.Valid() && Holds(k.table, st.numberedPipes) && Loose(k.table, st.numberedPipes, inFd)
    ensures p.writeFd > STDERR && p.writeFd in k.table && p.writeFd in Fds(st.numberedPipes)
    ensures k.table[p.writeFd].PipeWrite?
    ensures (EngineOf(k.table, st.numberedPipes, k.pipesMade, inFd, log), k.table[p.writeFd].pipe) ==
            Target(old(EngineOf(k.table, st.numberedPipes, k.pipesMade, inFd, log)), target)
    ensures forall fd :: fd in old(k.table) ==> fd in k.table && k.table[fd] == old(k.table)[fd]
    ensures forall fd :: fd in old(k.table) && fd !in old(Fds(st.numberedPipes)) ==> fd !in Fds(st.numberedPipes)
    ensures Rest(k.table, st.numberedPipes, InTransit(inFd)) == old(Rest(k.table, st.numberedPipes, InTransit(inFd)))
  {
    hide Bound;
    if target !in st.numberedPipes {
      ghost var table0, np0, made := k.table, st.numberedPipes, k.pipesMade;
      var newPipe := k.Pipe();
      Stored(table0, np0, made, target, newPipe, inFd, log);
      st.numberedPipes := st.numberedPipes[target := newPipe];
    }
    p := st.numberedPipes[target];
  }

  // Two further lemmas on opening descriptors of a plan.
  lemma Opened(table: map<int, Endpoint>, np: map<int, PipeFD>, made: nat, inFd: int, log: seq<Outcome>, fd: int, e: Endpoint)
    requires Holds(table, np) && Loose(table, np, inFd) && fd !in table && fd >= 0
    requires STDIN in table && STDOUT in table && STDERR in table && -1 !in table
    ensures var table' := table[fd := e];
            && Holds(table', np) && Loose(table', np, inFd) && Loose(table', np, fd) && fd != inFd
            && EngineOf(table', np, made, inFd, log) == EngineOf(table, np, made, inFd, log)
            && Rest(table', np, InTransit(inFd) + {fd}) == Rest(table, np, InTransit(inFd))
  {
    OpenAnother(table, np, fd, e, InTransit(inFd));
  }

  lemma OpenedTwice(table: map<int, Endpoint>, np: map<int, PipeFD>, made: nat, inFd: int, log: seq<Outcome>, p: PipeFD)
    requires Holds(table, np) && Loose(table, np, inFd)
    requires p.readFd >= 0 && p.writeFd >= 0 && p.readFd != p.writeFd && p.readFd !in table && p.writeFd !in table
    requires STDIN in table && STDOUT in table && STDERR in table && -1 !in table
    ensures var table' := table[p.readFd := PipeRead(made)][p.writeFd := PipeWrite(made)];
            && Holds(table', np) && Loose(table', np, inFd) && Loose(table', np, p.readFd) && Loose(table', np, p.writeFd)
            && inFd != p.readFd && inFd != p.writeFd
            && EngineOf(table', np, made, inFd, log) == EngineOf(table, np, made, inFd, log)
            && Rest(table', np, InTransit(inFd) + {p.readFd} + {p.writeFd}) == Rest(table, np, InTransit(inFd))
  {
    var table1 := table[p.readFd := PipeRead(made)];
    Opened(table, np, made, inFd, log, p.readFd, PipeRead(made));
    Opened(table1, np, made, inFd, log, p.writeFd, PipeWrite(made));
    OpenAnother(table1, np, p.writeFd, PipeWrite(made), InTransit(inFd) + {p.readFd});
  }

  // The outcome of preparing a command, compared with Dispatch.
  ghost predicate Prepared(table: map<int, Endpoint>, np: map<int, PipeFD>, made: nat, plan: IoPlan, inFd: int, ok: bool,
                           t: Engine, blank: Outcome, cfg: Config, openOk: bool)
    requires Holds(table, np)
  {
    var e' := Dispatch(t, blank, cfg, openOk);
    && EngineOf(table, np, made, if ok then plan.nextInFd else inFd, e'.log) == e'
    && ok == e'.log[|t.log|].ran
    && (!ok ==> inFd == -1)
    && (ok ==>
          && Planned(table, np, plan, inFd)
          && var r := e'.log[|t.log|];
             r.stdin == Bound(table, inFd) && r.stdout == table[plan.outFd] && r.stderr == table[plan.errFd])
  }

  // The table, and what is in transit, just before the output of a command is routed.
  ghost predicate Routable(table: map<int, Endpoint>, np: map<int, PipeFD>, made: nat, inFd: int,
                           config: ExecutionConfig, cfg: Config, t: Engine) {
    && Holds(table, np) && Loose(table, np, inFd)
    && STDIN in table && STDOUT in table && STDERR in table && -1 !in table
    && Lent(table, np, config, cfg) && cfg.forceLastOutput == config.forceLastOutput
    && inFd != config.outputFd && inFd != config.errorFd
    && t == EngineOf(table, np, made, inFd, t.log)
  }

  // The result of routing it.
  ghost predicate Done(table0: map<int, Endpoint>, np0: map<int, PipeFD>, inFd0: int,
                       table: map<int, Endpoint>, np: map<int, PipeFD>, made: nat, plan: IoPlan, inFd: int, ok: bool,
                       config: ExecutionConfig, cfg: Config, t: Engine, blank: Outcome, openOk: bool) {
    && Holds(table, np)
    && Prepared(table, np, made, plan, inFd, ok, t, blank, cfg, openOk)
    && Lent(table, np, config, cfg)
    && Rest(table, np, InTransit(inFd) + if ok then PlanFds(plan) else {}) == Rest(table0, np0, InTransit(inFd0))
  }

  ghost function PlanFor(config: ExecutionConfig): IoPlan {
    BLANK_PLAN.(outFd := config.outputFd, errFd := config.errorFd)
  }

  lemma PlainDone(table: map<int, Endpoint>, np: map<int, PipeFD>, made: nat, inFd: int,
                  config: ExecutionConfig, cfg: Config, t: Engine, blank: Outcome, openOk: bool)
    requires Routable(table, np, made, inFd, config, cfg, t) && !blank.ran
    requires blank.forced || (!blank.command.redirectStdout && blank.command.nextType.Nothing?)
    ensures Done(table, np, inFd, table, np, made, PlanFor(config), inFd, true, config, cfg, t, blank, openOk)
  {
    assert InTransit(inFd) + PlanFds(PlanFor(config)) == InTransit(inFd);
  }

  lemma RedirectDone(table: map<int, Endpoint>, np: map<int, PipeFD>, made: nat, inFd: int,
                     config: ExecutionConfig, cfg: Config, t: Engine, blank: Outcome, fd: int)
    requires Routable(table, np, made, inFd, config, cfg, t) && !blank.ran
    requires !blank.forced && blank.command.redirectStdout && fd >= 0 && fd !in table
    ensures var plan := PlanFor(config).(redirectFd := fd, outFd := fd);
            Done(table, np, inFd, table[fd := File(blank.command.redirectFile)], np, made, plan, inFd, true,
                 config, cfg, t, blank, true)
  {
    Opened(table, np, made, inFd, t.log, fd, File(blank.command.redirectFile));
    assert InTransit(inFd) + PlanFds(PlanFor(config).(redirectFd := fd, outFd := fd)) == InTransit(inFd) + {fd};
  }

  lemma RedirectFailed(table: map<int, Endpoint>, np: map<int, PipeFD>, made: nat, inFd: int,
                       config: ExecutionConfig, cfg: Config, t: Engine, blank: Outcome, plan: IoPlan)
    requires Routable(table, np, made, inFd, config, cfg, t) && !blank.ran
    requires !blank.forced && blank.command.redirectStdout
    ensures Done(table, np, inFd, table - InTransit(inFd), np, made, plan, -1, false, config, cfg, t, blank, false)
  {
    CloseOthers(table, np, InTransit(inFd), {});
    assert {} + InTransit(inFd) == InTransit(inFd) && InTransit(-1) + {} == {};
  }

  lemma OrdinaryDone(table: map<int, Endpoint>, np: map<int, PipeFD>, made: nat, inFd: int,
                     config: ExecutionConfig, cfg: Config, t: Engine, blank: Outcome, p: PipeFD, openOk: bool)
    requires Routable(table, np, made, inFd, config, cfg, t) && !blank.ran
    requires !blank.forced && !blank.command.redirectStdout && blank.command.nextType.OrdinaryPipe?
    requires p.readFd >= 0 && p.writeFd >= 0 && p.readFd != p.writeFd && p.readFd !in table && p.writeFd !in table
    ensures var plan := PlanFor(config).(ordinaryPipe := p, outFd := p.writeFd, nextInFd := p.readFd);
            Done(table, np, inFd, table[p.readFd := PipeRead(made)][p.writeFd := PipeWrite(made)], np, made + 1, plan, inFd, true,
                 config, cfg, t, blank, openOk)
  {
    OpenedTwice(table, np, made, inFd, t.log, p);
    var plan := PlanFor(config).(ordinaryPipe := p, outFd := p.writeFd, nextInFd := p.readFd);
    assert InTransit(inFd) + PlanFds(plan) == InTransit(inFd) + {p.readFd} + {p.writeFd};
  }

  lemma NumberedDone(table0: map<int, Endpoint>, np0: map<int, PipeFD>, made0: nat, inFd: int,
                     config: ExecutionConfig, cfg: Config, t: Engine, blank: Outcome, openOk: bool,
                     table: map<int, Endpoint>, np: map<int, PipeFD>, made: nat, writeFd: int)
    requires Routable(table0, np0, made0, inFd, config, cfg, t) && !blank.ran
    requires !blank.forced && !blank.command.redirectStdout && IsNumberPipe(blank.command.nextType)
    requires Holds(table, np) && Loose(table, np, inFd) && -1 !in table
    requires writeFd > STDERR && writeFd in table && table[writeFd].PipeWrite? && writeFd in Fds(np)
    requires (EngineOf(table, np, made, inFd, t.log), table[writeFd].pipe) == Target(t, blank.segment + blank.command.nextCount)
    requires forall fd :: fd in table0 ==> fd in table && table[fd] == table0[fd]
    requires forall fd :: fd in table0 && fd !in Fds(np0) ==> fd !in Fds(np)
    requires Rest(table, np, InTransit(inFd)) == Rest(table0, np0, InTransit(inFd))
    ensures var plan := PlanFor(config).(outFd := writeFd,
                          errFd := if blank.command.nextType == NumberPipeBoth then writeFd else config.errorFd);
            Done(table0, np0, inFd, table, np, made, plan, inFd, true, config, cfg, t, blank, openOk)
  {
    hide Fds;
    var plan := PlanFor(config).(outFd := writeFd,
      errFd := if blank.command.nextType == NumberPipeBoth then writeFd else config.errorFd);
    assert InTransit(inFd) + PlanFds(plan) == InTransit(inFd);
  }

  // An output, and where errors go: the caller's error descriptor, unless the output takes them too.
  method RouteToFile(k: Process, st: ShellState, inFd: int, config: ExecutionConfig,
                     openOk: bool, ghost blank: Outcome, file: string, ghost cfg: Config, ghost t: Engine)
    returns (ok: bool, plan: IoPlan, inFd': int)
    requires k.Valid() && Routable(k.table, st.numberedPipes, k.pipesMade, inFd, config, cfg, t)
    requires !blank.ran && !blank.forced && blank.command.redirectStdout && blank.command.redirectFile == file
    modifies k`table, k`badCloses
    ensures plan.errFd == config.errorFd || plan.errFd == plan.outFd
    ensures k.Valid()
    ensures Done(old(k.table), st.numberedPipes, inFd, k.table, st.numberedPipes, k.pipesMade, plan, inFd', ok,
                 config, cfg, t, blank, openOk)
    ensures k.badCloses == old(k.badCloses)
  {
    ghost var table0 := k.table;
    var fd := k.Open(File(file), openOk);
    plan := BLANK_PLAN.(outFd := config.outputFd, errFd := config.errorFd, redirectFd := fd);
    if fd < 0 {
      inFd' := CloseFd(k, inFd);
      ok := false;
      RedirectFailed(table0, st.numberedPipes, k.pipesMade, inFd, config, cfg, t, blank, plan);
      assert k.table == table0 - InTransit(inFd);
    } else {
      inFd' := inFd;
      ok := true;
      plan := plan.(outFd := fd);
      RedirectDone(table0, st.numberedPipes, k.pipesMade, inFd, config, cfg, t, blank, fd);
    }
  }

  method RouteToOrdinary(k: Process, st: ShellState, inFd: int, config: ExecutionConfig,
                         ghost openOk: bool, ghost blank: Outcome, ghost cfg: Config, ghost t: Engine)
    returns (plan: IoPlan)
    requires k.Valid() && Routable(k.table, st.numberedPipes, k.pipesMade, inFd, config, cfg, t)
    requires !blank.ran && !blank.forced && !blank.command.redirectStdout && blank.command.nextType.OrdinaryPipe?
    modifies k`table, k`pipesMade
    ensures plan.errFd == config.errorFd || plan.errFd == plan.outFd
    ensures k.Valid()
    ensures Done(old(k.table), st.numberedPipes, inFd, k.table, st.numberedPipes, k.pipesMade, plan, inFd, true,
                 config, cfg, t, blank, openOk)
  {
    ghost var table0, made := k.table, k.pipesMade;
    var p := k.Pipe();
    plan := BLANK_PLAN.(outFd := p.writeFd, errFd := config.errorFd, ordinaryPipe := p, nextInFd := p.readFd);
    OrdinaryDone(table0, st.numberedPipes, made, inFd, config, cfg, t, blank, p, openOk);
  }

  method RouteToSegment(k: Process, st: ShellState, command: Command, target: int, inFd: int, config: ExecutionConfig,
                        ghost openOk: bool, ghost blank: Outcome, ghost cfg: Config, ghost t: Engine)
    returns (plan: IoPlan)
    requires k.Valid() && Routable(k.table, st.numberedPipes, k.pipesMade, inFd, config, cfg, t)
    requires !blank.ran && !blank.forced && blank.command == command && target == blank.segment + command.nextCount
    requires !command.redirectStdout && IsNumberPipe(command.nextType)
    modifies k`table, k`pipesMade, st`numberedPipes
    ensures plan.errFd == config.errorFd || plan.errFd == plan.outFd
    ensures k.Valid()
    ensures Done(old(k.table), old(st.numberedPipes), inFd, k.table, st.numberedPipes, k.pipesMade, plan, inFd, true,
                 config, cfg, t, blank, openOk)
  {
    ghost var table0, np0, made := k.table, st.numberedPipes, k.pipesMade;
    var p := TargetPipe(k, st, target, inFd, t.log);
    plan := BLANK_PLAN.(outFd := p.writeFd, errFd := config.errorFd);
    if command.nextType == NumberPipeBoth {
      plan := plan.(errFd := plan.outFd);
    }
    NumberedDone(table0, np0, made, inFd, config, cfg, t, blank, openOk, k.table, st.numberedPipes, k.pipesMade, p.writeFd);
  }

  // Choose one output: a forced one, a file, an ordinary pipe, a numbered pipe, or the caller's.
  method RouteOutput(k: Process, st: ShellState, command: Command, segment: int, inFd: int, config: ExecutionConfig,
                     isLast: bool, openOk: bool, ghost blank: Outcome, ghost cfg: Config, ghost t: Engine)
    returns (ok: bool, plan: IoPlan, inFd': int)
    requires k.Valid() && Routable(k.table, st.numberedPipes, k.pipesMade, inFd, config, cfg, t)
    requires !blank.ran && blank.command == command && blank.segment == segment
    requires blank.forced == (isLast && config.forceLastOutput)
    modifies k`table, k`badCloses, k`pipesMade, st`numberedPipes
    ensures k.Valid()
    ensures Done(old(k.table), old(st.numberedPipes), inFd, k.table, st.numberedPipes, k.pipesMade, plan, inFd', ok,
                 config, cfg, t, blank, openOk)
    ensures k.badCloses == old(k.badCloses)
  {
    inFd' := inFd;
    ok := true;
    if (isLast && config.forceLastOutput && config.outputFd >= 0) || (!command.redirectStdout && command.nextType == Nothing) {
      plan := BLANK_PLAN.(outFd := config.outputFd, errFd := config.errorFd);
      PlainDone(k.table, st.numberedPipes, k.pipesMade, inFd, config, cfg, t, blank, openOk);
    } else if command.redirectStdout {
      ok, plan, inFd' := RouteToFile(k, st, inFd, config, openOk, blank, command.redirectFile, cfg, t);
    } else if command.nextType == OrdinaryPipe {
      plan := RouteToOrdinary(k, st, inFd, config, openOk, blank, cfg, t);
    } else {
      plan := RouteToSegment(k, st, command, segment + command.nextCount, inFd, config, openOk, blank, cfg, t);
    }
  }

  // ----- the child -----

  // Descriptors the child closes before it runs the command.
  ghost function ChildCloses(np: map<int, PipeFD>, plan: IoPlan, inFd: int, closeInChild: seq<int>): set<int> {
    Fds(np) + Extra(closeInChild) + ChildIo(plan, inFd)
  }

  ghost function Extra(closeInChild: seq<int>): set<int> {
    set i | 0 <= i < |closeInChild| && closeInChild[i] > STDERR :: closeInChild[i]
  }

  ghost function ChildIo(plan: IoPlan, inFd: int): set<int> {
    PlanFds(plan) + Above(inFd) + Above(plan.outFd) + Above(plan.errFd)
  }

  function Above(fd: int): set<int> {
    if fd > STDERR then {fd} else {}
  }

  // The table the command starts with: the three routes, and what the shell had open besides its own plumbing.
  ghost function ChildTable(table: map<int, Endpoint>, np: map<int, PipeFD>, plan: IoPlan, inFd: int, closeInChild: seq<int>): map<int, Endpoint>
    requires STDIN in table && plan.outFd in table && plan.errFd in table
  {
    table[STDIN := Bound(table, inFd).GetOr(table[STDIN])][STDOUT := table[plan.outFd]][STDERR := table[plan.errFd]]
    - ChildCloses(np, plan, inFd, closeInChild)
  }

  method CloseNumberedPipesInChild(child: Process, np: map<int, PipeFD>)
    requires forall t :: t in np ==> np[t].readFd >= 0 && np[t].writeFd >= 0 && np[t].readFd != np[t].writeFd
    modifies child`table, child`badCloses
    ensures child.table == old(child.table) - Fds(np)
  {
    var remaining := np.Keys;
    ghost var gone: set<int> := {};
    while remaining != {}
      invariant remaining <= np.Keys
      invariant child.table == old(child.table) - gone && gone <= Fds(np)
      invariant forall t :: t in np && t !in remaining ==> np[t].readFd in gone && np[t].writeFd in gone
    {
      Member(remaining);
      var t :| t in remaining;
      ClosePipe(child, np[t]);
      gone := gone + {np[t].readFd, np[t].writeFd};
      remaining := remaining - {t};
    }
    assert gone == Fds(np);
  }

  method CloseExtraFdsInChild(child: Process, fds: seq<int>)
    modifies child`table, child`badCloses
    ensures child.table == old(child.table) - Extra(fds)
  {
    for i := 0 to |fds|
      invariant child.table == old(child.table) - set j | 0 <= j < i && fds[j] > STDERR :: fds[j]
    {
      if fds[i] > STDERR {
        child.Close(fds[i]);
      }
    }
  }

  method CloseDuplicatedFd(child: Process, fd: int)
    modifies child`table, child`badCloses
    ensures child.table == old(child.table) - Above(fd)
  {
    if fd > STDERR {
      child.Close(fd);
    }
  }

  method BindStandard(child: Process, plan: IoPlan, inFd: int)
    requires STDIN in child.table && plan.outFd in child.table && plan.errFd in child.table && STDERR in child.table
    requires inFd == -1 || (inFd > STDERR && inFd in child.table)
    requires -1 !in child.table
    requires plan.outFd == STDOUT || plan.outFd > STDERR
    requires plan.errFd == STDERR || plan.errFd > STDERR
    modifies child`table
    ensures child.table == old(child.table)[STDIN := Bound(old(child.table), inFd).GetOr(old(child.table)[STDIN])]
                           [STDOUT := old(child.table)[plan.outFd]][STDERR := old(child.table)[plan.errFd]]
  {
    ghost var table := child.table;
    if inFd >= 0 {
      child.Dup2(inFd, STDIN);
    }
    assert child.table == table[STDIN := Bound(table, inFd).GetOr(table[STDIN])];
    if plan.outFd >= 0 && plan.outFd != STDOUT {
      child.Dup2(plan.outFd, STDOUT);
    }
    assert child.table == table[STDIN := Bound(table, inFd).GetOr(table[STDIN])][STDOUT := table[plan.outFd]];
    if plan.errFd >= 0 && plan.errFd != STDERR {
      child.Dup2(plan.errFd, STDERR);
    }
  }

  method CloseChildIo(child: Process, plan: IoPlan, inFd: int)
    modifies child`table, child`badCloses
    ensures child.table == old(child.table) - ChildIo(plan, inFd)
  {
    ghost var table := child.table;
    var _ := CloseFd(child, plan.ordinaryPipe.readFd);
    var _ := CloseFd(child, plan.ordinaryPipe.writeFd);
    MinusUnion(table, InTransit(plan.ordinaryPipe.readFd), InTransit(plan.ordinaryPipe.writeFd));
    var _ := CloseFd(child, plan.redirectFd);
    MinusUnion(table, InTransit(plan.ordinaryPipe.readFd) + InTransit(plan.ordinaryPipe.writeFd), InTransit(plan.redirectFd));
    assert child.table == table - PlanFds(plan);
    CloseDuplicatedFd(child, inFd);
    MinusUnion(table, PlanFds(plan), Above(inFd));
    CloseDuplicatedFd(child, plan.outFd);
    MinusUnion(table, PlanFds(plan) + Above(inFd), Above(plan.outFd));
    if plan.errFd != plan.outFd {
      CloseDuplicatedFd(child, plan.errFd);
      MinusUnion(table, PlanFds(plan) + Above(inFd) + Above(plan.outFd), Above(plan.errFd));
    } else {
      assert ChildIo(plan, inFd) == PlanFds(plan) + Above(inFd) + Above(plan.outFd);
    }
  }

  // What the child does between fork and exec, on its own copy of the descriptor table.
  method RunChildProcess(child: Process, np: map<int, PipeFD>, plan: IoPlan, inFd: int, closeInChild: seq<int>)
    requires child.Valid() && Holds(child.table, np) && Planned(child.table, np, plan, inFd)
    modifies child`table, child`badCloses
    ensures child.table == ChildTable(old(child.table), np, plan, inFd, closeInChild)
  {
    BindStandard(child, plan, inFd);
    ghost var table := child.table;
    CloseNumberedPipesInChild(child, np);
    CloseExtraFdsInChild(child, closeInChild);
    MinusUnion(table, Fds(np), Extra(closeInChild));
    CloseChildIo(child, plan, inFd);
    MinusUnion(table, Fds(np) + Extra(closeInChild), ChildIo(plan, inFd));
  }

  // The command's standard descriptors are bound to its three routes.
  lemma ChildStandard(table: map<int, Endpoint>, np: map<int, PipeFD>, plan: IoPlan, inFd: int, closeInChild: seq<int>)
    requires Holds(table, np) && Planned(table, np, plan, inFd)
    requires STDIN in table && STDOUT in table && STDERR in table
    ensures var child := ChildTable(table, np, plan, inFd, closeInChild);
            && Bound(child, STDIN) == Some(Bound(table, inFd).GetOr(table[STDIN]))
            && Bound(child, STDOUT) == Some(table[plan.outFd])
            && Bound(child, STDERR) == Some(table[plan.errFd])
  {
    var closes := ChildCloses(np, plan, inFd, closeInChild);
    forall fd | fd in closes ensures fd > STDERR {
      if fd in Fds(np) { HeldFds(table, np, fd); }
    }
  }

  // ----- a whole line -----

  // The lent input is consumed by the first command, if that is a real one.
  predicate ConsumesInput(cs: seq<Command>, config: ExecutionConfig) {
    cs != [] && cs[0].argv != [] && config.inputFd >= 0
  }

  method PrepareIoPlan(k: Process, st: ShellState, command: Command, segment: int, inFd: int, config: ExecutionConfig,
                       isFirst: bool, isLast: bool, openOk: bool, ghost blank: Outcome, ghost cfg: Config, ghost e: Engine)
    returns (ok: bool, plan: IoPlan, inFd': int)
    requires k.Valid() && Routable(k.table, st.numberedPipes, k.pipesMade, inFd, config, cfg, e)
    requires isFirst && config.inputFd >= 0 ==>
               && Loose(k.table, st.numberedPipes, config.inputFd) && config.inputFd != inFd
               && config.inputFd != config.outputFd && config.inputFd != config.errorFd
               && cfg.input == Bound(k.table, config.inputFd)
    requires !blank.ran && blank.command == command && blank.segment == segment
    requires blank.forced == (isLast && config.forceLastOutput) && blank.overridden == (isFirst && config.inputFd >= 0)
    modifies k`table, k`badCloses, k`pipesMade, st`numberedPipes
    ensures k.Valid() && Holds(k.table, st.numberedPipes)
    ensures Prepared(k.table, st.numberedPipes, k.pipesMade, plan, inFd', ok,
                     if blank.overridden then e.(input := cfg.input) else e, blank, cfg, openOk)
    ensures Lent(k.table, st.numberedPipes, config, cfg)
    ensures Rest(k.table, st.numberedPipes, InTransit(inFd') + if ok then PlanFds(plan) else {}) ==
            old(Rest(k.table, st.numberedPipes, InTransit(inFd))) - if blank.overridden then {config.inputFd} else {}
    ensures k.badCloses == old(k.badCloses)
  {
    inFd' := TakeLentInput(k, st, inFd, config, isFirst, cfg, e);
    ok, plan, inFd' := RouteOutput(k, st, command, segment, inFd', config, isLast, openOk, blank, cfg,
                                   if blank.overridden then e.(input := cfg.input) else e);
  }

  method TakeLentInput(k: Process, st: ShellState, inFd: int, config: ExecutionConfig, isFirst: bool, ghost cfg: Config, ghost e: Engine)
    returns (inFd': int)
    requires k.Valid() && Routable(k.table, st.numberedPipes, k.pipesMade, inFd, config, cfg, e)
    requires isFirst && config.inputFd >= 0 ==>
               && Loose(k.table, st.numberedPipes, config.inputFd) && config.inputFd != inFd
               && config.inputFd != config.outputFd && config.inputFd != config.errorFd
               && cfg.input == Bound(k.table, config.inputFd)
    modifies k`table, k`badCloses
    ensures k.Valid()
    ensures Routable(k.table, st.numberedPipes, k.pipesMade, inFd', config, cfg,
                     if isFirst && config.inputFd >= 0 then e.(input := cfg.input) else e)
    ensures Rest(k.table, st.numberedPipes, InTransit(inFd')) ==
            old(Rest(k.table, st.numberedPipes, InTransit(inFd))) -
            if isFirst && config.inputFd >= 0 then {config.inputFd} else {}
    ensures k.badCloses == old(k.badCloses)
  {
    inFd' := inFd;
    if isFirst && config.inputFd >= 0 {
      CloseOthers(k.table, st.numberedPipes, InTransit(inFd), {config.inputFd});
      inFd' := OverrideInput(k, st, inFd, config.inputFd, e.log);
    }
  }

  // A command starts with nothing of the shell's plumbing: beyond its three standard descriptors it holds only
  // what the shell itself had open besides pipes, less what it was told to close.
  predicate Confined(s: SpawnRecord, rest: map<int, Endpoint>, closeInChild: seq<int>) {
    && STDIN in s.table && STDOUT in s.table && STDERR in s.table
    && (forall fd :: fd in s.table && fd > STDERR ==> fd in rest && s.table[fd] == rest[fd] && fd !in closeInChild)
    && (forall fd :: fd in s.table ==> fd >= 0)
  }

  lemma ChildConfined(table: map<int, Endpoint>, np: map<int, PipeFD>, plan: IoPlan, inFd: int, closeInChild: seq<int>,
                      rest: map<int, Endpoint>, argv: seq<string>, waited: bool)
    requires Holds(table, np) && Planned(table, np, plan, inFd)
    requires STDIN in table && STDOUT in table && STDERR in table && forall fd :: fd in table ==> fd >= 0
    requires Rest(table, np, InTransit(inFd) + PlanFds(plan)) == rest
    ensures var s := SpawnRecord(argv, ChildTable(table, np, plan, inFd, closeInChild), waited);
            && Confined(s, rest, closeInChild)
            && SeenAs(s) == Launch(argv, Bound(table, inFd).GetOr(table[STDIN]), table[plan.outFd], table[plan.errFd], waited)
  {
    ChildStandard(table, np, plan, inFd, closeInChild);
    var child := ChildTable(table, np, plan, inFd, closeInChild);
    forall fd | fd in child && fd > STDERR ensures fd in rest && child[fd] == rest[fd] && fd !in closeInChild {
      assert fd !in ChildCloses(np, plan, inFd, closeInChild);
      assert fd !in Extra(closeInChild);
    }
  }

  // The parent's table once it has closed its copies of the child's descriptors.
  lemma ParentDone(table: map<int, Endpoint>, np: map<int, PipeFD>, made: nat, plan: IoPlan, inFd: int, log: seq<Outcome>)
    requires Holds(table, np) && Planned(table, np, plan, inFd) && -1 !in table
    ensures var gone := InTransit(inFd) + InTransit(plan.ordinaryPipe.writeFd) + InTransit(plan.redirectFd);
            var table' := table - gone;
            && Holds(table', np) && Loose(table', np, plan.nextInFd)
            && EngineOf(table', np, made, plan.nextInFd, log) == EngineOf(table, np, made, plan.nextInFd, log)
            && Rest(table', np, InTransit(plan.nextInFd)) == Rest(table, np, InTransit(inFd) + PlanFds(plan))
            && STDIN !in gone && STDOUT !in gone && STDERR !in gone
    ensures InTransit(inFd) <= table.Keys
    ensures InTransit(plan.ordinaryPipe.writeFd) <= (table - InTransit(inFd)).Keys
    ensures InTransit(plan.redirectFd) <= (table - InTransit(inFd)).Keys
  {
    var gone := InTransit(inFd) + InTransit(plan.ordinaryPipe.writeFd) + InTransit(plan.redirectFd);
    CloseOthers(table, np, gone, InTransit(plan.nextInFd));
    assert InTransit(plan.nextInFd) + gone == InTransit(inFd) + PlanFds(plan);
  }

  method CloseParentIo(k: Process, plan: IoPlan)
    modifies k`table, k`badCloses
    ensures k.table == old(k.table) - (InTransit(plan.ordinaryPipe.writeFd) + InTransit(plan.redirectFd))
    ensures (InTransit(plan.ordinaryPipe.writeFd) <= old(k.table.Keys) && InTransit(plan.redirectFd) <= old(k.table.Keys) &&
             (plan.ordinaryPipe.writeFd < 0 || plan.redirectFd < 0)) ==> k.badCloses == old(k.badCloses)
  {
    var _ := CloseFd(k, plan.ordinaryPipe.writeFd);
    var _ := CloseFd(k, plan.redirectFd);
  }

  method ForkCommand(k: Process, np: map<int, PipeFD>, command: Command, plan: IoPlan, inFd: int, closeInChild: seq<int>, waited: bool)
    requires k.Valid() && Holds(k.table, np) && Planned(k.table, np, plan, inFd)
    modifies k`spawns
    ensures |k.spawns| == |old(k.spawns)| + 1 && k.spawns[..|old(k.spawns)|] == old(k.spawns)
    ensures var s := k.spawns[|old(k.spawns)|];
            && Confined(s, Rest(k.table, np, InTransit(inFd) + PlanFds(plan)), closeInChild)
            && SeenAs(s) == Launch(command.argv, Bound(k.table, inFd).GetOr(k.table[STDIN]),
                                   k.table[plan.outFd], k.table[plan.errFd], waited)
  {
    var child := new Process.Fork(k);
    RunChildProcess(child, np, plan, inFd, closeInChild);
    k.Exec(child, command.argv, waited);
    ChildConfined(k.table, np, plan, inFd, closeInChild,
                  Rest(k.table, np, InTransit(inFd) + PlanFds(plan)), command.argv, waited);
  }

  method ReleaseFds(k: Process, plan: IoPlan, inFd: int) returns (nextInFd: int)
    requires InTransit(inFd) <= k.table.Keys
    requires InTransit(plan.ordinaryPipe.writeFd) <= (k.table - InTransit(inFd)).Keys
    requires InTransit(plan.redirectFd) <= (k.table - InTransit(inFd)).Keys
    requires plan.ordinaryPipe.writeFd < 0 || plan.redirectFd < 0
    modifies k`table, k`badCloses
    ensures nextInFd == plan.nextInFd
    ensures k.table == old(k.table) - (InTransit(inFd) + InTransit(plan.ordinaryPipe.writeFd) + InTransit(plan.redirectFd))
    ensures k.badCloses == old(k.badCloses)
  {
    ghost var table := k.table;
    var _ := CloseFd(k, inFd);
    nextInFd := plan.nextInFd;
    CloseParentIo(k, plan);
    MinusUnion(table, InTransit(inFd), InTransit(plan.ordinaryPipe.writeFd) + InTransit(plan.redirectFd));
    assert InTransit(inFd) + (InTransit(plan.ordinaryPipe.writeFd) + InTransit(plan.redirectFd)) ==
           InTransit(inFd) + InTransit(plan.ordinaryPipe.writeFd) + InTransit(plan.redirectFd);
  }

  // The parent lets go of the descriptors it opened for the command.
  method ReleaseParent(k: Process, np: map<int, PipeFD>, plan: IoPlan, inFd: int, ghost log: seq<Outcome>) returns (nextInFd: int)
    requires k.Valid() && Holds(k.table, np) && Planned(k.table, np, plan, inFd)
    modifies k`table, k`badCloses
    ensures k.Valid() && Holds(k.table, np)
    ensures nextInFd == plan.nextInFd && Loose(k.table, np, nextInFd)
    ensures EngineOf(k.table, np, k.pipesMade, nextInFd, log) == old(EngineOf(k.table, np, k.pipesMade, plan.nextInFd, log))
    ensures Rest(k.table, np, InTransit(nextInFd)) == old(Rest(k.table, np, InTransit(inFd) + PlanFds(plan)))
    ensures k.badCloses == old(k.badCloses)
  {
    ParentDone(k.table, np, k.pipesMade, plan, inFd, log);
    nextInFd := ReleaseFds(k, plan, inFd);
  }

  // The caller's descriptors among the rest.
  ghost predicate LentFrom(rest: map<int, Endpoint>, config: ExecutionConfig, cfg: Config) {
    && config.outputFd in rest && rest[config.outputFd] == cfg.output
    && config.errorFd in rest && rest[config.errorFd] == cfg.error
    && (config.outputFd == STDOUT || config.outputFd > STDERR)
    && (config.errorFd == STDERR || config.errorFd > STDERR)
    && cfg.forceLastOutput == config.forceLastOutput
  }

  // Before command i of a line.
  ghost predicate Between(table: map<int, Endpoint>, np: map<int, PipeFD>, made: nat, inFd: int,
                          config: ExecutionConfig, cfg: Config, e: Engine, rest: map<int, Endpoint>) {
    && Holds(table, np) && Loose(table, np, inFd)
    && e == EngineOf(table, np, made, inFd, e.log)
    && Rest(table, np, InTransit(inFd)) == rest
    && STDIN in rest && table[STDIN] == rest[STDIN]
    && LentFrom(rest, config, cfg)
  }

  // The lent input is waiting for the first command.
  ghost predicate InputWaits(rest: map<int, Endpoint>, config: ExecutionConfig, cfg: Config) {
    && (cfg.input.Some? <==> config.inputFd >= 0)
    && (config.inputFd >= 0 ==>
          && config.inputFd > STDERR && config.inputFd in rest && cfg.input == Some(rest[config.inputFd])
          && config.inputFd != config.outputFd && config.inputFd != config.errorFd)
  }

  lemma BetweenRoutable(table: map<int, Endpoint>, np: map<int, PipeFD>, made: nat, inFd: int,
                        config: ExecutionConfig, cfg: Config, e: Engine, rest: map<int, Endpoint>)
    requires Between(table, np, made, inFd, config, cfg, e, rest)
    requires STDOUT in table && STDERR in table && -1 !in table
    ensures Routable(table, np, made, inFd, config, cfg, e)
    ensures InputWaits(rest, config, cfg) && config.inputFd >= 0 ==>
              && Loose(table, np, config.inputFd) && config.inputFd != inFd
              && cfg.input == Bound(table, config.inputFd)
  {
    assert config.outputFd in rest && config.errorFd in rest;
  }

  // The effect of one command on the spawn log.
  ghost predicate Started(before: seq<SpawnRecord>, after: seq<SpawnRecord>, r: Outcome, inherited: Endpoint,
                          rest: map<int, Endpoint>, closeInChild: seq<int>) {
    if r.ran then
      && |after| == |before| + 1 && after[..|before|] == before
      && Confined(after[|before|], rest, closeInChild)
      && SeenAs(after[|before|]) == Launch(r.command.argv, r.stdin.GetOr(inherited), r.stdout, r.stderr, r.waited)
    else after == before
  }

  // What is left of the rest once a command has taken the lent input.
  function Left(rest: map<int, Endpoint>, taken: bool, inputFd: int): map<int, Endpoint> {
    if taken then rest - {inputFd} else rest
  }

  // One turn of the loop over the commands of a line.
  method RunCommand(k: Process, st: ShellState, cs: seq<Command>, i: nat, plan: LinePlan, waitable: seq<bool>, inFd: int,
                    config: ExecutionConfig, openOk: bool, ghost base: int, ghost cfg: Config, ghost e: Engine, ghost rest: map<int, Endpoint>)
    returns (inFd': int)
    requires i < |cs| == |plan.commandSegments| == |plan.segmentStarts| == |waitable|
    requires plan.commandSegments[i] == base + SegmentOf(cs, i) && plan.segmentStarts[i] == StartsSegment(cs, i)
    requires waitable[i] == Waits(cs, i)
    requires k.Valid() && Between(k.table, st.numberedPipes, k.pipesMade, inFd, config, cfg, e, rest)
    requires cfg.input.Some? <==> config.inputFd >= 0
    requires i == 0 ==> InputWaits(rest, config, cfg)
    modifies k, st`numberedPipes
    ensures k.Valid()
    ensures Between(k.table, st.numberedPipes, k.pipesMade, inFd', config, cfg, Step(e, cs, i, base, cfg, openOk),
                    Left(rest, i == 0 && ConsumesInput(cs, config), config.inputFd))
    ensures k.badCloses == old(k.badCloses)
    ensures Started(old(k.spawns), k.spawns, Step(e, cs, i, base, cfg, openOk).log[|e.log|], rest[STDIN],
                    Left(rest, i == 0 && ConsumesInput(cs, config), config.inputFd), config.closeInChild)
  {
    hide Attach, Rest;
    inFd' := inFd;
    var command := cs[i];
    if command.argv == [] {
      return;
    }
    var segment := plan.commandSegments[i];
    inFd' := AttachAtStart(k, st, segment, plan.segmentStarts[i], inFd, config, cfg, e, rest);
    ghost var e1 := if StartsSegment(cs, i) then Attach(e, segment) else e;
    ghost var blank := Blank(cs, i, base, cfg);
    assert Step(e, cs, i, base, cfg, openOk) ==
           Dispatch(if blank.overridden then e1.(input := cfg.input) else e1, blank, cfg, openOk);
    inFd' := DispatchCommand(k, st, command, segment, waitable[i], inFd', config, i == 0, i + 1 == |cs|, openOk, blank, cfg, e1, rest);
  }

  method AttachAtStart(k: Process, st: ShellState, segment: int, starts: bool, inFd: int,
                       config: ExecutionConfig, ghost cfg: Config, ghost e: Engine, ghost rest: map<int, Endpoint>)
    returns (inFd': int)
    requires k.Valid() && Between(k.table, st.numberedPipes, k.pipesMade, inFd, config, cfg, e, rest)
    modifies k`table, k`badCloses, st`numberedPipes
    ensures k.Valid()
    ensures Between(k.table, st.numberedPipes, k.pipesMade, inFd', config, cfg, if starts then Attach(e, segment) else e, rest)
    ensures k.badCloses == old(k.badCloses)
  {
    inFd' := inFd;
    if starts {
      inFd' := AttachIncomingNumberedPipe(k, st, segment, inFd, e.log);
    }
  }

  method DispatchCommand(k: Process, st: ShellState, command: Command, segment: int, waited: bool, inFd: int, config: ExecutionConfig,
                         isFirst: bool, isLast: bool, openOk: bool, ghost blank: Outcome, ghost cfg: Config, ghost e: Engine,
                         ghost rest: map<int, Endpoint>)
    returns (inFd': int)
    requires k.Valid() && Between(k.table, st.numberedPipes, k.pipesMade, inFd, config, cfg, e, rest)
    requires isFirst ==> InputWaits(rest, config, cfg)
    requires !blank.ran && blank.command == command && blank.segment == segment && blank.waited == waited
    requires blank.forced == (isLast && config.forceLastOutput) && blank.overridden == (isFirst && config.inputFd >= 0)
    modifies k, st`numberedPipes
    ensures k.Valid()
    ensures var e' := Dispatch(if blank.overridden then e.(input := cfg.input) else e, blank, cfg, openOk);
            var rest' := Left(rest, blank.overridden, config.inputFd);
            && Between(k.table, st.numberedPipes, k.pipesMade, inFd', config, cfg, e', rest')
            && Started(old(k.spawns), k.spawns, e'.log[|e.log|], rest[STDIN], rest', config.closeInChild)
    ensures k.badCloses == old(k.badCloses)
  {
    BetweenRoutable(k.table, st.numberedPipes, k.pipesMade, inFd, config, cfg, e, rest);
    ghost var t := if blank.overridden then e.(input := cfg.input) else e;
    ghost var e' := Dispatch(t, blank, cfg, openOk);
    ghost var rest' := Left(rest, blank.overridden, config.inputFd);
    var ok, plan;
    ok, plan, inFd' := PrepareIoPlan(k, st, command, segment, inFd, config, isFirst, isLast, openOk, blank, cfg, e);
    assert LentFrom(rest', config, cfg);
    if !ok {
      assert InTransit(inFd') + {} == InTransit(inFd');
      return;
    }
    inFd' := LaunchPrepared(k, st.numberedPipes, command, plan, inFd', config, waited, cfg, e', e'.log[|e.log|], rest');
  }

  // Fork the command and let the parent's copies go.
  method LaunchPrepared(k: Process, np: map<int, PipeFD>, command: Command, plan: IoPlan, inFd: int, config: ExecutionConfig,
                        waited: bool, ghost cfg: Config, ghost e': Engine, ghost r: Outcome, ghost rest: map<int, Endpoint>)
    returns (nextInFd: int)
    requires k.Valid() && Holds(k.table, np) && Planned(k.table, np, plan, inFd)
    requires EngineOf(k.table, np, k.pipesMade, plan.nextInFd, e'.log) == e'
    requires Rest(k.table, np, InTransit(inFd) + PlanFds(plan)) == rest && LentFrom(rest, config, cfg)
    requires STDIN in rest && k.table[STDIN] == rest[STDIN]
    requires r.ran && r.command == command && r.waited == waited
    requires r.stdin == Bound(k.table, inFd) && r.stdout == k.table[plan.outFd] && r.stderr == k.table[plan.errFd]
    modifies k
    ensures k.Valid()
    ensures Between(k.table, np, k.pipesMade, nextInFd, config, cfg, e', rest)
    ensures Started(old(k.spawns), k.spawns, r, rest[STDIN], rest, config.closeInChild)
    ensures k.badCloses == old(k.badCloses)
  {
    ForkCommand(k, np, command, plan, inFd, config.closeInChild, waited);
    nextInFd := ReleaseParent(k, np, plan, inFd, e'.log);
  }

  // The spawn log of a line, and what each command may hold.
  ghost predicate Launched(before: seq<SpawnRecord>, after: seq<SpawnRecord>, line: seq<Outcome>, inherited: Endpoint,
                           rest: map<int, Endpoint>, closeInChild: seq<int>) {
    && |before| <= |after| && after[..|before|] == before
    && Seen(after[|before|..]) == Launches(line, inherited)
    && (forall i :: |before| <= i < |after| ==> Confined(after[i], rest, closeInChild))
  }

  lemma LaunchedSnoc(before: seq<SpawnRecord>, middle: seq<SpawnRecord>, after: seq<SpawnRecord>, line: seq<Outcome>, r: Outcome,
                     inherited: Endpoint, rest: map<int, Endpoint>, rest': map<int, Endpoint>, closeInChild: seq<int>)
    requires Launched(before, middle, line, inherited, rest, closeInChild)
    requires Started(middle, after, r, inherited, rest', closeInChild)
    requires forall fd :: fd in rest' ==> fd in rest && rest'[fd] == rest[fd]
    ensures Launched(before, after, line + [r], inherited, rest, closeInChild)
  {
    LaunchesSnoc(line, r, inherited);
    if r.ran {
      assert after[|before|..] == middle[|before|..] + [after[|middle|]];
      SeenSnoc(middle[|before|..], after[|middle|]);
      assert after[..|before|] == after[..|middle|][..|before|];
      forall i | |before| <= i < |middle| ensures after[i] == middle[i] {
        assert after[i] == after[..|middle|][i];
      }
    }
  }

  // A command started as its record says; without an input of its own it inherited one. Beyond its standard
  // descriptors it has no end of a pipe it is barred from.
  predicate StartedBy(s: SpawnRecord, start: Beginning) {
    var r := start.outcome;
    && SeenAs(s) == Launch(r.command.argv, r.stdin.GetOr(SeenAs(s).stdin), r.stdout, r.stderr, r.waited)
    && forall fd :: fd in s.table && fd > STDERR && IsPipe(s.table[fd]) ==> s.table[fd].pipe !in start.barred
  }

  // Between two moments exactly these commands were started, in this order.
  ghost predicate Starts(before: seq<SpawnRecord>, after: seq<SpawnRecord>, starts: seq<Beginning>) {
    && before <= after && |after| == |before| + |starts|
    && forall i :: 0 <= i < |starts| ==> StartedBy(after[|before| + i], starts[i])
  }

  // The shell has no end of these pipes but its own numbered ones and those its children close.
  ghost predicate Without(rest: map<int, Endpoint>, closeInChild: seq<int>, barred: set<nat>) {
    forall fd :: fd in rest && fd > STDERR && fd !in closeInChild && IsPipe(rest[fd]) ==> rest[fd].pipe !in barred
  }

  lemma LaunchedStarts(before: seq<SpawnRecord>, after: seq<SpawnRecord>, line: seq<Outcome>, inherited: Endpoint,
                       rest: map<int, Endpoint>, closeInChild: seq<int>, barred: set<nat>)
    requires Launched(before, after, line, inherited, rest, closeInChild) && Without(rest, closeInChild, barred)
    ensures Starts(before, after, Begun(Runs(line), barred))
  {
    LaunchesAreRuns(line, inherited);
    forall i | 0 <= i < |Runs(line)| ensures StartedBy(after[|before| + i], Begun(Runs(line), barred)[i]) {
      assert SeenAs(after[|before|..][i]) == Seen(after[|before|..])[i];
      assert Confined(after[|before| + i], rest, closeInChild);
    }
  }

  lemma StartsInTurn(a: seq<SpawnRecord>, b: seq<SpawnRecord>, c: seq<SpawnRecord>, first: seq<Beginning>, second: seq<Beginning>)
    requires Starts(a, b, first) && Starts(b, c, second)
    ensures Starts(a, c, first + second)
  {
    forall i | 0 <= i < |first + second| ensures StartedBy(c[|a| + i], (first + second)[i]) {
      if i < |first| {
        assert c[|a| + i] == b[|a| + i];
      } else {
        assert StartedBy(c[|b| + (i - |first|)], second[i - |first|]);
      }
    }
  }

  lemma LendsWaits(table: map<int, Endpoint>, np: map<int, PipeFD>, config: ExecutionConfig)
    requires Holds(table, np) && Lends(table, np, config)
    requires STDIN in table && forall fd :: fd in table ==> fd >= 0
    ensures var rest, cfg := Rest(table, np, {}), Meaning(table, config);
            && InputWaits(rest, config, cfg) && LentFrom(rest, config, cfg)
            && STDIN in rest && rest[STDIN] == table[STDIN]
    ensures Rest(table, np, InTransit(-1)) == Rest(table, np, {})
  {
    if STDIN in Fds(np) { HeldFds(table, np, STDIN); }
  }

  lemma StepSnoc(e: Engine, cs: seq<Command>, i: nat, base: int, cfg: Config, openOk: bool, prefix: seq<Outcome>, line: seq<Outcome>)
    requires i < |cs| && e.log == prefix + line
    ensures var e' := Step(e, cs, i, base, cfg, openOk);
            e'.log == prefix + (line + [e'.log[|e.log|]])
  {
  }

  // The loop over the commands of a line.
  method RunCommands(k: Process, st: ShellState, cs: seq<Command>, plan: LinePlan, waitable: seq<bool>, config: ExecutionConfig,
                     openOk: seq<bool>, ghost cfg: Config, ghost e0: Engine, ghost rest: map<int, Endpoint>)
    returns (inFd: int, ghost e: Engine)
    requires |openOk| == |cs| == |plan.commandSegments| == |plan.segmentStarts| == |waitable|
    requires forall i :: 0 <= i < |cs| ==> plan.segmentStarts[i] == StartsSegment(cs, i) && waitable[i] == Waits(cs, i)
    requires forall i :: 0 <= i < |cs| ==> plan.commandSegments[i] == st.executedSegments + SegmentOf(cs, i)
    requires k.Valid() && Between(k.table, st.numberedPipes, k.pipesMade, -1, config, cfg, e0, rest) && InputWaits(rest, config, cfg)
    modifies k, st`numberedPipes
    ensures k.Valid()
    ensures e == Exec(e0, cs, |cs|, st.executedSegments, cfg, openOk)
    ensures Between(k.table, st.numberedPipes, k.pipesMade, inFd, config, cfg, e,
                    Left(rest, ConsumesInput(cs, config), config.inputFd))
    ensures k.badCloses == old(k.badCloses)
    ensures |e.log| >= |e0.log| && e.log[..|e0.log|] == e0.log
    ensures Launched(old(k.spawns), k.spawns, e.log[|e0.log|..], rest[STDIN], rest, config.closeInChild)
  {
    inFd := -1;
    e := e0;
    ghost var line: seq<Outcome> := [];
    for i := 0 to |cs|
      invariant k.Valid()
      invariant e == Exec(e0, cs, i, st.executedSegments, cfg, openOk) && e.log == e0.log + line
      invariant Between(k.table, st.numberedPipes, k.pipesMade, inFd, config, cfg, e,
                        Left(rest, i > 0 && ConsumesInput(cs, config), config.inputFd))
      invariant k.badCloses == old(k.badCloses)
      invariant Launched(old(k.spawns), k.spawns, line, rest[STDIN], rest, config.closeInChild)
    {
      ghost var middle := k.spawns;
      ghost var e' := Step(e, cs, i, st.executedSegments, cfg, openOk[i]);
      ghost var r := e'.log[|e.log|];
      inFd := RunCommand(k, st, cs, i, plan, waitable, inFd, config, openOk[i], st.executedSegments, cfg, e,
                         Left(rest, i > 0 && ConsumesInput(cs, config), config.inputFd));
      LaunchedSnoc(old(k.spawns), middle, k.spawns, line, r, rest[STDIN], rest,
                   Left(rest, ConsumesInput(cs, config), config.inputFd), config.closeInChild);
      StepSnoc(e, cs, i, st.executedSegments, cfg, openOk[i], e0.log, line);
      e := e';
      line := line + [r];
    }
  }

  // After the last command: close the input in transit and book the segments.
  method FinishLine(k: Process, st: ShellState, inFd: int, segmentCount: int, ghost e: Engine, ghost owned: set<nat>, ghost rest: map<int, Endpoint>)
    requires k.Valid() && Holds(k.table, st.numberedPipes) && Loose(k.table, st.numberedPipes, inFd)
    requires e == EngineOf(k.table, st.numberedPipes, k.pipesMade, inFd, e.log)
    requires Rest(k.table, st.numberedPipes, InTransit(inFd)) == rest
    modifies k`table, k`badCloses, st`executedSegments, st`log, st`owned, st`counter
    ensures k.Valid() && Holds(k.table, st.numberedPipes)
    ensures st.Model(k.table) == Shell(e.pipes, old(st.executedSegments) + segmentCount, e.next, e.log, owned)
    ensures Rest(k.table, st.numberedPipes, {}) == rest
    ensures k.badCloses == old(k.badCloses)
  {
    hide Holds;
    CloseOthers(k.table, st.numberedPipes, InTransit(inFd), {});
    assert {} + InTransit(inFd) == InTransit(inFd);
    var _ := CloseFd(k, inFd);
    st.executedSegments := st.executedSegments + segmentCount;
    st.log := e.log;
    st.owned := owned;
    st.counter := k.pipesMade;
  }

  // Run a line. The shell moves exactly as RunLine says; no descriptor is closed twice; everything open besides the
  // shell's numbered pipes stays as it was, except a lent input taken by the first command; and every command is
  // launched with the routes the line gives it, holding none of the shell's plumbing.
  method ExecuteExternalCommands(k: Process, st: ShellState, cs: seq<Command>, config: ExecutionConfig, openOk: seq<bool>)
    requires |openOk| == |cs|
    requires k.Valid() && Holds(k.table, st.numberedPipes) && Lends(k.table, st.numberedPipes, config)
    modifies k, st
    ensures k.Valid() && Holds(k.table, st.numberedPipes)
    ensures st.Model(k.table) ==
            RunLine(old(st.Model(k.table)), External(cs, Meaning(old(k.table), config), openOk, old(k.pipesMade)))
    ensures Rest(k.table, st.numberedPipes, {}) ==
            Left(old(Rest(k.table, st.numberedPipes, {})), ConsumesInput(cs, config), config.inputFd)
    ensures k.badCloses == old(k.badCloses)
    ensures k.pipesMade == st.counter && st.env == old(st.env)
    ensures |st.log| >= |old(st.log)| && st.log[..|old(st.log)|] == old(st.log)
    ensures Launched(old(k.spawns), k.spawns, st.log[|old(st.log)|..], old(k.table)[STDIN],
                     old(Rest(k.table, st.numberedPipes, {})), config.closeInChild)
  {
    hide Holds, Waits, Fds;
    var plan := BuildLinePlan(cs, st.executedSegments);
    var waitable := BuildWaitability(cs);
    ghost var cfg := Meaning(k.table, config);
    ghost var made0 := k.pipesMade;
    ghost var e0 := EngineOf(k.table, st.numberedPipes, k.pipesMade, -1, st.log);
    LendsWaits(k.table, st.numberedPipes, config);
    ghost var e;
    var inFd;
    inFd, e := RunCommands(k, st, cs, plan, waitable, config, openOk, cfg, e0, Rest(k.table, st.numberedPipes, {}));
    FinishLine(k, st, inFd, plan.segmentCount, e, Grown(st.owned, made0, e.next),
               Left(old(Rest(k.table, st.numberedPipes, {})), ConsumesInput(cs, config), config.inputFd));
  }

  // At the end of a session: every numbered pipe is closed once.
  method CloseShellState(k: Process, st: ShellState)
    requires k.Valid() && Holds(k.table, st.numberedPipes)
    modifies k`table, k`badCloses, st`numberedPipes
    ensures k.Valid() && st.numberedPipes == map[]
    ensures Rest(k.table, map[], {}) == old(Rest(k.table, st.numberedPipes, {}))
    ensures k.badCloses == old(k.badCloses)
  {
    while st.numberedPipes.Keys != {}
      invariant k.Valid() && Holds(k.table, st.numberedPipes)
      invariant Rest(k.table, st.numberedPipes, {}) == old(Rest(k.table, st.numberedPipes, {}))
      invariant k.badCloses == old(k.badCloses)
      decreases |st.numberedPipes.Keys|
    {
      Member(st.numberedPipes.Keys);
      var t :| t in st.numberedPipes.Keys;
      ghost var keys := st.numberedPipes.Keys;
      DiscardIncomingPipe(k, st, t);
      assert st.numberedPipes.Keys == keys - {t};
    }
  }
}
