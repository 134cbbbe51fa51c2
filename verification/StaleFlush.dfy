/** A run in which a signal handler that comes too late hands a message to the wrong client. */
module StaleFlush {
  import opened Commands
  import opened Registry
  import opened RegistryRuns
  import opened Sections
  import opened LockMachine
  import opened LockSafety
  import opened Handover

  // ----- sections that nobody interrupts -----

  function RunFrom(s: System, actions: seq<Action>): System {
    if actions == [] then s else Next(RunFrom(s, actions[..|actions| - 1]), actions[|actions| - 1])
  }

  lemma {:induction false} RunOn(s: System, a: seq<Action>, b: seq<Action>)
    ensures RunFrom(s, a + b) == RunFrom(RunFrom(s, a), b)
  {
    hide Next;
    if b == [] {
      assert a + b == a;
    } else {
      var init, last := b[..|b| - 1], b[|b| - 1];
      RunOn(s, a, init);
      assert (a + b)[..|a + b| - 1] == a + init && (a + b)[|a + b| - 1] == last;
    }
  }

  lemma {:induction false} ReachIsRun(n: nat, actions: seq<Action>)
    ensures Reach(n, actions) == RunFrom(Initial(n), actions)
  {
    hide Next;
    if actions != [] { ReachIsRun(n, actions[..|actions| - 1]); }
  }

  lemma OneAction(s: System, a: Action)
    ensures RunFrom(s, [a]) == Next(s, a)
  {
    hide Next;
    assert [a][..0] == [] && RunFrom(s, []) == s;
  }

  predicate ShortQueues(m: Shared) {
    Shaped(m) && forall r :: 0 <= r <= MAX_USERS ==> |m.users[r].queue| <= MAX_MESSAGES
  }

  // Nobody is in a section or waits for one.
  ghost predicate Quiet(s: System) {
    Inv(s) && !s.lock && ShortQueues(s.mem)
    && forall pid: nat :: pid < |s.procs| ==> s.procs[pid].main == None && s.procs[pid].handler == None
  }

  // How far a section has to go.
  function ToGo(w: Work): int {
    if w.done then 0 else 2 * (100 - w.i) + if w.phase == 0 then 2 else 1
  }

  lemma MicroProgress(m0: Shared, m: Shared, pid: int, id: int, op: Op, w: Work)
    requires ShortQueues(m0) && ValidCall(op, id) && Underway(m0, m, pid, id, op, w) && !w.done && w.i <= 66
    requires 0 <= id <= MAX_USERS
    ensures var w' := Micro(m, pid, id, op, w).1; w'.i <= 66 && 0 <= ToGo(w') < ToGo(w)
  {
  }

  // The frame of a process that is inside.
  ghost predicate Working(s: System, pid: nat) {
    && Inv(s) && pid < |s.procs| && s.holder == Some(PlaceOf(pid, s.procs[pid])) && ShortQueues(s.committed)
    && Active(s.procs[pid]).Some? && Active(s.procs[pid]).value.inside && Active(s.procs[pid]).value.work.i <= 66
  }

  function WorkOf(s: System, pid: nat): Work
    requires pid < |s.procs| && Active(s.procs[pid]).Some?
  {
    Active(s.procs[pid]).value.work
  }

  // Only the memory and the work of that frame have changed.
  ghost predicate Further(s: System, s': System, pid: nat)
    requires pid < |s.procs| && Active(s.procs[pid]).Some?
  {
    && |s'.procs| == |s.procs| && Active(s'.procs[pid]).Some?
    && Active(s'.procs[pid]).value == Active(s.procs[pid]).value.(work := WorkOf(s', pid))
    && s' == s.(mem := s'.mem, procs := s.procs[pid := WithActive(s.procs[pid], Active(s'.procs[pid]))])
  }

  lemma StoreWorks(s: System, pid: nat)
    requires Working(s, pid) && !WorkOf(s, pid).done
    ensures var s' := Next(s, Store(pid));
      Working(s', pid) && Further(s, s', pid) && 0 <= ToGo(WorkOf(s', pid)) < ToGo(WorkOf(s, pid))
  {
    hide Micro, Underway, Recorded, Owned, ToGo;
    var p := s.procs[pid];
    var f := Active(p).value;
    NextKeeps(s, Store(pid));
    assert FramesFit(p);
    HolderShaped(s);
    MicroProgress(s.committed, s.mem, pid, IdOf(p.stage), f.op, f.work);
  }

  lemma HolderShaped(s: System)
    requires Inv(s) && s.holder.Some?
    ensures var at := s.holder.value; FrameAt(s.procs, at).Some?
    ensures var at := s.holder.value; var f := FrameAt(s.procs, at).value;
      Shaped(s.mem) && ValidCall(f.op, IdOf(s.procs[at.pid].stage)) && 1 <= f.work.i
  {
  }

  lemma FurtherStill(a: System, b: System, c: System, pid: nat)
    requires pid < |a.procs| && Active(a.procs[pid]).Some? && Further(a, b, pid) && Further(b, c, pid)
    ensures Further(a, c, pid)
  {
    assert a.procs[pid := b.procs[pid]][pid := c.procs[pid]] == a.procs[pid := c.procs[pid]];
  }

  // The frame that is inside works until it is done.
  lemma {:induction false} WorkEnds(s: System, pid: nat) returns (actions: seq<Action>)
    requires Working(s, pid) && ToGo(WorkOf(s, pid)) >= 0
    ensures var s' := RunFrom(s, actions); Working(s', pid) && Further(s, s', pid) && WorkOf(s', pid).done
    decreases ToGo(WorkOf(s, pid))
  {
    hide Next, Inv, RunFrom, ShortQueues;
    if WorkOf(s, pid).done {
      actions := [];
      NoAction(s);
      assert s.procs[pid := WithActive(s.procs[pid], Active(s.procs[pid]))] == s.procs;
    } else {
      var s1 := Next(s, Store(pid));
      StoreWorks(s, pid);
      var more := WorkEnds(s1, pid);
      actions := [Store(pid)] + more;
      OneAction(s, Store(pid));
      RunOn(s, [Store(pid)], more);
      FurtherStill(s, s1, RunFrom(s1, more), pid);
    }
  }

  lemma NoAction(s: System)
    ensures RunFrom(s, []) == s
  {
  }

  // What a quiet system is like after a section that ran alone.
  ghost predicate Ran(s: System, s': System, pid: nat, op: Op)
    requires pid < |s.procs| && Shaped(s.mem) && ValidCall(op, IdOf(s.procs[pid].stage))
  {
    var stage := s.procs[pid].stage;
    var (mem, result) := Atomic(s.mem, pid, IdOf(stage), op);
    && Quiet(s') && s'.mem == mem && s'.commits == s.commits + [Commit(pid, IdOf(stage), op, result)]
    && s'.procs == s.procs[pid := Proc(StageAfter(stage, op, result), None, None)]
  }

  predicate CanRun(stage: Stage, op: Op) {
    Allowed(stage, op) || (op == Flush && (stage.Serving? || stage.Left?))
  }

  // Entering from quiet: the frame is there and inside, and nothing else has changed.
  lemma Enters(s: System, pid: nat, op: Op) returns (actions: seq<Action>)
    requires Quiet(s) && pid < |s.procs| && CanRun(s.procs[pid].stage, op)
    ensures ValidCall(op, IdOf(s.procs[pid].stage))
    ensures var s' := RunFrom(s, actions);
      && Working(s', pid) && WorkOf(s', pid) == START && Active(s'.procs[pid]).value.op == op
      && s'.mem == s.mem && s'.committed == s.mem && s'.commits == s.commits
      && s'.procs == s.procs[pid := s'.procs[pid]] && s'.procs[pid].stage == s.procs[pid].stage
      && WithActive(s'.procs[pid], None) == s.procs[pid]
  {
    hide Recorded;
    var first := if op == Flush then Interrupt(pid) else Begin(pid, op);
    assert FramesFit(s.procs[pid]);
    NextKeeps(s, first);
    var s1 := Next(s, first);
    NextKeeps(s1, TestAndSet(pid));
    actions := [first] + [TestAndSet(pid)];
    OneAction(s, first);
    OneAction(s1, TestAndSet(pid));
    RunOn(s, [first], [TestAndSet(pid)]);
  }

  lemma Leaves(s: System, pid: nat)
    requires Working(s, pid) && WorkOf(s, pid).done
    ensures ValidCall(Active(s.procs[pid]).value.op, IdOf(s.procs[pid].stage))
    ensures var s', f, stage := Next(s, Unlock(pid)), Active(s.procs[pid]).value, s.procs[pid].stage;
      var (mem, result) := Atomic(s.committed, pid, IdOf(stage), f.op);
      && Inv(s') && !s'.lock && s'.mem == mem
      && s'.commits == s.commits + [Commit(pid, IdOf(stage), f.op, result)]
      && s'.procs == s.procs[pid := WithActive(s.procs[pid], None).(stage := StageAfter(stage, f.op, result))]
  {
    hide Micro, Atomic;
    NextKeeps(s, Unlock(pid));
  }

  lemma AtomicShort(m: Shared, pid: int, id: int, op: Op)
    requires ShortQueues(m) && ValidCall(op, id) && 0 <= id <= MAX_USERS
    ensures ShortQueues(Atomic(m, pid, id, op).0)
  {
    AtomicShaped(m, pid, id, op);
  }

  lemma Section(s: System, pid: nat, op: Op) returns (actions: seq<Action>)
    requires Quiet(s) && pid < |s.procs| && CanRun(s.procs[pid].stage, op)
    ensures ValidCall(op, IdOf(s.procs[pid].stage)) && Ran(s, RunFrom(s, actions), pid, op)
  {
    hide Next, Inv, RunFrom, Atomic;
    var enter := Enters(s, pid, op);
    var s1 := RunFrom(s, enter);
    var work := WorkEnds(s1, pid);
    var s2 := RunFrom(s1, work);
    Leaves(s2, pid);
    OneAction(s2, Unlock(pid));
    RunOn(s, enter, work);
    RunOn(s, enter + work, [Unlock(pid)]);
    actions := enter + work + [Unlock(pid)];
    AtomicShort(s.mem, pid, IdOf(s.procs[pid].stage), op);
    assert s2.procs == s.procs[pid := s2.procs[pid]];
  }

  // ----- the run -----

  lemma QuietStart(n: nat)
    ensures Quiet(Initial(n))
  {
    InitialInv(n);
  }

  const COME := Assign("", 0)

  // Process 0 has left slot 1, process 1 has taken it over.
  ghost predicate TakenOver(s: System) {
    && Quiet(s) && |s.procs| == 3 && |s.commits| == 3
    && s.procs[0].stage == Left(1) && s.procs[1].stage == Serving(1) && s.procs[2].stage == New
    && s.mem.users[1].online && s.mem.users[1].queue == [] && !s.mem.users[2].online
    && s.commits[2].pid == 1 && s.commits[2].op == COME && s.commits[2].result.id == Some(1)
  }

  lemma Gone(s: System) returns (actions: seq<Action>)
    requires s == Initial(3)
    ensures var s' := RunFrom(s, actions);
      && Quiet(s') && s'.procs == s.procs[0 := Proc(Left(1), None, None)] && |s'.commits| == 2
      && !s'.mem.users[1].online && !s'.mem.users[2].online
  {
    hide Next, Inv, RunFrom, Quiet;
    QuietStart(3);
    var come := Section(s, 0, COME);
    var s1 := RunFrom(s, come);
    assert s1.procs[0].stage == Serving(1);
    var go := Section(s1, 0, Cleanup);
    actions := come + go;
    RunOn(s, come, go);
  }

  lemma TakeOver() returns (actions: seq<Action>)
    ensures TakenOver(RunFrom(Initial(3), actions))
  {
    hide Next, Inv, RunFrom;
    var gone := Gone(Initial(3));
    var s := RunFrom(Initial(3), gone);
    assert FirstOffline(s.mem.users, 1) == Some(1) && s.procs[1].stage == New && s.procs[2].stage == New;
    var come := Section(s, 1, COME);
    assert RunFrom(s, come).commits[2] == RunFrom(s, come).commits[|s.commits|];
    actions := gone + come;
    RunOn(Initial(3), gone, come);
  }

  // Process 2 comes and tells slot 1 something.
  lemma Tell1(s: System) returns (actions: seq<Action>)
    requires TakenOver(s)
    ensures var s' := RunFrom(s, actions);
      && Quiet(s') && |s'.procs| == 3 && s'.procs[0].stage == Left(1) && s'.mem.users[1].queue == ["x"]
      && |s'.commits| == 5 && s'.commits[2] == s.commits[2] && !Resets(s'.commits[3], 1) && !Resets(s'.commits[4], 1)
  {
    hide Next, Inv, RunFrom;
    assert FirstOffline(s.mem.users, 2) == Some(2) && FirstOffline(s.mem.users, 1) == Some(2);
    var come := Section(s, 2, COME);
    var s1 := RunFrom(s, come);
    assert s1.procs[2].stage == Serving(2) && s1.mem.users[1] == s.mem.users[1];
    var tell := Section(s1, 2, Deliver(1, "x"));
    actions := come + tell;
    RunOn(s, come, tell);
  }

  // Process 0 comes and leaves; process 1 comes and gets the same slot; process 2 comes and tells it something; then the
  // handler of process 0 runs, which a signal meant for its own client may still do: it hands over what was accepted for
  // the client of process 1.
  lemma MessageAstray() returns (actions: seq<Action>, k: nat, j: nat)
    ensures var commits := Reach(3, actions).commits;
      && k < |commits| && commits[k].op.Flush? && commits[k].result.handed == ["x"]
      && CurrentLogin(commits, k, commits[k].id, j) && commits[j].pid != commits[k].pid
  {
    hide Next, Inv, RunFrom, Quiet, Reach;
    var first := TakeOver();
    var s := RunFrom(Initial(3), first);
    var second := Tell1(s);
    var s1 := RunFrom(s, second);
    var third := Section(s1, 0, Flush);
    actions := first + second + third;
    RunOn(Initial(3), first, second);
    RunOn(Initial(3), first + second, third);
    ReachIsRun(3, actions);
    k, j := 5, 2;
  }
}
