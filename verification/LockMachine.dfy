/** Many server processes and their signal handlers, interleaved store by store around one test-and-set lock. */
module LockMachine {
  import opened Commands
  import opened Registry
  import opened RegistryRuns
  import opened Sections

  // A locked region being run: spinning until inside, then working until done.
  datatype Frame = Frame(op: Op, inside: bool, work: Work)

  // New before assignUser, Serving until cleanupUser has ended, Left afterwards; Refused found no free slot.
  datatype Stage = New | Serving(id: int) | Left(id: int) | Refused

  // While the handler runs the main program stands still, wherever it was.
  datatype Proc = Proc(stage: Stage, main: Option<Frame>, handler: Option<Frame>)

  datatype Place = Place(pid: nat, handler: bool)

  datatype Commit = Commit(pid: nat, id: int, op: Op, result: Result)

  // holder, committed and commits are history: who is inside, the memory as it was when the lock was last free,
  // and the sections finished so far.
  datatype System = System(
    lock: bool, mem: Shared, procs: seq<Proc>,
    holder: Option<Place>, committed: Shared, commits: seq<Commit>)

  datatype Action =
    | Begin(pid: nat, op: Op)
    | Interrupt(pid: nat)
    | TestAndSet(pid: nat)
    | Store(pid: nat)
    | Unlock(pid: nat)

  function IdOf(stage: Stage): int {
    match stage
    case Serving(id) => id
    case Left(id) => id
    case _ => 0
  }

  // The sections the main program of a process can reach at each stage.
  predicate Allowed(stage: Stage, op: Op) {
    match stage
    case New => op.Assign?
    case Serving(id) => !op.Assign? && !op.Flush? && (op.Deliver? ==> 1 <= op.receiver <= MAX_USERS && op.receiver != id)
    case Left(id) => op.Look? || (op.Deliver? && 1 <= op.receiver <= MAX_USERS && op.receiver != id)
    case Refused => false
  }

  function Initial(n: nat): System {
    System(false, AllOffline(), seq(n, _ => Proc(New, None, None)), None, AllOffline(), [])
  }

  function Active(p: Proc): Option<Frame> {
    if p.handler.Some? then p.handler else p.main
  }

  function PlaceOf(pid: nat, p: Proc): Place {
    Place(pid, p.handler.Some?)
  }

  function WithActive(p: Proc, f: Option<Frame>): Proc {
    if p.handler.Some? then p.(handler := f) else p.(main := f)
  }

  function SetProc(s: System, pid: nat, p: Proc): System
    requires pid < |s.procs|
  {
    s.(procs := s.procs[pid := p])
  }

  function StageAfter(stage: Stage, op: Op, result: Result): Stage {
    match op
    case Assign(_, _) => if result.accepted && result.id.Some? then Serving(result.id.value) else Refused
    case Cleanup => Left(IdOf(stage))
    case _ => stage
  }

  predicate Ready(s: System, p: Proc) {
    && Active(p).Some? && Active(p).value.inside
    && Shaped(s.mem) && ValidCall(Active(p).value.op, IdOf(p.stage)) && 1 <= Active(p).value.work.i
  }

  // One indivisible action; one that is not enabled changes nothing.
  function Next(s: System, a: Action): System {
    if a.pid >= |s.procs| then s
    else
      var p := s.procs[a.pid];
      match a
      case Begin(pid, op) =>
        if p.main == None && p.handler == None && Allowed(p.stage, op)
        then SetProc(s, pid, p.(main := Some(Frame(op, false, START)))) else s
      case Interrupt(pid) =>
        if p.handler == None && (p.stage.Serving? || p.stage.Left?)
        then SetProc(s, pid, p.(handler := Some(Frame(Flush, false, START)))) else s
      case TestAndSet(pid) =>
        if Active(p).Some? && !Active(p).value.inside && !s.lock
        then SetProc(s, pid, WithActive(p, Some(Active(p).value.(inside := true))))
             .(lock := true, holder := Some(PlaceOf(pid, p)))
        else s
      case Store(pid) =>
        if Ready(s, p) && !Active(p).value.work.done then
          var f := Active(p).value;
          var (mem', w') := Micro(s.mem, pid, IdOf(p.stage), f.op, f.work);
          SetProc(s, pid, WithActive(p, Some(f.(work := w')))).(mem := mem')
        else s
      case Unlock(pid) =>
        if Ready(s, p) && Active(p).value.work.done then
          var f := Active(p).value;
          SetProc(s, pid, WithActive(p, None).(stage := StageAfter(p.stage, f.op, f.work.result)))
          .(lock := false, holder := None, committed := s.mem,
            commits := s.commits + [Commit(pid, IdOf(p.stage), f.op, f.work.result)])
        else s
  }

  function Reach(n: nat, actions: seq<Action>): System {
    if actions == [] then Initial(n) else Next(Reach(n, actions[..|actions| - 1]), actions[|actions| - 1])
  }

  // ----- the finished sections, replayed one after another -----

  function Replay(commits: seq<Commit>): (m: Shared)
    ensures Shaped(m)
  {
    if commits == [] then AllOffline()
    else
      var m, c := Replay(commits[..|commits| - 1]), commits[|commits| - 1];
      if ValidCall(c.op, c.id) then Atomic(m, c.pid, c.id, c.op).0 else m
  }

  // Each section found an actor that was online and gave the result it would have given alone.
  predicate Faithful(before: Shared, c: Commit)
    requires Shaped(before)
  {
    && ValidCall(c.op, c.id)
    && c.result == Atomic(before, c.pid, c.id, c.op).1
    && (EventOf(c.op, c.id).Some? && !c.op.Assign? ==> Online(before, c.id))
  }

  predicate Sequential(commits: seq<Commit>) {
    forall k :: 0 <= k < |commits| ==> Faithful(Replay(commits[..k]), commits[k])
  }

  lemma SequentialSnoc(commits: seq<Commit>, c: Commit)
    requires Sequential(commits) && Faithful(Replay(commits), c)
    ensures Sequential(commits + [c])
    ensures Replay(commits + [c]) == Atomic(Replay(commits), c.pid, c.id, c.op).0
  {
    var all := commits + [c];
    assert all[..|commits|] == commits;
    forall k | 0 <= k < |all| ensures Faithful(Replay(all[..k]), all[k]) {
      if k < |commits| { assert all[..k] == commits[..k]; }
    }
  }

  // ----- the invariant -----

  // The frame that runs at a place, if there is one.
  function FrameAt(procs: seq<Proc>, at: Place): Option<Frame> {
    if at.pid >= |procs| then None
    else if at.handler then procs[at.pid].handler else procs[at.pid].main
  }

  predicate Inside(procs: seq<Proc>, at: Place) {
    FrameAt(procs, at).Some? && FrameAt(procs, at).value.inside
  }

  predicate FramesFit(p: Proc) {
    && (p.main.Some? ==> Allowed(p.stage, p.main.value.op) && (!p.main.value.inside ==> p.main.value.work == START))
    && (p.handler.Some? ==>
          && (p.stage.Serving? || p.stage.Left?) && p.handler.value.op == Flush
          && (!p.handler.value.inside ==> p.handler.value.work == START))
    && (p.stage.Serving? || p.stage.Left? ==> 1 <= p.stage.id <= MAX_USERS)
  }

  predicate Owns(m: Shared, pid: nat, p: Proc)
    requires Shaped(m)
  {
    p.stage.Serving? ==> Online(m, p.stage.id) && m.users[p.stage.id].pid == pid
  }

  // Every online slot belongs to the process that serves it, and every serving process has its slot.
  ghost predicate Owned(m: Shared, procs: seq<Proc>)
    requires Shaped(m)
  {
    && (forall pid: nat :: pid < |procs| ==> Owns(m, pid, procs[pid]))
    && (forall id :: 1 <= id <= MAX_USERS && m.users[id].online ==>
          0 <= m.users[id].pid < |procs| && procs[m.users[id].pid].stage == Serving(id))
  }

  ghost predicate HolderWorks(s: System)
    requires Shaped(s.committed)
  {
    match s.holder
    case None => !s.lock && s.mem == s.committed
    case Some(at) =>
      && s.lock && FrameAt(s.procs, at).Some?
      && ValidCall(FrameAt(s.procs, at).value.op, IdOf(s.procs[at.pid].stage))
      && Underway(s.committed, s.mem, at.pid, IdOf(s.procs[at.pid].stage), FrameAt(s.procs, at).value.op, FrameAt(s.procs, at).value.work)
  }

  // Exactly the holder is inside, and frames are where the program can have got to.
  ghost predicate Tidy(procs: seq<Proc>, holder: Option<Place>) {
    && (forall at: Place :: Inside(procs, at) <==> holder == Some(at))
    && (forall pid: nat :: pid < |procs| ==> FramesFit(procs[pid]))
  }

  ghost predicate Recorded(s: System) {
    Shaped(s.committed) && s.committed == Replay(s.commits) && Sequential(s.commits)
  }

  ghost predicate Inv(s: System) {
    Recorded(s) && HolderWorks(s) && Tidy(s.procs, s.holder) && Owned(s.committed, s.procs)
  }

  lemma InitialInv(n: nat)
    ensures Inv(Initial(n))
  {
    assert AllOffline().users[1] == EMPTY_SLOT;
  }

  // Which sections move a slot between owners.
  lemma AtomicOwners(m: Shared, pid: nat, id: int, op: Op)
    requires Shaped(m) && ValidCall(op, id)
    ensures var (m', r) := Atomic(m, pid, id, op);
            forall k :: 1 <= k <= MAX_USERS ==>
              if op.Assign? && r.id == Some(k) then r.accepted && !m.users[k].online && m'.users[k].online && m'.users[k].pid == pid
              else if op.Cleanup? && k == id then !m'.users[k].online
              else m'.users[k].online == m.users[k].online && m'.users[k].pid == m.users[k].pid
    ensures op.Assign? ==> var r := Atomic(m, pid, id, op).1; r.accepted == r.id.Some? && (r.id.Some? ==> 1 <= r.id.value <= MAX_USERS)
  {
  }

  lemma OwnedKept(m: Shared, procs: seq<Proc>, pid: nat, p: Proc, op: Op)
    requires Shaped(m) && Owned(m, procs) && pid < |procs|
    requires ValidCall(op, IdOf(procs[pid].stage))
    requires Allowed(procs[pid].stage, op) || op.Flush?
    requires p.stage == StageAfter(procs[pid].stage, op, Atomic(m, pid, IdOf(procs[pid].stage), op).1)
    ensures var m' := Atomic(m, pid, IdOf(procs[pid].stage), op).0; Shaped(m') && Owned(m', procs[pid := p])
  {
    var id := IdOf(procs[pid].stage);
    AtomicShaped(m, pid, id, op);
    AtomicOwners(m, pid, id, op);
  }

  // A process that enters no section and stays at its stage disturbs nobody.
  lemma BeginTidy(procs: seq<Proc>, holder: Option<Place>, pid: nat, p: Proc)
    requires Tidy(procs, holder) && pid < |procs| && FramesFit(p)
    requires p.main == procs[pid].main || (procs[pid].main == None && p.main.Some? && !p.main.value.inside)
    requires p.handler == procs[pid].handler || (procs[pid].handler == None && p.handler.Some? && !p.handler.value.inside)
    ensures Tidy(procs[pid := p], holder)
    ensures holder.Some? ==> FrameAt(procs[pid := p], holder.value) == FrameAt(procs, holder.value)
  {
    forall at: Place ensures Inside(procs[pid := p], at) <==> holder == Some(at) {
      assert Inside(procs[pid := p], at) <==> Inside(procs, at);
    }
    assert holder.Some? ==> Inside(procs, holder.value);
  }

  lemma SameStageOwned(m: Shared, procs: seq<Proc>, pid: nat, p: Proc)
    requires Shaped(m) && Owned(m, procs) && pid < |procs| && p.stage == procs[pid].stage
    ensures Owned(m, procs[pid := p])
  {
  }

  lemma BeginKeeps(s: System, a: Action)
    requires Inv(s) && (a.Begin? || a.Interrupt?)
    ensures Inv(Next(s, a))
  {
    hide Shaped;
    var s' := Next(s, a);
    if s' != s {
      var p := s'.procs[a.pid];
      BeginTidy(s.procs, s.holder, a.pid, p);
      SameStageOwned(s.committed, s.procs, a.pid, p);
    }
  }

  // The frame that runs is replaced; the others are as they were.
  lemma ReplaceTidy(procs: seq<Proc>, holder: Option<Place>, holder': Option<Place>, pid: nat, p: Proc, f: Option<Frame>)
    requires Tidy(procs, holder) && pid < |procs| && FramesFit(p)
    requires p == WithActive(procs[pid], f).(stage := p.stage)
    requires holder == None || holder == Some(PlaceOf(pid, procs[pid]))
    requires holder' == if f.Some? && f.value.inside then Some(PlaceOf(pid, procs[pid])) else None
    ensures Tidy(procs[pid := p], holder')
  {
    forall at: Place ensures Inside(procs[pid := p], at) <==> holder' == Some(at) {
      if at != PlaceOf(pid, procs[pid]) {
        assert Inside(procs[pid := p], at) <==> Inside(procs, at);
      }
    }
  }

  lemma TestAndSetKeeps(s: System, a: Action)
    requires Inv(s) && a.TestAndSet?
    ensures Inv(Next(s, a))
  {
    var s' := Next(s, a);
    if s' != s {
      var p, p' := s.procs[a.pid], s'.procs[a.pid];
      ReplaceTidy(s.procs, None, s'.holder, a.pid, p', Active(p'));
      SameStageOwned(s.committed, s.procs, a.pid, p');
      StartUnderway(s.committed, a.pid, IdOf(p.stage), Active(p).value.op);
    }
  }

  lemma StoreKeeps(s: System, a: Action)
    requires Inv(s) && a.Store?
    ensures Inv(Next(s, a))
  {
    var s' := Next(s, a);
    if s' != s {
      var p, p' := s.procs[a.pid], s'.procs[a.pid];
      assert Inside(s.procs, PlaceOf(a.pid, p));
      ReplaceTidy(s.procs, s.holder, s.holder, a.pid, p', Active(p'));
      SameStageOwned(s.committed, s.procs, a.pid, p');
      MicroUnderway(s.committed, s.mem, a.pid, IdOf(p.stage), Active(p).value.op, Active(p).value.work);
    }
  }

  // A finished section had its one-step effect, and its actor was entitled to it.
  lemma HolderIsFaithful(s: System, pid: nat)
    requires Inv(s) && pid < |s.procs| && Active(s.procs[pid]).Some? && Active(s.procs[pid]).value.inside
    requires Active(s.procs[pid]).value.work.done
    ensures var p := s.procs[pid]; var f := Active(p).value;
            && s.holder == Some(PlaceOf(pid, p))
            && Faithful(s.committed, Commit(pid, IdOf(p.stage), f.op, f.work.result))
            && (Allowed(p.stage, f.op) || f.op.Flush?)
            && s.mem == Atomic(s.committed, pid, IdOf(p.stage), f.op).0
  {
    var p := s.procs[pid];
    assert Inside(s.procs, PlaceOf(pid, p));
    assert FramesFit(p) && Owns(s.committed, pid, p);
  }

  lemma StageAfterFits(p: Proc, m: Shared, pid: nat, op: Op)
    requires Shaped(m) && FramesFit(p) && Active(p).Some? && Active(p).value.op == op && ValidCall(op, IdOf(p.stage))
    ensures FramesFit(WithActive(p, None).(stage := StageAfter(p.stage, op, Atomic(m, pid, IdOf(p.stage), op).1)))
  {
    AtomicOwners(m, pid, IdOf(p.stage), op);
  }

  lemma UnlockKeeps(s: System, a: Action)
    requires Inv(s) && a.Unlock?
    ensures Inv(Next(s, a))
  {
    var s' := Next(s, a);
    if s' != s {
      var p, p' := s.procs[a.pid], s'.procs[a.pid];
      var f := Active(p).value;
      var id := IdOf(p.stage);
      HolderIsFaithful(s, a.pid);
      StageAfterFits(p, s.committed, a.pid, f.op);
      ReplaceTidy(s.procs, s.holder, None, a.pid, p', None);
      SequentialSnoc(s.commits, Commit(a.pid, id, f.op, f.work.result));
      OwnedKept(s.committed, s.procs, a.pid, p', f.op);
    }
  }

  lemma NextKeeps(s: System, a: Action)
    requires Inv(s)
    ensures Inv(Next(s, a))
  {
    match a
    case Begin(_, _) => BeginKeeps(s, a);
    case Interrupt(_) => BeginKeeps(s, a);
    case TestAndSet(_) => TestAndSetKeeps(s, a);
    case Store(_) => StoreKeeps(s, a);
    case Unlock(_) => UnlockKeeps(s, a);
  }

  lemma {:induction false} ReachInv(n: nat, actions: seq<Action>)
    ensures Inv(Reach(n, actions))
  {
    if actions == [] {
      InitialInv(n);
    } else {
      var k := |actions| - 1;
      ReachInv(n, actions[..k]);
      NextKeeps(Reach(n, actions[..k]), actions[k]);
    }
  }
}
