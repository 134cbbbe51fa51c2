/** To whom the messages waiting in a slot are handed. */
module Handover {
  import opened Commands
  import opened Registry
  import opened RegistryRuns
  import opened Sections
  import opened LockMachine
  import opened LockSafety

  // What the finished sections of a process have made of it.
  function StageOf(commits: seq<Commit>, pid: nat): Stage {
    if commits == [] then New
    else
      var before, c := StageOf(commits[..|commits| - 1], pid), commits[|commits| - 1];
      if c.pid == pid then StageAfter(before, c.op, c.result) else before
  }

  lemma StageSnoc(commits: seq<Commit>, c: Commit, pid: nat)
    ensures StageOf(commits + [c], pid) ==
            if c.pid == pid then StageAfter(StageOf(commits, pid), c.op, c.result) else StageOf(commits, pid)
  {
    assert (commits + [c])[..|commits|] == commits;
  }

  // Every online slot is the one its process serves, and the other way round.
  ghost predicate OwnedNow(commits: seq<Commit>) {
    && (forall pid: nat :: StageOf(commits, pid).Serving? ==>
          Online(Replay(commits), StageOf(commits, pid).id) && Replay(commits).users[StageOf(commits, pid).id].pid == pid)
    && (forall r :: Online(Replay(commits), r) ==>
          0 <= Replay(commits).users[r].pid && StageOf(commits, Replay(commits).users[r].pid) == Serving(r))
  }

  // A section acts for the user its process serves, or served.
  predicate ActsFor(before: seq<Commit>, c: Commit) {
    var stage := StageOf(before, c.pid);
    c.id == IdOf(stage) && (c.op.Flush? ==> stage.Serving? || stage.Left?)
  }

  ghost predicate Orderly(commits: seq<Commit>) {
    forall k :: 0 <= k < |commits| ==> OwnedNow(commits[..k]) && ActsFor(commits[..k], commits[k])
  }

  lemma OrderlySnoc(commits: seq<Commit>, c: Commit)
    requires Orderly(commits) && OwnedNow(commits) && ActsFor(commits, c)
    ensures Orderly(commits + [c])
  {
    hide OwnedNow, ActsFor;
    var all := commits + [c];
    assert all[..|commits|] == commits;
    forall k | 0 <= k < |all| ensures OwnedNow(all[..k]) && ActsFor(all[..k], all[k]) {
      if k < |commits| { assert all[..k] == commits[..k]; }
    }
  }

  ghost predicate Staged(s: System) {
    forall pid: nat :: StageOf(s.commits, pid) == if pid < |s.procs| then s.procs[pid].stage else New
  }

  lemma OwnedIsOwnedNow(s: System)
    requires Inv(s) && Staged(s)
    ensures OwnedNow(s.commits)
  {
    forall pid: nat | StageOf(s.commits, pid).Serving?
      ensures Online(s.committed, StageOf(s.commits, pid).id) && s.committed.users[StageOf(s.commits, pid).id].pid == pid
    {
      assert Owns(s.committed, pid, s.procs[pid]);
    }
  }

  lemma NextStaged(s: System, a: Action)
    requires Inv(s) && Staged(s) && Orderly(s.commits)
    ensures Staged(Next(s, a)) && Orderly(Next(s, a).commits)
  {
    hide Orderly, OwnedNow, Recorded, StageOf;
    var s' := Next(s, a);
    if s'.commits != s.commits {
      var p := s.procs[a.pid];
      var c := s'.commits[|s.commits|];
      OwnedIsOwnedNow(s);
      assert FramesFit(p);
      OrderlySnoc(s.commits, c);
      forall pid: nat { StageSnoc(s.commits, c, pid); }
    }
  }

  lemma {:induction false} ReachStaged(n: nat, actions: seq<Action>)
    ensures Staged(Reach(n, actions)) && Orderly(Reach(n, actions).commits)
  {
    if actions != [] {
      var k := |actions| - 1;
      ReachInv(n, actions[..k]);
      ReachStaged(n, actions[..k]);
      NextStaged(Reach(n, actions[..k]), actions[k]);
    }
  }

  // ----- logins -----

  predicate Resets(c: Commit, r: int) {
    (c.op.Assign? && c.result.id == Some(r)) || (c.op.Cleanup? && c.id == r)
  }

  // Section j is the login the slot serves when section k begins.
  ghost predicate CurrentLogin(commits: seq<Commit>, k: nat, r: int, j: nat)
    requires k <= |commits|
  {
    && j < k && commits[j].op.Assign? && commits[j].result.id == Some(r)
    && forall i :: j < i < k ==> !Resets(commits[i], r)
  }

  lemma ReplaySnoc(commits: seq<Commit>, k: nat)
    requires Sequential(commits) && k < |commits|
    ensures var c, m := commits[k], Replay(commits[..k]);
      Faithful(m, c) && Replay(commits[..k + 1]) == Atomic(m, c.pid, c.id, c.op).0
  {
    assert commits[..k + 1][..k] == commits[..k];
  }

  lemma NobodyYet(commits: seq<Commit>, r: int)
    requires 1 <= r <= MAX_USERS
    ensures !Online(Replay(commits[..0]), r) && Replay(commits[..0]).users[r].queue == []
  {
  }

  // Whoever is online came with the latest login of the slot; a slot that is offline holds no message.
  lemma {:induction false} SlotLogin(commits: seq<Commit>, k: nat, r: int) returns (j: nat)
    requires Sequential(commits) && k <= |commits| && 1 <= r <= MAX_USERS
    ensures var m := Replay(commits[..k]);
      if Online(m, r) then CurrentLogin(commits, k, r, j) && commits[j].pid == m.users[r].pid else m.users[r].queue == []
    decreases k
  {
    hide Atomic, Faithful, Replay;
    j := 0;
    if k == 0 {
      NobodyYet(commits, r);
    } else {
      var c, m := commits[k - 1], Replay(commits[..k - 1]);
      ReplaySnoc(commits, k - 1);
      j := SlotLogin(commits, k - 1, r);
      AtomicSlot(m, c, r);
      if c.op.Assign? && c.result.id == Some(r) { j := k - 1; }
    }
  }

  // What one section does to a slot.
  lemma AtomicSlot(m: Shared, c: Commit, r: int)
    requires Shaped(m) && Faithful(m, c) && 1 <= r <= MAX_USERS
    ensures var m' := Atomic(m, c.pid, c.id, c.op).0;
      && Shaped(m')
      && (c.op.Assign? && c.result.id == Some(r) ==> Online(m', r) && m'.users[r].pid == c.pid && m'.users[r].queue == [])
      && (c.op.Cleanup? && c.id == r ==> !Online(m', r) && m'.users[r].queue == [])
      && (!Resets(c, r) ==> Online(m', r) == Online(m, r) && m'.users[r].pid == m.users[r].pid)
      && (!Online(m, r) && m.users[r].queue == [] && !Online(m', r) ==> m'.users[r].queue == [])
  {
    AtomicShaped(m, c.pid, c.id, c.op);
  }

  // The messages accepted for a slot by sections j + 1 to k - 1.
  function AcceptedSince(commits: seq<Commit>, j: nat, k: nat, r: int): seq<string>
    requires k <= |commits|
  {
    if k <= j + 1 then []
    else
      AcceptedSince(commits, j, k - 1, r) +
      match commits[k - 1].op
      case Deliver(to, message) => if to == r && commits[k - 1].result.accepted then [Cut(message, MESSAGE_SIZE)] else []
      case _ => []
  }

  // The ledger of a slot is that of its current login.
  lemma {:induction false} LedgerSince(commits: seq<Commit>, j: nat, k: nat, r: int)
    requires k <= |commits| && CurrentLogin(commits, k, r, j)
    ensures LedgerOf(commits[..k], r).accepted == AcceptedSince(commits, j, k, r)
    decreases k
  {
    assert commits[..k][..k - 1] == commits[..k - 1];
    if j + 1 < k {
      LedgerSince(commits, j, k - 1, r);
      assert !Resets(commits[k - 1], r);
    }
  }

  lemma SequentialPrefix(commits: seq<Commit>, k: nat)
    requires Sequential(commits) && k <= |commits|
    ensures Sequential(commits[..k])
  {
    var before := commits[..k];
    forall i | 0 <= i < k ensures Faithful(Replay(before[..i]), before[i]) { assert before[..i] == commits[..i]; }
  }

  // Whatever a flush hands over was accepted for one login, the one the slot serves, and it goes to the client of that
  // login exactly if the process that flushes has not left. A process whose handler runs after its cleanupUser hands
  // the messages of its successor to its own client.
  lemma HandedToOwner(n: nat, actions: seq<Action>, k: nat) returns (j: nat)
    requires var commits := Reach(n, actions).commits; k < |commits| && commits[k].op.Flush? && commits[k].result.handed != []
    ensures var commits := Reach(n, actions).commits; var r := commits[k].id;
      && CurrentLogin(commits, k, r, j)
      && LedgerOf(commits[..k], r).handed + commits[k].result.handed == AcceptedSince(commits, j, k, r)
      && (commits[k].pid == commits[j].pid <==> !StageOf(commits[..k], commits[k].pid).Left?)
  {
    ReachInv(n, actions);
    ReachStaged(n, actions);
    j := HandedOf(Reach(n, actions).commits, k);
  }

  lemma OwnerFlushes(commits: seq<Commit>, k: nat)
    requires Orderly(commits) && k < |commits| && commits[k].op.Flush?
    ensures var r, m, stage := commits[k].id, Replay(commits[..k]), StageOf(commits[..k], commits[k].pid);
      && (stage.Left? || stage == Serving(r))
      && (1 <= r <= MAX_USERS && Online(m, r) ==> (m.users[r].pid == commits[k].pid <==> !stage.Left?))
  {
    assert OwnedNow(commits[..k]) && ActsFor(commits[..k], commits[k]);
  }

  lemma HandedOf(commits: seq<Commit>, k: nat) returns (j: nat)
    requires Sequential(commits) && Orderly(commits) && k < |commits| && commits[k].op.Flush? && commits[k].result.handed != []
    ensures var r := commits[k].id;
      && CurrentLogin(commits, k, r, j)
      && LedgerOf(commits[..k], r).handed + commits[k].result.handed == AcceptedSince(commits, j, k, r)
      && (commits[k].pid == commits[j].pid <==> !StageOf(commits[..k], commits[k].pid).Left?)
  {
    hide Orderly, Replay, StageOf, LedgerOf, AcceptedSince, Sequential;
    var c, r := commits[k], commits[k].id;
    OwnerFlushes(commits, k);
    FaithfulAt(commits, k);
    j := SlotLogin(commits, k, r);
    SequentialPrefix(commits, k);
    LedgerBalances(commits[..k], r);
    LedgerSince(commits, j, k, r);
  }

  lemma FaithfulAt(commits: seq<Commit>, k: nat)
    requires Sequential(commits) && k < |commits|
    ensures Faithful(Replay(commits[..k]), commits[k])
  {
  }
}
