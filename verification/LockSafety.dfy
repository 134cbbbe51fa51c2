/** What holds in every reachable state of the multi-process server, under every interleaving. */
module LockSafety {
  import opened Commands
  import opened Registry
  import opened RegistryRuns
  import opened Sections
  import opened LockMachine

  // At most one process, in its main program or in its handler, is inside a locked region.
  lemma MutualExclusion(n: nat, actions: seq<Action>, at: Place, at': Place)
    requires Inside(Reach(n, actions).procs, at) && Inside(Reach(n, actions).procs, at')
    ensures at == at' && Reach(n, actions).lock
  {
    ReachInv(n, actions);
  }

  // Processes between assignUser and cleanupUser hold distinct ids, and theirs are exactly the online slots.
  lemma ServingIdsDistinct(n: nat, actions: seq<Action>)
    ensures var s := Reach(n, actions);
      && (forall p: nat, q: nat :: p < |s.procs| && q < |s.procs| && p != q && s.procs[p].stage.Serving? && s.procs[q].stage.Serving?
            ==> s.procs[p].stage.id != s.procs[q].stage.id)
      && (!s.lock ==> Shaped(s.mem) && OnlineIds(s.mem) == set p: nat | p < |s.procs| && s.procs[p].stage.Serving? :: s.procs[p].stage.id)
  {
    ReachInv(n, actions);
    var s := Reach(n, actions);
    forall p: nat, q: nat | p < |s.procs| && q < |s.procs| && p != q && s.procs[p].stage.Serving? && s.procs[q].stage.Serving?
      ensures s.procs[p].stage.id != s.procs[q].stage.id
    {
      assert Owns(s.committed, p, s.procs[p]) && Owns(s.committed, q, s.procs[q]);
    }
    if !s.lock {
      assert s.mem == s.committed;
      var ids := set p: nat | p < |s.procs| && s.procs[p].stage.Serving? :: s.procs[p].stage.id;
      forall id | id in OnlineIds(s.mem) ensures id in ids {
        var p: nat := s.mem.users[id].pid;
        assert s.procs[p].stage == Serving(id);
      }
      forall id | id in ids ensures id in OnlineIds(s.mem) {
        var p: nat :| p < |s.procs| && s.procs[p].stage.Serving? && s.procs[p].stage.id == id;
        assert Owns(s.committed, p, s.procs[p]);
      }
    }
  }

  // Every interleaving amounts to running its finished sections one after another, each result included.
  lemma Serializable(n: nat, actions: seq<Action>)
    ensures var s := Reach(n, actions);
      Sequential(s.commits) && (!s.lock ==> s.mem == Replay(s.commits))
  {
    ReachInv(n, actions);
  }

  // Sections take effect in the order in which they end.
  lemma {:induction false} CommitsOnlyGrow(n: nat, actions: seq<Action>, k: nat)
    requires k <= |actions|
    ensures Reach(n, actions[..k]).commits <= Reach(n, actions).commits
  {
    if k == |actions| {
      assert actions[..k] == actions;
    } else {
      var before := actions[..|actions| - 1];
      CommitsOnlyGrow(n, before, k);
      assert before[..k] == actions[..k];
    }
  }

  // ----- the finished sections, read as events of the single-process server -----

  // A section that decides nothing is an event that changes no registry.
  function EventAt(c: Commit): Event {
    match EventOf(c.op, c.id)
    case Some(e) => e
    case None => Yell(c.id, "")
  }

  function Events(commits: seq<Commit>): (events: seq<Event>)
    ensures |events| == |commits|
    ensures forall k :: 0 <= k < |commits| ==> events[k] == EventAt(commits[k])
  {
    seq(|commits|, k requires 0 <= k < |commits| => EventAt(commits[k]))
  }

  // Agreement on who is online and which pipes exist, whatever the names.
  ghost predicate SamePresence(s: Single, m: Shared) {
    && Shaped(m)
    && s.clients.Keys == OnlineIds(m)
    && (forall a, b :: (a, b) in s.pipes <==> 1 <= a <= MAX_USERS && 1 <= b <= MAX_USERS && m.cells[a][b])
  }

  ghost predicate SameDecision(reply: Reply, c: Commit) {
    EventOf(c.op, c.id).Some? ==> reply.accepted == c.result.accepted && reply.id == c.result.id
  }

  lemma QueuesDoNotMatter(m: Shared, id: int, queue: seq<string>)
    requires Shaped(m) && 0 <= id <= MAX_USERS
    ensures var m' := SetQueue(m, id, queue);
      Shaped(m') && OnlineIds(m') == OnlineIds(m) && m'.cells == m.cells
  {
  }

  lemma LoginPresence(s: Single, m: Shared, pid: int, ip: string, port: int)
    requires SamePresence(s, m)
    ensures var (m', r) := Atomic(m, pid, 0, Assign(ip, port)); var (s', reply) := SingleStep(s, Login(ip, port));
      SamePresence(s', m') && reply.accepted == r.accepted && reply.id == r.id
  {
    LeastIsFirst(s.clients.Keys, m.users, 1);
    assert SingleStep(s, Login(ip, port)).0.clients.Keys == OnlineIds(Atomic(m, pid, 0, Assign(ip, port)).0);
  }

  lemma LogoutPresence(s: Single, m: Shared, pid: int, id: int)
    requires SamePresence(s, m) && Online(m, id)
    ensures id in s.clients
    ensures var (m', r) := Atomic(m, pid, id, Cleanup); var (s', reply) := SingleStep(s, Logout(id));
      SamePresence(s', m') && reply.accepted == r.accepted && reply.id == r.id
  {
    assert id in OnlineIds(m);
    var s', m' := SingleStep(s, Logout(id)).0, Atomic(m, pid, id, Cleanup).0;
    assert m'.cells == ClearCells(m.cells, id);
    assert s'.clients.Keys == OnlineIds(m');
  }

  lemma PipePresence(s: Single, m: Shared, id: int, peer: int, line: string)
    requires SamePresence(s, m) && Online(m, id)
    ensures id in s.clients
    ensures SingleReceive(s, id, peer, line).1.accepted == SharedReceive(m, id, peer, line).1.accepted
    ensures SamePresence(SingleReceive(s, id, peer, line).0, SharedReceive(m, id, peer, line).0)
    ensures SingleSend(s, id, peer, line).1.accepted == SharedSend(m, id, peer, line).1.accepted
    ensures SamePresence(SingleSend(s, id, peer, line).0, SharedSend(m, id, peer, line).0)
  {
    assert id in OnlineIds(m);
    assert peer in s.clients <==> peer in OnlineIds(m);
    var m1, m2 := SharedReceive(m, id, peer, line).0, SharedSend(m, id, peer, line).0;
    assert OnlineIds(m1) == OnlineIds(m) && OnlineIds(m2) == OnlineIds(m);
  }

  lemma NamePresence(s: Single, m: Shared, pid: int, id: int, newName: string)
    requires SamePresence(s, m) && Online(m, id)
    ensures SamePresence(SingleNext(s, Name(id, newName)).0, Atomic(m, pid, id, Rename(newName)).0)
  {
    assert id in OnlineIds(m);
    assert OnlineIds(Atomic(m, pid, id, Rename(newName)).0) == OnlineIds(m);
    assert SingleNext(s, Name(id, newName)).0.clients.Keys == s.clients.Keys;
  }

  lemma TellPresence(s: Single, m: Shared, id: int, target: int, text: string)
    requires SamePresence(s, m) && Online(m, id)
    ensures id in s.clients && SingleStep(s, Tell(id, target, text)).0 == s
    ensures SingleStep(s, Tell(id, target, text)).1.accepted == Online(m, target)
    ensures SingleStep(s, Tell(id, target, text)).1.id == None
  {
    assert id in OnlineIds(m);
    assert target in s.clients <==> target in OnlineIds(m);
  }

  lemma PresenceStep(s: Single, m: Shared, c: Commit)
    requires SamePresence(s, m) && Faithful(m, c)
    ensures SamePresence(SingleNext(s, EventAt(c)).0, Atomic(m, c.pid, c.id, c.op).0)
    ensures !c.op.Rename? ==> SameDecision(SingleNext(s, EventAt(c)).1, c)
  {
    hide OnlineIds;
    match c.op
    case Assign(ip, port) => LoginPresence(s, m, c.pid, ip, port);
    case Cleanup => LogoutPresence(s, m, c.pid, c.id);
    case Rename(newName) => NamePresence(s, m, c.pid, c.id, newName);
    case Deliver(r, message) => QueuesDoNotMatter(m, r, m.users[r].queue + [Cut(message, MESSAGE_SIZE)]);
    case Flush => QueuesDoNotMatter(m, c.id, []);
    case TakePipe(from, line) => PipePresence(s, m, c.id, from, line);
    case MakePipe(to, line) => PipePresence(s, m, c.id, to, line);
    case CheckTarget(target, text) => TellPresence(s, m, c.id, target, text);
    case Look =>
  }

  lemma EventsSnoc(commits: seq<Commit>, k: nat)
    requires k < |commits|
    ensures Events(commits)[..k] == Events(commits[..k])
    ensures SingleAfter(Events(commits[..k + 1])) == SingleNext(SingleAfter(Events(commits[..k])), EventAt(commits[k])).0
    ensures Sequential(commits) ==>
      Replay(commits[..k + 1]) == Atomic(Replay(commits[..k]), commits[k].pid, commits[k].id, commits[k].op).0
  {
    assert commits[..k + 1][..k] == commits[..k];
    assert Events(commits[..k + 1])[..k] == Events(commits[..k]);
    assert Sequential(commits) ==> Faithful(Replay(commits[..k]), commits[k]);
  }

  lemma NobodyAgrees()
    ensures Agree(NOBODY, AllOffline()) && SamePresence(NOBODY, AllOffline())
  {
    assert OnlineIds(AllOffline()) == {};
  }

  // Without any condition on names: presence, pipes and every decision but renaming are the single-process server's.
  lemma {:induction false} PresenceAgrees(commits: seq<Commit>, k: nat)
    requires Sequential(commits) && k <= |commits|
    ensures SamePresence(SingleAfter(Events(commits[..k])), Replay(commits[..k]))
  {
    if k == 0 {
      assert commits[..0] == [] && Events([]) == [];
      NobodyAgrees();
    } else {
      PresenceAgrees(commits, k - 1);
      EventsSnoc(commits, k - 1);
      PresenceStep(SingleAfter(Events(commits[..k - 1])), Replay(commits[..k - 1]), commits[k - 1]);
    }
  }

  lemma PresenceDecides(commits: seq<Commit>, k: nat)
    requires Sequential(commits) && k < |commits| && !commits[k].op.Rename?
    ensures SameDecision(SingleReply(Events(commits), k), commits[k])
  {
    PresenceAgrees(commits, k);
    EventsSnoc(commits, k);
    PresenceStep(SingleAfter(Events(commits[..k])), Replay(commits[..k]), commits[k]);
  }

  // The memory after some finished sections joins online users only.
  lemma CommittedLinks(commits: seq<Commit>, a: int, b: int)
    requires Sequential(commits) && 1 <= a <= MAX_USERS && 1 <= b <= MAX_USERS && Replay(commits).cells[a][b]
    ensures Online(Replay(commits), a) && Online(Replay(commits), b)
  {
    assert commits[..|commits|] == commits;
    PresenceAgrees(commits, |commits|);
    RunKeepsLinks(Events(commits));
    assert (a, b) in SingleAfter(Events(commits)).pipes;
    assert a in OnlineIds(Replay(commits)) && b in OnlineIds(Replay(commits));
  }

  // Somebody is inside cleanupUser for this user.
  ghost predicate BeingCleaned(s: System, id: int) {
    s.holder.Some? && var at := s.holder.value;
    FrameAt(s.procs, at).Some? && FrameAt(s.procs, at).value.op.Cleanup? && IdOf(s.procs[at.pid].stage) == id
  }

  lemma UnderwayLinks(s: System, a: int, b: int)
    requires Inv(s) && s.holder.Some? && 1 <= a <= MAX_USERS && 1 <= b <= MAX_USERS && s.mem.cells[a][b]
    requires var at := s.holder.value; !FrameAt(s.procs, at).value.work.done
    ensures s.committed.cells[a][b]
    ensures forall id :: 1 <= id <= MAX_USERS && Online(s.committed, id) ==> Online(s.mem, id) || BeingCleaned(s, id)
  {
    assert Underway(s.committed, s.mem, s.holder.value.pid, IdOf(s.procs[s.holder.value.pid].stage),
                    FrameAt(s.procs, s.holder.value).value.op, FrameAt(s.procs, s.holder.value).value.work);
  }

  // A section that is done but not yet left counts as finished.
  lemma DoneLinks(s: System, a: int, b: int)
    requires Inv(s) && s.holder.Some? && 1 <= a <= MAX_USERS && 1 <= b <= MAX_USERS && s.mem.cells[a][b]
    requires FrameAt(s.procs, s.holder.value).value.work.done
    ensures Online(s.mem, a) && Online(s.mem, b)
  {
    var at := s.holder.value;
    assert Inside(s.procs, at);
    var p := s.procs[at.pid];
    var f := FrameAt(s.procs, at).value;
    var c := Commit(at.pid, IdOf(p.stage), f.op, f.work.result);
    assert FramesFit(p) && Owns(s.committed, at.pid, p);
    SequentialSnoc(s.commits, c);
    CommittedLinks(s.commits + [c], a, b);
  }

  // In every reachable state a set flag joins two users each of whom is online or is being cleaned up by the process
  // inside; while nobody is inside, both are online.
  lemma PipesLinkOnlineUsers(n: nat, actions: seq<Action>, a: int, b: int)
    requires 1 <= a <= MAX_USERS && 1 <= b <= MAX_USERS
    requires var s := Reach(n, actions); Shaped(s.mem) && s.mem.cells[a][b]
    ensures var s := Reach(n, actions);
      && (Online(s.mem, a) || BeingCleaned(s, a)) && (Online(s.mem, b) || BeingCleaned(s, b))
      && (!s.lock ==> Online(s.mem, a) && Online(s.mem, b))
  {
    ReachInv(n, actions);
    var s := Reach(n, actions);
    if s.holder == None {
      CommittedLinks(s.commits, a, b);
    } else if FrameAt(s.procs, s.holder.value).value.work.done {
      DoneLinks(s, a, b);
    } else {
      UnderwayLinks(s, a, b);
      CommittedLinks(s.commits, a, b);
    }
  }

  predicate Took(c: Commit, a: int, b: int) {
    c.op.TakePipe? && c.id == b && c.op.from == a && c.result.accepted
  }

  predicate Made(c: Commit, a: int, b: int) {
    c.op.MakePipe? && c.id == a && c.op.to == b && c.result.accepted
  }

  // A section that neither uses the pipe from a to b nor begins or ends a login of a or b.
  predicate LeavesAlone(c: Commit, a: int, b: int) {
    && !Took(c, a, b) && !Made(c, a, b)
    && (c.op.Cleanup? ==> c.id != a && c.id != b)
    && (c.op.Assign? ==> c.result.id != Some(a) && c.result.id != Some(b))
  }

  ghost predicate TakesFrom(commits: seq<Commit>, k: nat, j: nat, a: int, b: int)
    requires k < |commits|
  {
    j < k && Made(commits[j], a, b) && forall i :: j < i < k ==> LeavesAlone(commits[i], a, b)
  }

  lemma SameUse(events: seq<Event>, c: Commit, i: nat, a: int, b: int)
    requires i < |events| && events[i] == EventAt(c)
    requires !c.op.Rename? ==> SameDecision(SingleReply(events, i), c)
    ensures Took(c, a, b) <==> Receives(events, i, a, b)
    ensures Made(c, a, b) <==> Sends(events, i, a, b)
    ensures LeavesAlone(c, a, b) <==> Undisturbed(events, i, a, b)
  {
  }

  // Every flag taken was set by exactly one earlier section, during the current logins of both users.
  lemma TakeConsumesOneMake(n: nat, actions: seq<Action>, k: nat, a: int, b: int)
    requires var s := Reach(n, actions); k < |s.commits| && Took(s.commits[k], a, b)
    ensures var commits := Reach(n, actions).commits;
      && (exists j: nat :: TakesFrom(commits, k, j, a, b))
      && (forall j: nat, j': nat :: TakesFrom(commits, k, j, a, b) && TakesFrom(commits, k, j', a, b) ==> j == j')
      && (forall k': nat, j: nat :: k' < k && Took(commits[k'], a, b) && TakesFrom(commits, k, j, a, b) ==> !TakesFrom(commits, k', j, a, b))
  {
    hide Sequential;
    ReachInv(n, actions);
    var commits := Reach(n, actions).commits;
    var events := Events(commits);
    forall i: nat | i < |commits|
      ensures Took(commits[i], a, b) <==> Receives(events, i, a, b)
      ensures Made(commits[i], a, b) <==> Sends(events, i, a, b)
      ensures LeavesAlone(commits[i], a, b) <==> Undisturbed(events, i, a, b)
    {
      if !commits[i].op.Rename? { PresenceDecides(commits, i); }
      SameUse(events, commits[i], i, a, b);
    }
    forall k': nat, j: nat | k' < |commits|
      ensures TakesFrom(commits, k', j, a, b) <==> Consumes(events, k', j, a, b)
    {
    }
    ReceiveConsumesOneSend(events, k, a, b);
  }

  // ----- with names that fit -----

  predicate NamesFit(commits: seq<Commit>) {
    forall k :: 0 <= k < |commits| && commits[k].op.Rename? ==> Token(commits[k].op.newName) && Keepable(commits[k].op.newName, NAME_SIZE)
  }

  lemma AgreeStep(s: Single, m: Shared, c: Commit)
    requires Agree(s, m) && Faithful(m, c) && Fits(EventAt(c))
    ensures Agree(SingleNext(s, EventAt(c)).0, Atomic(m, c.pid, c.id, c.op).0)
    ensures SameDecision(SingleNext(s, EventAt(c)).1, c)
  {
    assert 1 <= c.id <= MAX_USERS ==> (Online(m, c.id) <==> c.id in OnlineIds(m));
    match c.op
    case Deliver(r, message) => QueuesDoNotMatter(m, r, m.users[r].queue + [Cut(message, MESSAGE_SIZE)]);
    case Flush => QueuesDoNotMatter(m, c.id, []);
    case Look =>
    case _ => Simulates(s, m, c.pid, EventAt(c));
  }

  lemma AgreeNext(commits: seq<Commit>, k: nat)
    requires Sequential(commits) && NamesFit(commits) && k < |commits|
    requires Agree(SingleAfter(Events(commits[..k])), Replay(commits[..k]))
    ensures Agree(SingleAfter(Events(commits[..k + 1])), Replay(commits[..k + 1]))
    ensures SameDecision(SingleReply(Events(commits), k), commits[k])
  {
    hide Agree, Atomic, SingleStep;
    EventsSnoc(commits, k);
    AgreeStep(SingleAfter(Events(commits[..k])), Replay(commits[..k]), commits[k]);
  }

  lemma {:induction false} RegistryAgrees(commits: seq<Commit>, k: nat)
    requires Sequential(commits) && NamesFit(commits) && k <= |commits|
    ensures Agree(SingleAfter(Events(commits[..k])), Replay(commits[..k]))
  {
    if k == 0 {
      assert commits[..0] == [] && Events([]) == [];
      NobodyAgrees();
    } else {
      RegistryAgrees(commits, k - 1);
      AgreeNext(commits, k - 1);
    }
  }

  lemma NamesStayUnique(s: Single, m: Shared)
    requires Agree(s, m) && UniqueNames(s)
    ensures UniqueOnline(m)
  {
  }

  ghost predicate UniqueOnline(m: Shared)
    requires Shaped(m)
  {
    forall a, b :: Online(m, a) && Online(m, b) && a != b && m.users[a].name == m.users[b].name ==> m.users[a].name == DEFAULT_NAME
  }

  lemma TypedNames(commits: seq<Commit>)
    requires NamesFit(commits)
    ensures UniqueNames(SingleAfter(Events(commits)))
  {
    RunKeepsNames(Events(commits));
  }

  lemma CommitsRefine(commits: seq<Commit>)
    requires Sequential(commits) && NamesFit(commits)
    ensures Agree(SingleAfter(Events(commits)), Replay(commits)) && UniqueOnline(Replay(commits))
  {
    assert commits[..|commits|] == commits;
    RegistryAgrees(commits, |commits|);
    TypedNames(commits);
    NamesStayUnique(SingleAfter(Events(commits)), Replay(commits));
  }

  lemma CommitDecides(commits: seq<Commit>, k: nat)
    requires Sequential(commits) && NamesFit(commits) && k < |commits|
    ensures SameDecision(SingleReply(Events(commits), k), commits[k])
  {
    RegistryAgrees(commits, k);
    AgreeNext(commits, k);
  }

  // As long as every name typed fits the buffer, any interleaving of processes decides as the single-process server
  // would, and two online users share a name only if neither has chosen one.
  lemma RefinesSingleServer(n: nat, actions: seq<Action>)
    requires NamesFit(Reach(n, actions).commits)
    ensures var s := Reach(n, actions); !s.lock ==> Agree(SingleAfter(Events(s.commits)), s.mem) && UniqueOnline(s.mem)
    ensures var s := Reach(n, actions);
      forall k :: 0 <= k < |s.commits| ==> SameDecision(SingleReply(Events(s.commits), k), s.commits[k])
  {
    ReachInv(n, actions);
    var commits := Reach(n, actions).commits;
    CommitsRefine(commits);
    forall k | 0 <= k < |commits| ensures SameDecision(SingleReply(Events(commits), k), commits[k]) {
      CommitDecides(commits, k);
    }
  }

  // ----- the message ledger -----

  // What has been accepted for a slot and what has been handed to flushing writes, since the slot was last reset.
  datatype Ledger = Ledger(accepted: seq<string>, handed: seq<string>)

  function Book(l: Ledger, c: Commit, r: int): Ledger {
    match c.op
    case Assign(_, _) => if c.result.id == Some(r) then Ledger([], []) else l
    case Cleanup => if c.id == r then Ledger([], []) else l
    case Deliver(receiver, message) =>
      if receiver == r && c.result.accepted then l.(accepted := l.accepted + [Cut(message, MESSAGE_SIZE)]) else l
    case Flush => if c.id == r then l.(handed := l.handed + c.result.handed) else l
    case _ => l
  }

  function LedgerOf(commits: seq<Commit>, r: int): Ledger {
    if commits == [] then Ledger([], []) else Book(LedgerOf(commits[..|commits| - 1], r), commits[|commits| - 1], r)
  }

  predicate Balanced(m: Shared, l: Ledger, r: int)
    requires Shaped(m) && 1 <= r <= MAX_USERS
  {
    l.handed + m.users[r].queue == l.accepted && |m.users[r].queue| <= MAX_MESSAGES
  }

  lemma BookBalances(m: Shared, l: Ledger, c: Commit, r: int)
    requires Shaped(m) && 1 <= r <= MAX_USERS && Balanced(m, l, r) && Faithful(m, c)
    requires !m.users[r].online ==> m.users[r].queue == [] || l.accepted == l.handed + m.users[r].queue
    ensures Shaped(Atomic(m, c.pid, c.id, c.op).0) && Balanced(Atomic(m, c.pid, c.id, c.op).0, Book(l, c, r), r)
  {
    AtomicShaped(m, c.pid, c.id, c.op);
    if c.op.Cleanup? { assert Online(m, c.id); }
  }

  lemma {:induction false} LedgerBalances(commits: seq<Commit>, r: int)
    requires Sequential(commits) && 1 <= r <= MAX_USERS
    ensures Balanced(Replay(commits), LedgerOf(commits, r), r)
  {
    if commits != [] {
      var n := |commits| - 1;
      var before := commits[..n];
      assert Sequential(before) by {
        forall k | 0 <= k < n ensures Faithful(Replay(before[..k]), before[k]) { assert before[..k] == commits[..k]; }
      }
      LedgerBalances(before, r);
      assert Faithful(Replay(before), commits[n]);
      BookBalances(Replay(before), LedgerOf(before, r), commits[n], r);
    }
  }

  lemma UnderwayQueues(m0: Shared, m: Shared, pid: int, id: int, op: Op, w: Work, r: int)
    requires Shaped(m0) && ValidCall(op, id) && Underway(m0, m, pid, id, op, w) && 1 <= r <= MAX_USERS
    requires |m0.users[r].queue| <= MAX_MESSAGES
    ensures |m.users[r].queue| <= MAX_MESSAGES
  {
  }

  // Since a slot was last reset, the messages handed over and then those still queued are the accepted ones, each cut at
  // its first zero byte and to 2047 bytes, in order of acceptance; a flush in progress has handed over a prefix; never are more than 64 queued.
  lemma MessagesConserved(n: nat, actions: seq<Action>, r: int)
    requires 1 <= r <= MAX_USERS
    ensures var s := Reach(n, actions); var l := LedgerOf(s.commits, r);
      && Shaped(s.mem) && |s.mem.users[r].queue| <= MAX_MESSAGES
      && (!s.lock ==> l.handed + s.mem.users[r].queue == l.accepted)
      && (forall at: Place :: Inside(s.procs, at) && FrameAt(s.procs, at).value.op == Flush && IdOf(s.procs[at.pid].stage) == r
            ==> l.handed + FrameAt(s.procs, at).value.work.result.handed <= l.accepted)
  {
    hide Sequential, Reach;
    ReachInv(n, actions);
    var s := Reach(n, actions);
    LedgerBalances(s.commits, r);
    if s.holder.Some? {
      var at := s.holder.value;
      var f, id := FrameAt(s.procs, at).value, IdOf(s.procs[at.pid].stage);
      UnderwayQueues(s.committed, s.mem, at.pid, id, f.op, f.work, r);
      if f.op == Flush && id == r {
        assert f.work.result.handed <= s.committed.users[r].queue;
      }
    }
  }
}
