/** The critical sections of the multi-process server, store by store, and what each one does as a whole. */
module Sections {
  import opened Commands
  import opened Registry
  import opened RegistryRuns

  const MAX_MESSAGES := 64
  const MESSAGE_SIZE := 2048

  datatype Op =
    | Assign(ip: string, port: int)
    | Cleanup
    | Rename(newName: string)
    | CheckTarget(target: int, text: string)
    | Look
    | TakePipe(from: int, line: string)
    | MakePipe(to: int, line: string)
    | Deliver(receiver: int, message: string)
    | Flush

  // What a section tells its caller: a decision, an id, the messages handed to the socket.
  datatype Result = Result(accepted: bool, id: Option<int>, handed: seq<string>)

  function Verdict(accepted: bool): Result {
    Result(accepted, None, [])
  }

  // The registry event a section decides, if any. id is the user the process serves.
  function EventOf(op: Op, id: int): Option<Event> {
    match op
    case Assign(ip, port) => Some(Login(ip, port))
    case Cleanup => Some(Logout(id))
    case Rename(newName) => Some(Name(id, newName))
    case CheckTarget(target, text) => Some(Tell(id, target, text))
    case TakePipe(from, line) => Some(Receive(id, from, line))
    case MakePipe(to, line) => Some(Send(id, to, line))
    case Look => None
    case Deliver(_, _) => None
    case Flush => None
  }

  predicate ValidCall(op: Op, id: int) {
    && (!op.Assign? ==> 1 <= id <= MAX_USERS)
    && (op.Deliver? ==> 1 <= op.receiver <= MAX_USERS)
  }

  function SetQueue(m: Shared, id: int, queue: seq<string>): Shared
    requires Shaped(m) && 0 <= id <= MAX_USERS
  {
    m.(users := m.users[id := m.users[id].(queue := queue)])
  }

  // A section as one step.
  function Atomic(m: Shared, pid: int, id: int, op: Op): (Shared, Result)
    requires Shaped(m) && ValidCall(op, id)
  {
    match op
    case Deliver(receiver, message) =>
      if m.users[receiver].online && |m.users[receiver].queue| < MAX_MESSAGES
      then (SetQueue(m, receiver, m.users[receiver].queue + [Cut(message, MESSAGE_SIZE)]), Verdict(true))
      else (m, Verdict(false))
    case Flush => (SetQueue(m, id, []), Result(true, None, m.users[id].queue))
    case Look => (m, Verdict(true))
    case _ =>
      var (m', reply) := SharedStep(m, pid, EventOf(op, id).value);
      (m', Result(reply.accepted, reply.id, []))
  }

  // ----- the same, one store or one loop turn at a time -----

  // phase and i are the program counter, the two flags are local variables read before they are acted on.
  datatype Work = Work(phase: nat, i: int, peerOk: bool, pipeOk: bool, done: bool, result: Result)

  const START := Work(0, 1, false, false, false, Verdict(false))

  function Finish(w: Work, accepted: bool): Work {
    w.(done := true, result := w.result.(accepted := accepted))
  }

  function MicroAssign(m: Shared, pid: int, op: Op, w: Work): (Shared, Work)
    requires Shaped(m) && op.Assign? && 1 <= w.i
  {
    if w.i > MAX_USERS then (m, Finish(w, false))
    else if w.phase == 0 then
      if m.users[w.i].online then (m, w.(i := w.i + 1))
      else (m.(users := m.users[w.i := m.users[w.i].(online := true)]), w.(phase := 1))
    else
      (m.(users := m.users[w.i := Slot(true, pid, DEFAULT_NAME, op.ip, op.port, [])]),
       w.(done := true, result := Result(true, Some(w.i), [])))
  }

  function MicroCleanup(m: Shared, id: int, w: Work): (Shared, Work)
    requires Shaped(m) && 1 <= id <= MAX_USERS && 1 <= w.i
  {
    if w.phase == 0 then
      if !m.users[id].online then (m, Finish(w, false))
      else (m.(users := m.users[id := m.users[id].(online := false, queue := [])]), w.(phase := 1))
    else if w.i <= MAX_USERS then
      (SetCell(SetCell(m, id, w.i, false), w.i, id, false), w.(i := w.i + 1))
    else (m, Finish(w, true))
  }

  function MicroRename(m: Shared, id: int, op: Op, w: Work): (Shared, Work)
    requires Shaped(m) && op.Rename? && 1 <= id <= MAX_USERS && 1 <= w.i
  {
    if w.i <= MAX_USERS then
      if m.users[w.i].online && m.users[w.i].name == op.newName then (m, Finish(w, false))
      else (m, w.(i := w.i + 1))
    else
      (m.(users := m.users[id := m.users[id].(name := Cut(op.newName, NAME_SIZE))]), Finish(w, true))
  }

  function MicroPipe(m: Shared, peer: int, s: int, r: int, take: bool, w: Work): (Shared, Work)
    requires Shaped(m) && (1 <= peer <= MAX_USERS ==> 1 <= s <= MAX_USERS && 1 <= r <= MAX_USERS)
  {
    if w.phase == 0 then
      if 1 <= peer <= MAX_USERS
      then (m, w.(phase := 1, peerOk := m.users[peer].online, pipeOk := m.cells[s][r]))
      else (m, w.(phase := 1))
    else if w.peerOk && w.pipeOk == take && 1 <= peer <= MAX_USERS then (SetCell(m, s, r, !take), Finish(w, true))
    else (m, Finish(w, false))
  }

  function MicroFlush(m: Shared, id: int, w: Work): (Shared, Work)
    requires Shaped(m) && 1 <= id <= MAX_USERS && 1 <= w.i
  {
    if w.i - 1 < |m.users[id].queue|
    then (m, w.(i := w.i + 1, result := w.result.(handed := w.result.handed + [m.users[id].queue[w.i - 1]])))
    else (SetQueue(m, id, []), Finish(w, true))
  }

  function Micro(m: Shared, pid: int, id: int, op: Op, w: Work): (Shared, Work)
    requires Shaped(m) && ValidCall(op, id) && 1 <= w.i
  {
    match op
    case Assign(_, _) => MicroAssign(m, pid, op, w)
    case Cleanup => MicroCleanup(m, id, w)
    case Rename(_) => MicroRename(m, id, op, w)
    case TakePipe(from, _) => MicroPipe(m, from, from, id, true, w)
    case MakePipe(to, _) => MicroPipe(m, to, id, to, false, w)
    case Flush => MicroFlush(m, id, w)
    case _ =>
      var (m', result) := Atomic(m, pid, id, op);
      (m', w.(done := true, result := result))
  }

  // The flags with the first i - 1 peers of a user cleared.
  ghost predicate PartlyCleared(from: seq<seq<bool>>, to: seq<seq<bool>>, id: int, i: int)
    requires |from| == |to| == MAX_USERS + 1
    requires forall k :: 0 <= k <= MAX_USERS ==> |from[k]| == |to[k]| == MAX_USERS + 1
  {
    forall s, r :: 0 <= s <= MAX_USERS && 0 <= r <= MAX_USERS ==>
      to[s][r] == (from[s][r] && !((s == id && 1 <= r < i) || (r == id && 1 <= s < i)))
  }

  // Where a section stands, compared with the memory m0 it found.
  ghost predicate Underway(m0: Shared, m: Shared, pid: int, id: int, op: Op, w: Work)
    requires Shaped(m0) && ValidCall(op, id)
  {
    && Shaped(m) && 1 <= w.i
    && (w.done ==> (m, w.result) == Atomic(m0, pid, id, op))
    && (!w.done ==>
          && (!op.Flush? ==> w.result == Verdict(false))
          && match op
             case Assign(_, _) =>
               && w.i <= MAX_USERS + 1
               && FirstOffline(m0.users, 1) == FirstOffline(m0.users, w.i)
               && if w.phase == 0 then m == m0
                  else w.i <= MAX_USERS && !m0.users[w.i].online && m == m0.(users := m0.users[w.i := m0.users[w.i].(online := true)])
             case Cleanup =>
               if w.phase == 0 then m == m0 && w.i == 1
               else
                 && w.i <= MAX_USERS + 1
                 && m0.users[id].online
                 && m.users == m0.users[id := m0.users[id].(online := false, queue := [])]
                 && PartlyCleared(m0.cells, m.cells, id, w.i)
             case Rename(newName) =>
               && w.i <= MAX_USERS + 1 && m == m0
               && forall k :: 1 <= k < w.i ==> !(m0.users[k].online && m0.users[k].name == newName)
             case TakePipe(from, _) =>
               && m == m0
               && (w.phase == 0 ==> !w.peerOk && !w.pipeOk)
               && (w.phase != 0 ==> w.peerOk == Online(m0, from) && (w.peerOk ==> w.pipeOk == m0.cells[from][id]))
             case MakePipe(to, _) =>
               && m == m0
               && (w.phase == 0 ==> !w.peerOk && !w.pipeOk)
               && (w.phase != 0 ==> w.peerOk == Online(m0, to) && (w.peerOk ==> w.pipeOk == m0.cells[id][to]))
             case Flush =>
               && m == m0 && w.i - 1 <= |m0.users[id].queue|
               && w.result == Result(false, None, m0.users[id].queue[..w.i - 1])
             case _ => m == m0)
  }

  lemma StartUnderway(m0: Shared, pid: int, id: int, op: Op)
    requires Shaped(m0) && ValidCall(op, id)
    ensures Underway(m0, m0, pid, id, op, START)
  {
  }

  lemma AssignUnderway(m0: Shared, m: Shared, pid: int, id: int, op: Op, w: Work)
    requires Shaped(m0) && ValidCall(op, id) && op.Assign? && Underway(m0, m, pid, id, op, w) && !w.done
    ensures Underway(m0, MicroAssign(m, pid, op, w).0, pid, id, op, MicroAssign(m, pid, op, w).1)
  {
    if w.phase != 0 {
      var slot := Slot(true, pid, DEFAULT_NAME, op.ip, op.port, []);
      assert m.users[w.i := slot] == m0.users[w.i := slot];
      assert FirstOffline(m0.users, w.i) == Some(w.i);
    }
  }

  lemma CleanupUnderway(m0: Shared, m: Shared, pid: int, id: int, op: Op, w: Work)
    requires Shaped(m0) && ValidCall(op, id) && op.Cleanup? && Underway(m0, m, pid, id, op, w) && !w.done
    ensures Underway(m0, MicroCleanup(m, id, w).0, pid, id, op, MicroCleanup(m, id, w).1)
  {
    if w.phase != 0 && w.i > MAX_USERS {
      assert m.cells == ClearCells(m0.cells, id) by {
        forall s | 0 <= s <= MAX_USERS ensures m.cells[s] == ClearCells(m0.cells, id)[s] {}
      }
    }
  }

  lemma RenameUnderway(m0: Shared, m: Shared, pid: int, id: int, op: Op, w: Work)
    requires Shaped(m0) && ValidCall(op, id) && op.Rename? && Underway(m0, m, pid, id, op, w) && !w.done
    ensures Underway(m0, MicroRename(m, id, op, w).0, pid, id, op, MicroRename(m, id, op, w).1)
  {
  }

  lemma FlushUnderway(m0: Shared, m: Shared, pid: int, id: int, op: Op, w: Work)
    requires Shaped(m0) && ValidCall(op, id) && op.Flush? && Underway(m0, m, pid, id, op, w) && !w.done
    ensures Underway(m0, MicroFlush(m, id, w).0, pid, id, op, MicroFlush(m, id, w).1)
  {
    var queue := m0.users[id].queue;
    assert queue[..|queue|] == queue;
    assert w.i - 1 < |queue| ==> queue[..w.i - 1] + [queue[w.i - 1]] == queue[..w.i];
  }

  lemma PipeUnderway(m0: Shared, m: Shared, pid: int, id: int, op: Op, w: Work)
    requires Shaped(m0) && ValidCall(op, id) && (op.TakePipe? || op.MakePipe?) && Underway(m0, m, pid, id, op, w) && !w.done
    ensures Underway(m0, Micro(m, pid, id, op, w).0, pid, id, op, Micro(m, pid, id, op, w).1)
  {
  }

  // Store by store, a section that nobody disturbs ends with exactly its one-step effect.
  lemma MicroUnderway(m0: Shared, m: Shared, pid: int, id: int, op: Op, w: Work)
    requires Shaped(m0) && ValidCall(op, id) && Underway(m0, m, pid, id, op, w) && !w.done
    ensures Underway(m0, Micro(m, pid, id, op, w).0, pid, id, op, Micro(m, pid, id, op, w).1)
  {
    match op
    case Assign(_, _) => AssignUnderway(m0, m, pid, id, op, w);
    case Cleanup => CleanupUnderway(m0, m, pid, id, op, w);
    case TakePipe(_, _) => PipeUnderway(m0, m, pid, id, op, w);
    case MakePipe(_, _) => PipeUnderway(m0, m, pid, id, op, w);
    case Rename(_) => RenameUnderway(m0, m, pid, id, op, w);
    case Flush => FlushUnderway(m0, m, pid, id, op, w);
    case _ =>
  }

  lemma AtomicShaped(m: Shared, pid: int, id: int, op: Op)
    requires Shaped(m) && ValidCall(op, id)
    ensures Shaped(Atomic(m, pid, id, op).0)
  {
  }
}
