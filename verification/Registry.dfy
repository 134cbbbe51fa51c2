/** Who is online and which user pipes exist: one registry, implemented twice. */
module Registry {
  import opened Commands

  const MAX_USERS := 30
  const NAME_SIZE := 64
  const DEFAULT_NAME := "(no name)"

  datatype Event =
    | Login(ip: string, port: int)
    | Logout(id: int)
    | Name(id: int, newName: string)
    | Tell(id: int, target: int, text: string)
    | Yell(id: int, text: string)
    | Receive(id: int, from: int, line: string)
    | Send(id: int, to: int, line: string)

  datatype Notice =
    | Welcome
    | Entered(ip: string, port: int)
    | Departed(name: string)
    | NameTaken(name: string)
    | Renamed(ip: string, port: int, name: string)
    | NoUser(id: int)
    | Told(name: string, text: string)
    | Yelled(name: string, text: string)
    | NoPipe(sender: int, receiver: int)
    | PipeExists(sender: int, receiver: int)
    | Received(receiverName: string, receiver: int, senderName: string, sender: int, line: string)
    | Piped(senderName: string, sender: int, line: string, receiverName: string, receiver: int)

  datatype Delivery = Delivery(recipients: set<int>, notice: Notice)

  // id is the number given to a new user.
  datatype Reply = Reply(accepted: bool, id: Option<int>, deliveries: seq<Delivery>)

  function Accept(deliveries: seq<Delivery>): Reply {
    Reply(true, None, deliveries)
  }

  function Reject(deliveries: seq<Delivery>): Reply {
    Reply(false, None, deliveries)
  }

  // ----- the single-process server: a map of clients and a set of pipes -----

  datatype Member = Member(name: string, ip: string, port: int)

  datatype Single = Single(clients: map<int, Member>, pipes: set<(int, int)>)

  const NOBODY := Single(map[], {})

  // The first id from `from` on that no client has.
  function LeastUnused(clients: set<int>, from: int): (id: Option<int>)
    requires 1 <= from <= MAX_USERS + 1
    ensures id.Some? ==> from <= id.value <= MAX_USERS && id.value !in clients
    ensures id.Some? ==> forall j :: from <= j < id.value ==> j in clients
    ensures id == None ==> forall j :: from <= j <= MAX_USERS ==> j in clients
    decreases MAX_USERS + 1 - from
  {
    if from > MAX_USERS then None
    else if from !in clients then Some(from)
    else LeastUnused(clients, from + 1)
  }

  predicate SingleHasName(s: Single, name: string) {
    exists id :: id in s.clients && s.clients[id].name == name
  }

  function SingleReceive(s: Single, id: int, from: int, line: string): (Single, Reply)
    requires id in s.clients
  {
    if from !in s.clients then (s, Reject([Delivery({id}, NoUser(from))]))
    else if (from, id) !in s.pipes then (s, Reject([Delivery({id}, NoPipe(from, id))]))
    else (s.(pipes := s.pipes - {(from, id)}),
          Accept([Delivery(s.clients.Keys, Received(s.clients[id].name, id, s.clients[from].name, from, line))]))
  }

  function SingleSend(s: Single, id: int, to: int, line: string): (Single, Reply)
    requires id in s.clients
  {
    if to !in s.clients then (s, Reject([Delivery({id}, NoUser(to))]))
    else if (id, to) in s.pipes then (s, Reject([Delivery({id}, PipeExists(id, to))]))
    else (s.(pipes := s.pipes + {(id, to)}),
          Accept([Delivery(s.clients.Keys, Piped(s.clients[id].name, id, line, s.clients[to].name, to))]))
  }

  predicate SingleEnabled(s: Single, e: Event) {
    e.Login? || e.id in s.clients
  }

  function SingleStep(s: Single, e: Event): (Single, Reply)
    requires SingleEnabled(s, e)
  {
    match e
    case Login(ip, port) =>
      (match LeastUnused(s.clients.Keys, 1)
       case None => (s, Reject([]))
       case Some(id) =>
         var s' := s.(clients := s.clients[id := Member(DEFAULT_NAME, ip, port)]);
         (s', Reply(true, Some(id), [Delivery({id}, Welcome), Delivery(s'.clients.Keys, Entered(ip, port))])))
    case Logout(id) =>
      var s' := Single(s.clients - {id}, set p | p in s.pipes && p.0 != id && p.1 != id);
      (s', Accept([Delivery(s'.clients.Keys, Departed(s.clients[id].name))]))
    case Name(id, newName) =>
      if SingleHasName(s, newName) then (s, Reject([Delivery({id}, NameTaken(newName))]))
      else
        var m := s.clients[id].(name := newName);
        (s.(clients := s.clients[id := m]), Accept([Delivery(s.clients.Keys, Renamed(m.ip, m.port, newName))]))
    case Tell(id, target, text) =>
      if target in s.clients then (s, Accept([Delivery({target}, Told(s.clients[id].name, text))]))
      else (s, Reject([Delivery({id}, NoUser(target))]))
    case Yell(id, text) => (s, Accept([Delivery(s.clients.Keys, Yelled(s.clients[id].name, text))]))
    case Receive(id, from, line) => SingleReceive(s, id, from, line)
    case Send(id, to, line) => SingleSend(s, id, to, line)
  }

  // ----- the multi-process server: slots and a table of flags, 1-based -----

  datatype Slot = Slot(online: bool, pid: int, name: string, ip: string, port: int, queue: seq<string>)

  datatype Shared = Shared(users: seq<Slot>, cells: seq<seq<bool>>)

  predicate Shaped(m: Shared) {
    && |m.users| == |m.cells| == MAX_USERS + 1
    && forall i :: 0 <= i <= MAX_USERS ==> |m.cells[i]| == MAX_USERS + 1
  }

  const EMPTY_SLOT := Slot(false, -1, "", "", 0, [])

  function AllOffline(): (m: Shared)
    ensures Shaped(m)
    ensures forall id :: 0 <= id <= MAX_USERS ==> m.users[id] == EMPTY_SLOT
    ensures forall a, b :: 0 <= a <= MAX_USERS && 0 <= b <= MAX_USERS ==> !m.cells[a][b]
  {
    Shared(seq(MAX_USERS + 1, _ => EMPTY_SLOT), seq(MAX_USERS + 1, _ => seq(MAX_USERS + 1, _ => false)))
  }

  // What a C string keeps of a text: everything before the first zero byte.
  function CString(s: string): (c: string)
    ensures c <= s && '\0' !in c && (|c| < |s| ==> s[|c|] == '\0')
  {
    if s == "" || s[0] == '\0' then "" else [s[0]] + CString(s[1..])
  }

  // snprintf with %s stops at a zero byte, and keeps one byte of the buffer for the terminator.
  function Cut(s: string, size: nat): (c: string)
    requires size > 0
    ensures c <= s && |c| < size && '\0' !in c
    ensures |c| < |s| && |c| < size - 1 ==> s[|c|] == '\0'
    ensures c == s <==> |s| < size && '\0' !in s
  {
    var c := CString(s);
    if |c| < size then c else c[..size - 1]
  }

  // A text the buffer keeps as it is.
  predicate Keepable(s: string, size: nat) {
    |s| < size && '\0' !in s
  }

  predicate Online(m: Shared, id: int)
    requires Shaped(m)
  {
    1 <= id <= MAX_USERS && m.users[id].online
  }

  function OnlineIds(m: Shared): set<int>
    requires Shaped(m)
  {
    set id | 1 <= id <= MAX_USERS && m.users[id].online
  }

  function FirstOffline(users: seq<Slot>, from: int): (id: Option<int>)
    requires |users| == MAX_USERS + 1 && 1 <= from <= MAX_USERS + 1
    ensures id.Some? ==> from <= id.value <= MAX_USERS && !users[id.value].online
    ensures id.Some? ==> forall j :: from <= j < id.value ==> users[j].online
    ensures id == None ==> forall j :: from <= j <= MAX_USERS ==> users[j].online
    decreases MAX_USERS + 1 - from
  {
    if from > MAX_USERS then None
    else if !users[from].online then Some(from)
    else FirstOffline(users, from + 1)
  }

  predicate SharedHasName(users: seq<Slot>, name: string)
    requires |users| == MAX_USERS + 1
  {
    exists id :: 1 <= id <= MAX_USERS && users[id].online && users[id].name == name
  }

  function SetCell(m: Shared, s: int, r: int, v: bool): Shared
    requires Shaped(m) && 0 <= s <= MAX_USERS && 0 <= r <= MAX_USERS
  {
    m.(cells := m.cells[s := m.cells[s][r := v]])
  }

  // The flags with the row and the column of one user cleared.
  function ClearCells(cells: seq<seq<bool>>, id: int): seq<seq<bool>>
    requires |cells| == MAX_USERS + 1 && forall i :: 0 <= i <= MAX_USERS ==> |cells[i]| == MAX_USERS + 1
  {
    seq(MAX_USERS + 1, s requires 0 <= s <= MAX_USERS =>
      seq(MAX_USERS + 1, r requires 0 <= r <= MAX_USERS =>
        cells[s][r] && !((s == id && 1 <= r) || (r == id && 1 <= s))))
  }

  function SharedReceive(m: Shared, id: int, from: int, line: string): (Shared, Reply)
    requires Shaped(m) && 1 <= id <= MAX_USERS
  {
    if !Online(m, from) then (m, Reject([Delivery({id}, NoUser(from))]))
    else if !m.cells[from][id] then (m, Reject([Delivery({id}, NoPipe(from, id))]))
    else (SetCell(m, from, id, false),
          Accept([Delivery(OnlineIds(m), Received(m.users[id].name, id, m.users[from].name, from, line))]))
  }

  function SharedSend(m: Shared, id: int, to: int, line: string): (Shared, Reply)
    requires Shaped(m) && 1 <= id <= MAX_USERS
  {
    if !Online(m, to) then (m, Reject([Delivery({id}, NoUser(to))]))
    else if m.cells[id][to] then (m, Reject([Delivery({id}, PipeExists(id, to))]))
    else (SetCell(m, id, to, true),
          Accept([Delivery(OnlineIds(m), Piped(m.users[id].name, id, line, m.users[to].name, to))]))
  }

  function SharedLogin(m: Shared, pid: int, ip: string, port: int): (Shared, Reply)
    requires Shaped(m)
  {
    match FirstOffline(m.users, 1)
    case None => (m, Reject([]))
    case Some(id) =>
      var m' := m.(users := m.users[id := Slot(true, pid, DEFAULT_NAME, ip, port, [])]);
      (m', Reply(true, Some(id), [Delivery({id}, Welcome), Delivery(OnlineIds(m'), Entered(ip, port))]))
  }

  function SharedLogout(m: Shared, id: int): (Shared, Reply)
    requires Shaped(m)
  {
    if !Online(m, id) then (m, Reject([]))
    else
      var m' := Shared(m.users[id := m.users[id].(online := false, queue := [])], ClearCells(m.cells, id));
      (m', Accept(if m.users[id].name == "" then [] else [Delivery(OnlineIds(m'), Departed(m.users[id].name))]))
  }

  function SharedName(m: Shared, id: int, newName: string): (Shared, Reply)
    requires Shaped(m) && 1 <= id <= MAX_USERS
  {
    if SharedHasName(m.users, newName) then (m, Reject([Delivery({id}, NameTaken(newName))]))
    else
      var u := m.users[id].(name := Cut(newName, NAME_SIZE));
      (m.(users := m.users[id := u]), Accept([Delivery(OnlineIds(m), Renamed(u.ip, u.port, newName))]))
  }

  predicate SharedEnabled(e: Event) {
    e.Login? || 1 <= e.id <= MAX_USERS
  }

  // pid is the process that acts.
  function SharedStep(m: Shared, pid: int, e: Event): (Shared, Reply)
    requires Shaped(m) && SharedEnabled(e)
  {
    match e
    case Login(ip, port) => SharedLogin(m, pid, ip, port)
    case Logout(id) => SharedLogout(m, id)
    case Name(id, newName) => SharedName(m, id, newName)
    case Tell(id, target, text) =>
      if Online(m, target) then (m, Accept([Delivery({target}, Told(m.users[id].name, text))]))
      else (m, Reject([Delivery({id}, NoUser(target))]))
    case Yell(id, text) => (m, Accept([Delivery(OnlineIds(m), Yelled(m.users[id].name, text))]))
    case Receive(id, from, line) => SharedReceive(m, id, from, line)
    case Send(id, to, line) => SharedSend(m, id, to, line)
  }

  // ----- the two agree -----

  // Online clients are online slots, with the same names and addresses; pipes are set flags.
  ghost predicate Agree(s: Single, m: Shared) {
    && Shaped(m)
    && s.clients.Keys == OnlineIds(m)
    && (forall id :: id in s.clients ==> s.clients[id] == Member(m.users[id].name, m.users[id].ip, m.users[id].port))
    && (forall id :: id in s.clients ==> s.clients[id].name != "")
    && (forall a, b :: (a, b) in s.pipes <==> 1 <= a <= MAX_USERS && 1 <= b <= MAX_USERS && m.cells[a][b])
  }

  // Names typed by a user are tokens: not empty. Only names that the shared buffer keeps are compared.
  predicate Fits(e: Event) {
    e.Name? ==> e.newName != "" && Keepable(e.newName, NAME_SIZE)
  }

  lemma LeastIsFirst(clients: set<int>, users: seq<Slot>, from: int)
    requires |users| == MAX_USERS + 1 && 1 <= from <= MAX_USERS + 1
    requires forall id :: 1 <= id <= MAX_USERS ==> (id in clients <==> users[id].online)
    ensures LeastUnused(clients, from) == FirstOffline(users, from)
    decreases MAX_USERS + 1 - from
  {
    if from <= MAX_USERS && from in clients { LeastIsFirst(clients, users, from + 1); }
  }

  lemma SameNames(s: Single, m: Shared, name: string)
    requires Agree(s, m)
    ensures SingleHasName(s, name) <==> SharedHasName(m.users, name)
  {
    if SingleHasName(s, name) {
      var id :| id in s.clients && s.clients[id].name == name;
      assert id in OnlineIds(m);
    }
    if SharedHasName(m.users, name) {
      var id :| 1 <= id <= MAX_USERS && m.users[id].online && m.users[id].name == name;
      assert id in s.clients;
    }
  }

  lemma LoginAgrees(s: Single, m: Shared, pid: int, ip: string, port: int)
    requires Agree(s, m)
    ensures SingleStep(s, Login(ip, port)).1 == SharedStep(m, pid, Login(ip, port)).1
    ensures Agree(SingleStep(s, Login(ip, port)).0, SharedStep(m, pid, Login(ip, port)).0)
  {
    LeastIsFirst(s.clients.Keys, m.users, 1);
    var s', m' := SingleStep(s, Login(ip, port)).0, SharedStep(m, pid, Login(ip, port)).0;
    assert s'.clients.Keys == OnlineIds(m');
  }

  lemma LogoutAgrees(s: Single, m: Shared, pid: int, id: int)
    requires Agree(s, m) && id in s.clients
    ensures SingleStep(s, Logout(id)).1 == SharedStep(m, pid, Logout(id)).1
    ensures Agree(SingleStep(s, Logout(id)).0, SharedStep(m, pid, Logout(id)).0)
  {
    assert id in OnlineIds(m);
    var s', m' := SingleStep(s, Logout(id)).0, SharedStep(m, pid, Logout(id)).0;
    assert s'.clients.Keys == OnlineIds(m');
    assert m'.cells == ClearCells(m.cells, id);
  }

  lemma NameAgrees(s: Single, m: Shared, pid: int, id: int, newName: string)
    requires Agree(s, m) && id in s.clients && Fits(Name(id, newName))
    ensures SingleStep(s, Name(id, newName)).1 == SharedStep(m, pid, Name(id, newName)).1
    ensures Agree(SingleStep(s, Name(id, newName)).0, SharedStep(m, pid, Name(id, newName)).0)
  {
    assert id in OnlineIds(m);
    SameNames(s, m, newName);
    var s', m' := SingleStep(s, Name(id, newName)).0, SharedStep(m, pid, Name(id, newName)).0;
    assert s'.clients.Keys == OnlineIds(m');
  }

  lemma PipeAgrees(s: Single, m: Shared, id: int, peer: int, line: string)
    requires Agree(s, m) && id in s.clients
    ensures id in OnlineIds(m)
    ensures SingleReceive(s, id, peer, line).1 == SharedReceive(m, id, peer, line).1
    ensures Agree(SingleReceive(s, id, peer, line).0, SharedReceive(m, id, peer, line).0)
    ensures SingleSend(s, id, peer, line).1 == SharedSend(m, id, peer, line).1
    ensures Agree(SingleSend(s, id, peer, line).0, SharedSend(m, id, peer, line).0)
  {
    assert id in OnlineIds(m);
    assert peer in s.clients <==> peer in OnlineIds(m);
    var m1, m2 := SharedReceive(m, id, peer, line).0, SharedSend(m, id, peer, line).0;
    assert OnlineIds(m1) == OnlineIds(m) && OnlineIds(m2) == OnlineIds(m);
  }

  // Every event is accepted or rejected alike, tells the same users the same things, and keeps the registries in step.
  lemma Simulates(s: Single, m: Shared, pid: int, e: Event)
    requires Agree(s, m) && SingleEnabled(s, e) && Fits(e)
    ensures SharedEnabled(e)
    ensures SingleStep(s, e).1 == SharedStep(m, pid, e).1
    ensures Agree(SingleStep(s, e).0, SharedStep(m, pid, e).0)
  {
    match e
    case Login(ip, port) => LoginAgrees(s, m, pid, ip, port);
    case Logout(id) =>
      assert id in OnlineIds(m);
      LogoutAgrees(s, m, pid, id);
    case Name(id, newName) =>
      assert id in OnlineIds(m);
      NameAgrees(s, m, pid, id, newName);
    case Tell(id, target, text) =>
      assert id in OnlineIds(m);
      assert target in s.clients <==> target in OnlineIds(m);
    case Yell(id, text) => assert id in OnlineIds(m);
    case Receive(id, from, line) => PipeAgrees(s, m, id, from, line);
    case Send(id, to, line) => PipeAgrees(s, m, id, to, line);
  }
}
