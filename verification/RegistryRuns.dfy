/** Whole runs of the registry: what always holds, and which send every receive consumes. */
module RegistryRuns {
  import opened Commands
  import opened Registry

  // An event of a user who is not online cannot happen.
  function SingleNext(s: Single, e: Event): (Single, Reply) {
    if SingleEnabled(s, e) then SingleStep(s, e) else (s, Reject([]))
  }

  function SharedNext(m: Shared, pid: int, e: Event): (Shared, Reply)
    requires Shaped(m)
  {
    if SharedEnabled(e) then SharedStep(m, pid, e) else (m, Reject([]))
  }

  function SingleAfter(events: seq<Event>): Single {
    if events == [] then NOBODY else SingleNext(SingleAfter(events[..|events| - 1]), events[|events| - 1]).0
  }

  function SingleReply(events: seq<Event>, k: nat): Reply
    requires k < |events|
  {
    SingleNext(SingleAfter(events[..k]), events[k]).1
  }

  // Names come from a line split at white space.
  predicate Token(name: string) {
    name != "" && ' ' !in name
  }

  predicate Typed(e: Event) {
    e.Name? ==> Token(e.newName)
  }

  // Every event is one a user who is online can cause.
  predicate Genuine(events: seq<Event>) {
    forall k :: 0 <= k < |events| ==> SingleEnabled(SingleAfter(events[..k]), events[k])
  }

  lemma GenuinePrefix(events: seq<Event>, n: nat)
    requires Genuine(events) && n <= |events|
    ensures Genuine(events[..n])
  {
    forall k | 0 <= k < n ensures SingleEnabled(SingleAfter(events[..n][..k]), events[..n][k]) {
      assert events[..n][..k] == events[..k];
    }
  }

  // ----- invariants of the registry -----

  ghost predicate PipesLinkClients(s: Single) {
    && (forall id :: id in s.clients ==> 1 <= id <= MAX_USERS)
    && (forall a, b :: (a, b) in s.pipes ==> a in s.clients && b in s.clients)
  }

  ghost predicate UniqueNames(s: Single) {
    forall a, b :: a in s.clients && b in s.clients && a != b && s.clients[a].name == s.clients[b].name
      ==> s.clients[a].name == DEFAULT_NAME
  }

  lemma StepKeepsLinks(s: Single, e: Event)
    requires PipesLinkClients(s)
    ensures PipesLinkClients(SingleNext(s, e).0)
  {
  }

  lemma StepKeepsNames(s: Single, e: Event)
    requires UniqueNames(s) && Typed(e)
    ensures UniqueNames(SingleNext(s, e).0)
  {
    if e.Name? && e.id in s.clients && !SingleHasName(s, e.newName) {
      assert forall id :: id in s.clients ==> s.clients[id].name != e.newName;
    }
  }

  // In every run ids lie in 1..30 and both ends of every user pipe are online.
  lemma {:induction false} RunKeepsLinks(events: seq<Event>)
    ensures PipesLinkClients(SingleAfter(events))
  {
    if events != [] {
      var n := |events| - 1;
      RunKeepsLinks(events[..n]);
      StepKeepsLinks(SingleAfter(events[..n]), events[n]);
    }
  }

  // In every run two online clients share a name only if neither has chosen one.
  lemma {:induction false} RunKeepsNames(events: seq<Event>)
    requires forall k :: 0 <= k < |events| ==> Typed(events[k])
    ensures UniqueNames(SingleAfter(events))
  {
    if events != [] {
      var n := |events| - 1;
      RunKeepsNames(events[..n]);
      StepKeepsNames(SingleAfter(events[..n]), events[n]);
    }
  }

  // A new client gets the least id nobody has; it is turned away exactly when all thirty are taken.
  lemma LoginTakesLeastId(s: Single, ip: string, port: int)
    requires PipesLinkClients(s)
    ensures var reply := SingleStep(s, Login(ip, port)).1;
            && (reply.accepted <==> exists id :: 1 <= id <= MAX_USERS && id !in s.clients)
            && (reply.accepted ==> reply.id.Some? && var id := reply.id.value;
                  && 1 <= id <= MAX_USERS && id !in s.clients
                  && forall j :: 1 <= j < id ==> j in s.clients)
  {
  }

  // ----- which send a receive consumes -----

  datatype Touch = Opens | Closes | Spares

  // What event k does to the pipe from a to b.
  function Touches(events: seq<Event>, k: nat, a: int, b: int): Touch
    requires k < |events|
  {
    TouchOf(events[k], SingleReply(events, k), a, b)
  }

  function TouchOf(e: Event, reply: Reply, a: int, b: int): Touch {
    match e
    case Login(_, _) => if reply.id == Some(a) || reply.id == Some(b) then Closes else Spares
    case Logout(id) => if id == a || id == b then Closes else Spares
    case Receive(id, from, _) => if reply.accepted && from == a && id == b then Closes else Spares
    case Send(id, to, _) => if reply.accepted && id == a && to == b then Opens else Spares
    case _ => Spares
  }

  // The last of the first n events that did anything to the pipe from a to b, if it opened it.
  function Standing(events: seq<Event>, n: nat, a: int, b: int): (j: Option<nat>)
    requires n <= |events|
    ensures j.Some? ==> j.value < n && Touches(events, j.value, a, b) == Opens
    ensures j.Some? ==> forall i :: j.value < i < n ==> Touches(events, i, a, b) == Spares
  {
    if n == 0 then None
    else match Touches(events, n - 1, a, b)
      case Opens => Some(n - 1)
      case Closes => None
      case Spares => Standing(events, n - 1, a, b)
  }

  lemma StepTouches(s: Single, e: Event, a: int, b: int)
    requires PipesLinkClients(s)
    ensures var (s', reply) := SingleNext(s, e);
            match TouchOf(e, reply, a, b)
            case Opens => (a, b) !in s.pipes && (a, b) in s'.pipes
            case Closes => (a, b) !in s'.pipes
            case Spares => (a, b) in s.pipes <==> (a, b) in s'.pipes
  {
  }

  lemma SingleAfterSnoc(events: seq<Event>, n: nat)
    requires n < |events|
    ensures SingleAfter(events[..n + 1]) == SingleNext(SingleAfter(events[..n]), events[n]).0
  {
    assert events[..n + 1][..n] == events[..n];
  }

  // A user pipe exists exactly while a send stands.
  lemma {:induction false} PipesAreStandingSends(events: seq<Event>, n: nat, a: int, b: int)
    requires n <= |events|
    ensures (a, b) in SingleAfter(events[..n]).pipes <==> Standing(events, n, a, b).Some?
  {
    if n > 0 {
      PipesAreStandingSends(events, n - 1, a, b);
      RunKeepsLinks(events[..n - 1]);
      SingleAfterSnoc(events, n - 1);
      StepTouches(SingleAfter(events[..n - 1]), events[n - 1], a, b);
    }
  }

  predicate Receives(events: seq<Event>, k: nat, a: int, b: int)
    requires k < |events|
  {
    events[k].Receive? && events[k].from == a && events[k].id == b && SingleReply(events, k).accepted
  }

  predicate Sends(events: seq<Event>, k: nat, a: int, b: int)
    requires k < |events|
  {
    events[k].Send? && events[k].id == a && events[k].to == b && SingleReply(events, k).accepted
  }

  // Event i neither uses the pipe from a to b nor begins or ends a login of a or b.
  predicate Undisturbed(events: seq<Event>, i: nat, a: int, b: int)
    requires i < |events|
  {
    && !Receives(events, i, a, b) && !Sends(events, i, a, b)
    && (events[i].Logout? ==> events[i].id != a && events[i].id != b)
    && (events[i].Login? ==> SingleReply(events, i).id != Some(a) && SingleReply(events, i).id != Some(b))
  }

  // Send j is the one that receive k consumes.
  ghost predicate Consumes(events: seq<Event>, k: nat, j: nat, a: int, b: int)
    requires k < |events|
  {
    j < k && Sends(events, j, a, b) && forall i :: j < i < k ==> Undisturbed(events, i, a, b)
  }

  lemma UndisturbedSpares(events: seq<Event>, i: nat, a: int, b: int)
    requires i < |events|
    ensures Undisturbed(events, i, a, b) <==> Touches(events, i, a, b) == Spares
  {
  }

  lemma ConsumedSend(events: seq<Event>, k: nat, a: int, b: int) returns (j: nat)
    requires k < |events| && Receives(events, k, a, b)
    ensures Consumes(events, k, j, a, b)
  {
    PipesAreStandingSends(events, k, a, b);
    j := Standing(events, k, a, b).value;
    forall i: nat | j < i < k ensures Undisturbed(events, i, a, b) {
      UndisturbedSpares(events, i, a, b);
    }
  }

  // Every accepted receive consumes exactly one earlier accepted send, made during the current logins of both
  // users, and no send is consumed twice.
  lemma ReceiveConsumesOneSend(events: seq<Event>, k: nat, a: int, b: int)
    requires k < |events| && Receives(events, k, a, b)
    ensures exists j: nat :: Consumes(events, k, j, a, b)
    ensures forall j: nat, j': nat :: Consumes(events, k, j, a, b) && Consumes(events, k, j', a, b) ==> j == j'
    ensures forall k': nat, j: nat :: k' < k && Receives(events, k', a, b) && Consumes(events, k, j, a, b)
              ==> !Consumes(events, k', j, a, b)
  {
    var j := ConsumedSend(events, k, a, b);
    forall j1: nat, j2: nat | Consumes(events, k, j1, a, b) && Consumes(events, k, j2, a, b) ensures j1 == j2 {
      NoLaterSend(events, k, j1, j2, a, b);
      NoLaterSend(events, k, j2, j1, a, b);
    }
    forall k': nat, j: nat | k' < k && Receives(events, k', a, b) && Consumes(events, k, j, a, b)
      ensures !Consumes(events, k', j, a, b)
    {
      NoEarlierReceive(events, k, k', j, a, b);
    }
  }

  lemma NoLaterSend(events: seq<Event>, k: nat, j: nat, j': nat, a: int, b: int)
    requires k < |events| && Consumes(events, k, j, a, b) && j' < k && Sends(events, j', a, b)
    ensures j' <= j
  {
    assert j < j' ==> Undisturbed(events, j', a, b);
  }

  lemma NoEarlierReceive(events: seq<Event>, k: nat, k': nat, j: nat, a: int, b: int)
    requires k' < k < |events| && Consumes(events, k, j, a, b) && Receives(events, k', a, b)
    ensures k' <= j
  {
    assert j < k' ==> Undisturbed(events, k', a, b);
  }

  // An accepted send finds the previous one consumed or void; a rejected one finds it still unread.
  lemma SendAlternates(events: seq<Event>, k: nat, a: int, b: int)
    requires k < |events|
    requires events[k].Send? && events[k].id == a && events[k].to == b
    requires a in SingleAfter(events[..k]).clients && b in SingleAfter(events[..k]).clients
    ensures SingleReply(events, k).accepted <==> Standing(events, k, a, b) == None
  {
    PipesAreStandingSends(events, k, a, b);
  }

  // ----- the shared registry runs alike -----

  function SharedAfter(events: seq<Event>, pids: seq<int>): (m: Shared)
    requires |pids| == |events|
    ensures Shaped(m)
  {
    if events == [] then AllOffline()
    else
      var n := |events| - 1;
      SharedNext(SharedAfter(events[..n], pids[..n]), pids[n], events[n]).0
  }

  function SharedReply(events: seq<Event>, pids: seq<int>, k: nat): Reply
    requires |pids| == |events| && k < |events|
  {
    SharedNext(SharedAfter(events[..k], pids[..k]), pids[k], events[k]).1
  }

  lemma {:induction false} RegistriesAgree(events: seq<Event>, pids: seq<int>)
    requires |pids| == |events| && Genuine(events) && forall k :: 0 <= k < |events| ==> Fits(events[k])
    ensures Agree(SingleAfter(events), SharedAfter(events, pids))
  {
    if events != [] {
      var n := |events| - 1;
      GenuinePrefix(events, n);
      RegistriesAgree(events[..n], pids[..n]);
      Simulates(SingleAfter(events[..n]), SharedAfter(events[..n], pids[..n]), pids[n], events[n]);
    }
  }

  // The two servers, given the same events with names of at most 63 bytes and no zero byte, stay in agreement and
  // reply alike.
  lemma ServersAgree(events: seq<Event>, pids: seq<int>)
    requires |pids| == |events| && Genuine(events) && forall k :: 0 <= k < |events| ==> Fits(events[k])
    ensures Agree(SingleAfter(events), SharedAfter(events, pids))
    ensures forall k :: 0 <= k < |events| ==> SingleReply(events, k) == SharedReply(events, pids, k)
  {
    RegistriesAgree(events, pids);
    forall k | 0 <= k < |events| ensures SingleReply(events, k) == SharedReply(events, pids, k) {
      GenuinePrefix(events, k);
      RegistriesAgree(events[..k], pids[..k]);
      Simulates(SingleAfter(events[..k]), SharedAfter(events[..k], pids[..k]), pids[k], events[k]);
    }
  }

  // ----- exactly which names keep the servers in agreement -----

  // The renamed registries agree whenever the registries did.
  ghost predicate AlwaysAgrees(newName: string) {
    forall s: Single, m: Shared, pid: int, id: int :: Agree(s, m) && id in s.clients
      ==> Agree(SingleNext(s, Name(id, newName)).0, SharedNext(m, pid, Name(id, newName)).0)
  }

  // The shared buffer keeps at most 63 bytes of a name and none from its first zero byte on, after the duplicate check
  // has looked at all of it.
  lemma AgreeExactlyWhenNamesFit(newName: string)
    requires Token(newName)
    ensures AlwaysAgrees(newName) <==> |newName| < NAME_SIZE && '\0' !in newName
  {
    if Keepable(newName, NAME_SIZE) {
      forall s: Single, m: Shared, pid: int, id: int | Agree(s, m) && id in s.clients
        ensures Agree(SingleNext(s, Name(id, newName)).0, SharedNext(m, pid, Name(id, newName)).0)
      {
        Simulates(s, m, pid, Name(id, newName));
      }
    } else {
      var events := [Login("", 0)];
      var s, m := SingleAfter(events), SharedAfter(events, [0]);
      assert events[..0] == [] && SingleAfter([]) == NOBODY;
      ServersAgree(events, [0]);
      assert LeastUnused({}, 1) == Some(1);
      assert 1 in s.clients && s.clients[1].name == DEFAULT_NAME;
      var s', m' := SingleNext(s, Name(1, newName)).0, SharedNext(m, 0, Name(1, newName)).0;
      assert !SingleHasName(s, newName) by {
        assert forall id :: id in s.clients ==> s.clients[id].name == DEFAULT_NAME;
        assert DEFAULT_NAME[3] == ' ';
      }
      SameNames(s, m, newName);
      assert 1 in OnlineIds(m);
      assert s'.clients[1].name == newName != m'.users[1].name == Cut(newName, NAME_SIZE);
      assert !Agree(s', m');
    }
  }
}
