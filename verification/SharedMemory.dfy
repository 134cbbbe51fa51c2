/** The shared memory segment and the critical sections that act on it in place. */
module SharedMemory {
  import opened Commands
  import opened Registry
  import opened Sections

  // One slot of the segment; its message buffer is a row of messages.
  datatype SharedUser = SharedUser(online: bool, pid: int, name: string, ip: string, port: int, messageCount: int)

  class SharedState {
    const users: array<SharedUser>
    const messages: array2<string>
    const userPipeExists: array2<bool>

    ghost predicate Valid()
      reads this, users
    {
      && users.Length == MAX_USERS + 1
      && messages.Length0 == MAX_USERS + 1 && messages.Length1 == MAX_MESSAGES
      && userPipeExists.Length0 == userPipeExists.Length1 == MAX_USERS + 1
      && forall id :: 0 <= id <= MAX_USERS ==> 0 <= users[id].messageCount <= MAX_MESSAGES
    }

    // The messages waiting in a slot.
    ghost function Queue(id: int): (queue: seq<string>)
      requires Valid() && 0 <= id <= MAX_USERS
      reads this, users, messages
      ensures |queue| == users[id].messageCount
      ensures forall i :: 0 <= i < |queue| ==> queue[i] == messages[id, i]
    {
      seq(users[id].messageCount,
          i requires Valid() && 0 <= i < users[id].messageCount reads this, users, messages => messages[id, i])
    }

    ghost function SlotAt(id: int): Slot
      requires Valid() && 0 <= id <= MAX_USERS
      reads this, users, messages
    {
      var u := users[id];
      Slot(u.online, u.pid, u.name, u.ip, u.port, Queue(id))
    }

    ghost function Users(): (slots: seq<Slot>)
      requires Valid()
      reads this, users, messages
      ensures |slots| == MAX_USERS + 1
      ensures forall id :: 0 <= id <= MAX_USERS ==> slots[id] == SlotAt(id)
    {
      seq(MAX_USERS + 1, id requires Valid() && 0 <= id <= MAX_USERS reads this, users, messages => SlotAt(id))
    }

    ghost function Cells(): (cells: seq<seq<bool>>)
      requires Valid()
      reads this, users, userPipeExists
      ensures |cells| == MAX_USERS + 1
      ensures forall s :: 0 <= s <= MAX_USERS ==> |cells[s]| == MAX_USERS + 1
      ensures forall s, r :: 0 <= s <= MAX_USERS && 0 <= r <= MAX_USERS ==> cells[s][r] == userPipeExists[s, r]
    {
      seq(MAX_USERS + 1, s requires Valid() && 0 <= s <= MAX_USERS reads this, users, userPipeExists =>
        seq(MAX_USERS + 1, r requires Valid() && 0 <= r <= MAX_USERS reads this, users, userPipeExists => userPipeExists[s, r]))
    }

    ghost function Model(): (m: Shared)
      requires Valid()
      reads this, users, messages, userPipeExists
      ensures Shaped(m)
    {
      Shared(Users(), Cells())
    }

    static lemma SameCells(a: seq<seq<bool>>, b: seq<seq<bool>>)
      requires |a| == |b| == MAX_USERS + 1
      requires forall s :: 0 <= s <= MAX_USERS ==> |a[s]| == |b[s]| == MAX_USERS + 1
      requires forall s, r :: 0 <= s <= MAX_USERS && 0 <= r <= MAX_USERS ==> a[s][r] == b[s][r]
      ensures a == b
    {
      forall s | 0 <= s <= MAX_USERS ensures a[s] == b[s] {}
    }

    // Only one record was stored.
    twostate lemma OneRecordStored(id: int)
      requires old(Valid()) && Valid() && 0 <= id <= MAX_USERS
      requires users[..] == old(users[..])[id := users[id]]
      requires unchanged(messages) || forall k, i :: 0 <= k <= MAX_USERS && 0 <= i < old(users[k].messageCount) ==> messages[k, i] == old(messages[k, i])
      ensures Users() == old(Users())[id := SlotAt(id)]
      ensures unchanged(userPipeExists) ==> Cells() == old(Cells())
    {
      forall k | 0 <= k <= MAX_USERS && k != id ensures SlotAt(k) == old(SlotAt(k)) {
        assert users[k] == users[..][k] == old(users[..][k]) == old(users[k]);
        assert Queue(k) == old(Queue(k));
      }
      if unchanged(userPipeExists) { SameCells(Cells(), old(Cells())); }
    }

    constructor ()
      ensures Valid() && fresh(users) && fresh(messages) && fresh(userPipeExists)
      ensures Model() == AllOffline()
    {
      users := new SharedUser[MAX_USERS + 1](_ => SharedUser(false, -1, "", "", 0, 0));
      messages := new string[MAX_USERS + 1, MAX_MESSAGES]((_, _) => "");
      userPipeExists := new bool[MAX_USERS + 1, MAX_USERS + 1]((_, _) => false);
      new;
      assert Users() == AllOffline().users;
      SameCells(Cells(), AllOffline().cells);
    }

    method AssignUser(pid: int, ip: string, port: int) returns (assignedId: int)
      requires Valid()
      modifies users
      ensures Valid()
      ensures var (m, r) := Atomic(old(Model()), pid, 0, Assign(ip, port));
        Model() == m && assignedId == if r.accepted then r.id.value else -1
    {
      assignedId := -1;
      var id := 1;
      while id <= MAX_USERS
        invariant 1 <= id <= MAX_USERS + 1
        invariant Valid() && users[..] == old(users[..]) && Model() == old(Model())
        invariant FirstOffline(old(Users()), 1) == FirstOffline(old(Users()), id)
      {
        if !users[id].online {
          users[id] := SharedUser(true, pid, DEFAULT_NAME, ip, port, 0);
          OneRecordStored(id);
          return id;
        }
        id := id + 1;
      }
    }

    // The cleared pipes between a user and the peers below i.
    ghost predicate Listed(paths: seq<(int, int)>, cells: seq<seq<bool>>, id: int, i: int)
      requires |cells| == MAX_USERS + 1 && forall s :: 0 <= s <= MAX_USERS ==> |cells[s]| == MAX_USERS + 1
    {
      forall a, b :: (a, b) in paths <==>
        && 1 <= a <= MAX_USERS && 1 <= b <= MAX_USERS && cells[a][b]
        && ((a == id && b < i) || (b == id && a < i))
    }

    method ClearPeer(id: int, peer: int, before: seq<(int, int)>, ghost cells: seq<seq<bool>>) returns (paths: seq<(int, int)>)
      requires Valid() && 1 <= id <= MAX_USERS && 1 <= peer <= MAX_USERS
      requires |cells| == MAX_USERS + 1 && forall s :: 0 <= s <= MAX_USERS ==> |cells[s]| == MAX_USERS + 1
      requires PartlyCleared(cells, Cells(), id, peer) && Listed(before, cells, id, peer)
      modifies userPipeExists
      ensures Valid() && PartlyCleared(cells, Cells(), id, peer + 1) && Listed(paths, cells, id, peer + 1)
    {
      paths := before;
      if userPipeExists[id, peer] {
        userPipeExists[id, peer] := false;
        paths := paths + [(id, peer)];
      }
      if userPipeExists[peer, id] {
        userPipeExists[peer, id] := false;
        paths := paths + [(peer, id)];
      }
    }

    // Clears the flags of every pipe from or to a user; paths lists the pipes that were there.
    method ClearFlags(id: int) returns (paths: seq<(int, int)>)
      requires Valid() && 1 <= id <= MAX_USERS
      modifies userPipeExists
      ensures Valid() && Cells() == ClearCells(old(Cells()), id)
      ensures Listed(paths, old(Cells()), id, MAX_USERS + 1)
    {
      paths := [];
      var peer := 1;
      while peer <= MAX_USERS
        invariant 1 <= peer <= MAX_USERS + 1
        invariant Valid() && PartlyCleared(old(Cells()), Cells(), id, peer) && Listed(paths, old(Cells()), id, peer)
      {
        paths := ClearPeer(id, peer, paths, old(Cells()));
        peer := peer + 1;
      }
      SameCells(Cells(), ClearCells(old(Cells()), id));
    }

    method CleanupUser(id: int) returns (name: string, paths: seq<(int, int)>)
      requires Valid() && 1 <= id <= MAX_USERS
      modifies users, userPipeExists
      ensures Valid()
      ensures var (m, r) := Atomic(old(Model()), 0, id, Cleanup);
        Model() == m && name == if r.accepted then old(users[id].name) else ""
      ensures forall a, b :: (a, b) in paths <==>
        && 1 <= a <= MAX_USERS && 1 <= b <= MAX_USERS && (a == id || b == id)
        && old(users[id].online) && old(userPipeExists[a, b])
    {
      name, paths := "", [];
      if users[id].online {
        name := users[id].name;
        users[id] := users[id].(online := false, messageCount := 0);
        OneRecordStored(id);
        paths := ClearFlags(id);
      }
    }

    // The name builtin.
    method Rename(id: int, newName: string) returns (duplicate: bool)
      requires Valid() && 1 <= id <= MAX_USERS
      modifies users
      ensures Valid()
      ensures var (m, r) := Atomic(old(Model()), 0, id, Op.Rename(newName)); Model() == m && duplicate == !r.accepted
    {
      var k := 1;
      duplicate := false;
      while k <= MAX_USERS
        invariant 1 <= k <= MAX_USERS + 1 && !duplicate
        invariant forall j :: 1 <= j < k ==> !(users[j].online && users[j].name == newName)
      {
        if users[k].online && users[k].name == newName {
          assert Users()[k] == SlotAt(k);
          return true;
        }
        k := k + 1;
      }
      assert !SharedHasName(Users(), newName);
      users[id] := users[id].(name := Cut(newName, NAME_SIZE));
      OneRecordStored(id);
      assert Queue(id) == old(Queue(id));
    }

    method TakePipe(id: int, from: int, line: string) returns (senderExists: bool, pipeExists: bool)
      requires Valid() && 1 <= id <= MAX_USERS
      modifies userPipeExists
      ensures Valid()
      ensures var (m, r) := Atomic(old(Model()), 0, id, Op.TakePipe(from, line));
        Model() == m && (senderExists && pipeExists <==> r.accepted) && senderExists == Online(old(Model()), from)
    {
      senderExists, pipeExists := false, false;
      if 1 <= from <= MAX_USERS {
        senderExists := users[from].online;
        pipeExists := userPipeExists[from, id];
        if senderExists && pipeExists {
          userPipeExists[from, id] := false;
          SameCells(Cells(), SetCell(old(Model()), from, id, false).cells);
        }
      }
    }

    method MakePipe(id: int, to: int, line: string) returns (receiverExists: bool, pipeExists: bool)
      requires Valid() && 1 <= id <= MAX_USERS
      modifies userPipeExists
      ensures Valid()
      ensures var (m, r) := Atomic(old(Model()), 0, id, Op.MakePipe(to, line));
        Model() == m && (receiverExists && !pipeExists <==> r.accepted) && receiverExists == Online(old(Model()), to)
    {
      receiverExists, pipeExists := false, false;
      if 1 <= to <= MAX_USERS {
        receiverExists := users[to].online;
        pipeExists := userPipeExists[id, to];
        if receiverExists && !pipeExists {
          userPipeExists[id, to] := true;
          SameCells(Cells(), SetCell(old(Model()), id, to, true).cells);
        }
      }
    }

    // The part of sendMessageToUser that runs inside the lock; the process to signal is returned.
    method Deliver(id: int, receiver: int, message: string) returns (targetPid: int)
      requires Valid() && 1 <= id <= MAX_USERS && 1 <= receiver <= MAX_USERS
      modifies users, messages
      ensures Valid()
      ensures Model() == Atomic(old(Model()), 0, id, Op.Deliver(receiver, message)).0
      ensures targetPid == if old(users[receiver].online) then old(users[receiver].pid) else -1
    {
      targetPid := -1;
      var target := users[receiver];
      if target.online {
        if target.messageCount < MAX_MESSAGES {
          messages[receiver, target.messageCount] := Cut(message, MESSAGE_SIZE);
          users[receiver] := target.(messageCount := target.messageCount + 1);
          assert Queue(receiver) == old(Queue(receiver)) + [Cut(message, MESSAGE_SIZE)];
          OneRecordStored(receiver);
        }
        targetPid := target.pid;
      }
    }

    // flushPendingMessages; handed is what was written to the client.
    method Flush(id: int) returns (handed: seq<string>)
      requires Valid() && 1 <= id <= MAX_USERS
      modifies users
      ensures Valid()
      ensures var (m, r) := Atomic(old(Model()), 0, id, Op.Flush); Model() == m && handed == r.handed
    {
      handed := [];
      var i := 0;
      while i < users[id].messageCount
        invariant 0 <= i <= users[id].messageCount
        invariant users[id].messageCount == old(users[id].messageCount) && handed == old(Queue(id))[..i]
      {
        handed := handed + [messages[id, i]];
        i := i + 1;
      }
      assert handed == old(Queue(id));
      users[id] := users[id].(messageCount := 0);
      OneRecordStored(id);
    }
  }
}
