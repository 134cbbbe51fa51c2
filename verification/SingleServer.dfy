/** The single-process server: one process, one descriptor table, thirty shells and the pipes between users. */
module SingleServer {
  import opened Commands
  import opened Routing
  import opened Kernel
  import opened Descriptors
  import opened ShellCore
  import opened Registry
  import opened Ownership
  import opened ServerLedger
  import W = ServerWorld

  class Server {
    const k: Process
    const listenFd: int
    var clients: map<int, Client>
    var userPipes: map<(int, int), PipeFD>
    // Every message written to a socket.
    var sent: seq<Delivery>
    ghost var g: Ledger

    ghost predicate Consistent()
      reads this`clients, this`userPipes, this`g, k
    {
      k.Valid() && Tied(clients, userPipes, listenFd, g) && Backed(k.table, k.pipesMade, g)
    }

    // Between two events nothing is on loan.
    ghost predicate Valid()
      reads this`clients, this`userPipes, this`g, k
    {
      Consistent() && g.book.loans == {}
    }

    constructor (k: Process, listenFd: int)
      requires k.Valid() && k.table.Keys == {STDIN, STDOUT, STDERR, listenFd} && listenFd > STDERR && k.table[listenFd] == Listening
      ensures this.k == k && this.listenFd == listenFd && Valid() && sent == []
      ensures g.world == W.Birth(k.pipesMade)
    {
      this.k, this.listenFd := k, listenFd;
      clients, userPipes, sent := map[], map[], [];
      g := Ledger(map fd | fd in k.table :: if fd == listenFd then Listener else Standard,
                  Holdings(listenFd, map[], map[], map[], {}), map[], W.Birth(k.pipesMade));
    }

    method SendTo(id: int, notice: Notice)
      modifies this`sent
      ensures sent == old(sent) + [Delivery({id}, notice)]
    {
      sent := sent + [Delivery({id}, notice)];
    }

    method Broadcast(notice: Notice)
      modifies this`sent
      ensures sent == old(sent) + [Delivery(clients.Keys, notice)]
    {
      sent := sent + [Delivery(clients.Keys, notice)];
    }

    // Close a descriptor held by a local variable.
    method CloseLoaned(fd: int)
      requires k.Valid() && Backed(k.table, k.pipesMade, g) && fd in g.book.loans && fd >= 0
      modifies k`table, k`badCloses, this`g
      ensures k.Valid() && Backed(k.table, k.pipesMade, g) && g == Return(old(g), fd)
      ensures k.table == old(k.table) - {fd} && k.badCloses == old(k.badCloses)
    {
      ReturnBacked(k.table, k.pipesMade, g, fd);
      var _ := CloseFd(k, fd);
      g := Return(g, fd);
    }

    // Accept a connection or open a file.
    method OpenLoaned(e: Endpoint) returns (fd: int)
      requires k.Valid() && Backed(k.table, k.pipesMade, g) && !IsPipe(e)
      modifies k`table, this`g
      ensures k.Valid() && Backed(k.table, k.pipesMade, g) && g == Borrow(old(g), fd)
      ensures fd !in old(k.table) && fd > STDERR && fd !in old(g).book.loans && k.table == old(k.table)[fd := e]
    {
      ghost var table := k.table;
      fd := k.Allocate(e);
      BorrowBacked(table, k.pipesMade, g, fd, e);
      g := Borrow(g, fd);
    }

    // ----- clients come and go -----

    method SmallestUnusedId() returns (id: int)
      ensures id == LeastUnused(clients.Keys, 1).GetOr(-1)
    {
      id := 1;
      while id <= MAX_USERS
        invariant 1 <= id <= MAX_USERS + 1
        invariant LeastUnused(clients.Keys, 1) == LeastUnused(clients.Keys, id)
      {
        if id !in clients {
          return;
        }
        id := id + 1;
      }
      id := -1;
    }

    // Enter a client whose socket is on loan.
    method Enter(id: int, fd: int, ip: string, port: int, ghost peer: nat)
      requires Consistent() && fd in g.book.loans && id !in clients && fd in k.table && k.table[fd] == Socket(peer)
      modifies this`clients, this`g
      ensures Consistent() && clients.Keys == old(clients.Keys) + {id} && g == Entry(old(g), id, fd, ip, port, peer)
    {
      hide Entry, Backed;
      var shell := new ShellState();
      var client := Client(id, fd, DEFAULT_NAME, ip, port, shell.numberedPipes, shell.executedSegments, shell.env);
      EntryBacked(k.table, k.pipesMade, g, id, fd, ip, port, peer);
      EntryTied(clients, userPipes, listenFd, g, client, peer);
      clients, g := clients[id := client], Entry(g, id, fd, ip, port, peer);
    }

    method Greet(id: int, ip: string, port: int)
      modifies this`sent
      ensures sent == old(sent) + [Delivery({id}, Welcome), Delivery(clients.Keys, Entered(ip, port))]
    {
      SendTo(id, Welcome);
      Broadcast(Entered(ip, port));
    }

    method Admit(id: int, fd: int, ip: string, port: int, ghost peer: nat)
      requires Consistent() && g.book.loans == {fd} && id !in clients && fd in k.table && k.table[fd] == Socket(peer)
      modifies this
      ensures Valid() && g.world == WithClient(old(g.world), id, ip, port, peer)
      ensures sent == old(sent) + [Delivery({id}, Welcome), Delivery(old(clients.Keys) + {id}, Entered(ip, port))]
    {
      Enter(id, fd, ip, port, peer);
      Greet(id, ip, port);
    }

    // Find a place for a connection that is on loan.
    method Place(fd: int, ip: string, port: int, ghost peer: nat)
      requires Consistent() && g.book.loans == {fd} && fd in k.table && k.table[fd] == Socket(peer)
      modifies this, k`table, k`badCloses
      ensures Valid() && k.badCloses == old(k.badCloses)
      ensures match LeastUnused(old(clients.Keys), 1)
              case None => g.world == old(g.world) && sent == old(sent)
              case Some(id) =>
                && g.world == WithClient(old(g.world), id, ip, port, peer)
                && sent == old(sent) + [Delivery({id}, Welcome), Delivery(old(clients.Keys) + {id}, Entered(ip, port))]
    {
      hide LeastUnused, Backed;
      var id := SmallestUnusedId();
      if id < 0 {
        LoanTied(clients, userPipes, listenFd, g, fd);
        CloseLoaned(fd);
      } else {
        Admit(id, fd, ip, port, peer);
      }
    }

    // A client is given the least id nobody has, or turned away.
    method AcceptClient(ip: string, port: int, peer: nat)
      requires Valid()
      modifies this, k`table, k`badCloses
      ensures Valid() && k.badCloses == old(k.badCloses)
      ensures g.world == W.Step(old(g.world), W.Connect(ip, port, peer)).0
      ensures sent == old(sent) + W.Step(old(g.world), W.Connect(ip, port, peer)).1
    {
      hide Backed, W.Step;
      ConnectStep(g.world, ip, port, peer);
      assert sent == sent + [];
      var fd := OpenLoaned(Socket(peer));
      LoanTied(clients, userPipes, listenFd, old(g), fd);
      Place(fd, ip, port, peer);
    }

    // Close both ends of a user pipe and forget it.
    method DropUserPipe(key: (int, int))
      requires k.Valid() && Backed(k.table, k.pipesMade, g) && key in userPipes && userPipes == g.book.userPipes
      modifies k`table, k`badCloses, this`g, this`userPipes
      ensures k.Valid() && Backed(k.table, k.pipesMade, g) && k.badCloses == old(k.badCloses)
      ensures userPipes == g.book.userPipes && Dropping(old(g), g, {key})
    {
      hide Backed;
      PipeDroppedBacked(k.table, k.pipesMade, g, key.0, key.1);
      g := PipeDropped(g, key.0, key.1);
      ClosePipe(k, userPipes[key]);
      userPipes := userPipes - {key};
    }

    // Every pipe from or to a user who leaves is closed.
    method CleanupClientUserPipes(id: int)
      requires k.Valid() && Backed(k.table, k.pipesMade, g)
      requires userPipes == g.book.userPipes && g.world.registry.pipes == g.world.serials.Keys == userPipes.Keys
      modifies k`table, k`badCloses, this`g, this`userPipes
      ensures k.Valid() && Backed(k.table, k.pipesMade, g) && k.badCloses == old(k.badCloses)
      ensures userPipes == g.book.userPipes && SameButPipes(old(g), g)
      ensures g.world.registry.pipes == userPipes.Keys == W.KeysWithout(old(g).world.registry.pipes, id)
      ensures g.world.serials == W.SerialsWithout(old(g).world.serials, id)
    {
      var mine := set p | p in userPipes && (p.0 == id || p.1 == id);
      ghost var dropped: set<(int, int)> := {};
      while mine != {}
        invariant k.Valid() && Backed(k.table, k.pipesMade, g) && k.badCloses == old(k.badCloses)
        invariant userPipes == g.book.userPipes && Dropping(old(g), g, dropped)
        invariant forall p :: p in mine <==> p in userPipes && (p.0 == id || p.1 == id)
        invariant forall p :: p in dropped ==> p.0 == id || p.1 == id
        decreases |mine|
      {
        SomePair(mine);
        var key :| key in mine;
        ghost var before := g;
        DropUserPipe(key);
        DroppingOneMore(old(g), before, g, dropped, key);
        mine := mine - {key};
        dropped := dropped + {key};
      }
      DroppedAll(old(g), g, dropped, id);
    }

    method CloseClientSocket(id: int)
      requires Consistent() && id in clients
      modifies k`table, k`badCloses, this`g
      ensures k.Valid() && Backed(k.table, k.pipesMade, g) && k.badCloses == old(k.badCloses)
      ensures g.book == old(g).book.(sockets := old(g).book.sockets - {id}) && g.cores == old(g).cores
      ensures g.world == old(g).world.(sockets := old(g).world.sockets - {id})
    {
      assert TiedTo(clients[id], id, g.book, g.cores, g.world.registry);
      SocketLoanedBacked(k.table, k.pipesMade, g, id);
      StrippedSocket(g, id);
      g := SocketLoaned(g, id);
      CloseLoaned(clients[id].fd);
    }

    method CloseClientShell(id: int)
      requires k.Valid() && Backed(k.table, k.pipesMade, g) && id in clients
      requires id in g.cores && id in g.book.shells && clients[id].numberedPipes == g.book.shells[id]
      modifies k`table, k`badCloses, this`g
      ensures k.Valid() && Backed(k.table, k.pipesMade, g) && k.badCloses == old(k.badCloses)
      ensures g.book == old(g).book.(shells := old(g).book.shells - {id}) && g.cores == old(g).cores - {id}
      ensures g.world == old(g).world.(shells := old(g).world.shells - {id})
    {
      ghost var table := k.table;
      var c := clients[id];
      var shell := new ShellState.Resume(c.numberedPipes, c.executedSegments, c.env, g.cores[id]);
      CloseShellState(k, shell);
      g := StrippedShell(table, k.pipesMade, g, id, k.table);
    }

    // Everything a client holds is closed and struck from the books.
    method CloseClient(id: int)
      requires Valid() && id in clients
      modifies k`table, k`badCloses, this`g, this`userPipes
      ensures k.Valid() && Backed(k.table, k.pipesMade, g) && k.badCloses == old(k.badCloses)
      ensures Tied(clients - {id}, userPipes, listenFd, g) && g.book.loans == {}
      ensures g.world == W.Step(old(g).world, W.Hangup(id)).0
    {
      hide Backed;
      assert TiedTo(clients[id], id, g.book, g.cores, g.world.registry);
      LedgerPresent(clients, userPipes, listenFd, g, k.table, k.pipesMade, id);
      HangupStep(g.world, id);
      CloseClientSocket(id);
      CloseClientShell(id);
      CloseClientPipes(id, old(g), old(userPipes));
    }

    method CloseClientPipes(id: int, ghost before: Ledger, ghost pipes: map<(int, int), PipeFD>)
      requires k.Valid() && Backed(k.table, k.pipesMade, g) && id in clients
      requires Tied(clients, pipes, listenFd, before) && userPipes == pipes && before.book.loans == {}
      requires g.world.registry.pipes == g.world.serials.Keys == userPipes.Keys
      requires g.book == before.book.(sockets := before.book.sockets - {id}, shells := before.book.shells - {id})
      requires g.cores == before.cores - {id}
      requires g.world == before.world.(sockets := before.world.sockets - {id}, shells := before.world.shells - {id})
      modifies k`table, k`badCloses, this`g, this`userPipes
      ensures k.Valid() && Backed(k.table, k.pipesMade, g) && k.badCloses == old(k.badCloses)
      ensures Tied(clients - {id}, userPipes, listenFd, g) && g.book.loans == {}
      ensures g.world == W.World(Single(before.world.registry.clients - {id}, W.KeysWithout(before.world.registry.pipes, id)),
                                 W.SerialsWithout(before.world.serials, id), before.world.sockets - {id}, before.world.shells - {id}, before.world.made)
    {
      CleanupClientUserPipes(id);
      g := g.(world := g.world.(registry := g.world.registry.(clients := g.world.registry.clients - {id})));
      ErasedTied(clients, pipes, userPipes, listenFd, before, g, id);
    }

    // A client leaves: its socket, its numbered pipes and its user pipes are closed, each once.
    method CleanupClient(id: int)
      requires Valid()
      modifies this, k`table, k`badCloses
      ensures Valid() && k.badCloses == old(k.badCloses)
      ensures g.world == W.Step(old(g.world), W.Hangup(id)).0
      ensures sent == old(sent) + W.Step(old(g.world), W.Hangup(id)).1
    {
      hide Backed, Tied;
      assert sent == sent + [];
      KnownClient(id);
      if id in clients {
        HangupStep(g.world, id);
        CloseClient(id);
        sent := sent + [Delivery(clients.Keys - {id}, Departed(clients[id].name))];
        clients := clients - {id};
      }
    }

    // A client of the server is one of its world, with the same name.
    lemma KnownClient(id: int)
      requires Consistent()
      ensures (id in clients <==> W.Present(g.world, id)) && g.world.serials.Keys == g.world.registry.pipes
      ensures g.world.registry.clients.Keys == clients.Keys
      ensures id in clients ==> g.world.registry.clients[id].name == clients[id].name
    {
      LedgerPresent(clients, userPipes, listenFd, g, k.table, k.pipesMade, id);
      assert id in clients ==> TiedTo(clients[id], id, g.book, g.cores, g.world.registry);
    }

    // ----- the shell of a client -----

    method LoadShell(id: int) returns (shell: ShellState)
      requires Consistent() && id in clients
      ensures fresh(shell) && Holds(k.table, shell.numberedPipes) && id in g.world.shells
      ensures shell.numberedPipes == g.book.shells[id] && shell.Model(k.table) == g.world.shells[id]
      ensures Taken(clients[id], shell.numberedPipes, shell.executedSegments, shell.env) == clients[id]
    {
      var c := clients[id];
      assert TiedTo(c, id, g.book, g.cores, g.world.registry);
      LedgerPresent(clients, userPipes, listenFd, g, k.table, k.pipesMade, id);
      shell := new ShellState.Resume(c.numberedPipes, c.executedSegments, c.env, g.cores[id]);
      PipesAreSerials(k.table, shell.numberedPipes);
    }

    // A client whose shell is in this state.
    static function Taken(c: Client, numberedPipes: map<int, PipeFD>, executedSegments: int, env: map<string, string>): Client {
      c.(numberedPipes := numberedPipes, executedSegments := executedSegments, env := env)
    }

    // table is what the shell found; taken are the loans it closed.
    method StoreShell(id: int, shell: ShellState, ghost table: map<int, Endpoint>, ghost made: nat, ghost taken: set<int>)
      requires k.Valid() && Tied(clients, userPipes, listenFd, g) && Backed(table, made, g) && id in clients && taken <= g.book.loans
      requires Holds(k.table, shell.numberedPipes)
      requires Rest(k.table, shell.numberedPipes, {}) == Rest(table, g.book.shells[id], {}) - taken
      modifies this`clients, this`g
      ensures Consistent()
      ensures clients == old(clients)[id := Taken(old(clients)[id], shell.numberedPipes, shell.executedSegments, shell.env)]
      ensures g.book == old(g).book.(shells := old(g).book.shells[id := shell.numberedPipes], loans := old(g).book.loans - taken)
      ensures g.world == old(g).world.(shells := old(g).world.shells[id := shell.Model(k.table)], made := k.pipesMade)
    {
      hide Tied, Backed;
      var c := clients[id].(numberedPipes := shell.numberedPipes, executedSegments := shell.executedSegments, env := shell.env);
      PipesAreSerials(k.table, shell.numberedPipes);
      g := ShellStored(clients, userPipes, listenFd, g, id, table, made, k.table, k.pipesMade, taken, c,
                       Shell(map[], shell.executedSegments, shell.counter, shell.log, shell.owned));
      clients := clients[id := c];
    }

    // Every builtin uses up a segment of its client and drops the pipe addressed to it.
    method AdvanceSegment(id: int)
      requires Valid() && id in clients
      modifies k`table, k`badCloses, this`clients, this`g
      ensures Valid() && k.badCloses == old(k.badCloses) && clients.Keys == old(clients.Keys)
      ensures var c := old(clients)[id];
        clients == old(clients)[id := Taken(c, c.numberedPipes - {c.executedSegments + 1}, c.executedSegments + 1, c.env)]
      ensures id in old(g).world.shells && g.world == W.UseSegment(old(g.world), id)
    {
      hide Tied, Owned;
      ghost var table := k.table;
      var shell := LoadShell(id);
      AdvanceBuiltinSegment(k, shell);
      assert Rest(table, g.book.shells[id], {}) - {} == Rest(table, g.book.shells[id], {});
      StoreShell(id, shell, table, k.pipesMade, {});
    }

    // ----- the builtins of the server -----

    method HasName(newName: string) returns (duplicate: bool)
      requires Tied(clients, userPipes, listenFd, g)
      ensures duplicate == SingleHasName(g.world.registry, newName)
    {
      var unseen := clients.Keys;
      while unseen != {}
        invariant unseen <= clients.Keys
        invariant forall id :: id in clients && id !in unseen ==> g.world.registry.clients[id].name != newName
        decreases |unseen|
      {
        Kernel.Member(unseen);
        var id :| id in unseen;
        assert TiedTo(clients[id], id, g.book, g.cores, g.world.registry);
        if clients[id].name == newName {
          return true;
        }
        unseen := unseen - {id};
      }
      return false;
    }

    // Change the name, unless somebody has it.
    method ChangeName(id: int, newName: string)
      requires Valid() && id in clients
      modifies this
      ensures Valid() && clients.Keys == old(clients.Keys)
      ensures id in old(g).world.registry.clients
      ensures var (registry, reply) := SingleStep(old(g).world.registry, Name(id, newName));
        g.world == old(g).world.(registry := registry) && sent == old(sent) + reply.deliveries
    {
      hide Owned;
      assert TiedTo(clients[id], id, g.book, g.cores, g.world.registry);
      var duplicate := HasName(newName);
      if duplicate {
        SendTo(id, NameTaken(newName));
      } else {
        RenamingTied(clients, userPipes, listenFd, g, id, newName);
        g := Renaming(g, id, newName);
        clients := clients[id := clients[id].(name := newName)];
        Broadcast(Renamed(clients[id].ip, clients[id].port, newName));
      }
    }

    method SetName(id: int, newName: string)
      requires Valid() && id in clients
      modifies this, k`table, k`badCloses
      ensures Valid() && k.badCloses == old(k.badCloses)
      ensures id in old(g).world.registry.clients && id in old(g).world.shells
      ensures var (registry, reply) := SingleStep(old(g).world.registry, Name(id, newName));
        g.world == W.UseSegment(old(g).world.(registry := registry), id) && sent == old(sent) + reply.deliveries
    {
      hide W.UseSegment;
      ChangeName(id, newName);
      AdvanceSegment(id);
    }

    method TellUser(id: int, target: int, text: string)
      requires Valid() && id in clients
      modifies this, k`table, k`badCloses
      ensures Valid() && k.badCloses == old(k.badCloses)
      ensures id in old(g).world.registry.clients && id in old(g).world.shells && g.world == W.UseSegment(old(g).world, id)
      ensures sent == old(sent) + SingleStep(old(g).world.registry, Tell(id, target, text)).1.deliveries
    {
      hide Tied;
      PassOn(id, target, text);
      AdvanceSegment(id);
    }

    method PassOn(id: int, target: int, text: string)
      requires Tied(clients, userPipes, listenFd, g) && id in clients
      modifies this`sent
      ensures id in g.world.registry.clients
      ensures sent == old(sent) + SingleStep(g.world.registry, Tell(id, target, text)).1.deliveries
    {
      assert TiedTo(clients[id], id, g.book, g.cores, g.world.registry);
      if target in clients {
        SendTo(target, Told(clients[id].name, text));
      } else {
        SendTo(id, NoUser(target));
      }
    }

    method YellAll(id: int, text: string)
      requires Valid() && id in clients
      modifies this, k`table, k`badCloses
      ensures Valid() && k.badCloses == old(k.badCloses)
      ensures id in old(g).world.registry.clients && id in old(g).world.shells && g.world == W.UseSegment(old(g).world, id)
      ensures sent == old(sent) + SingleStep(old(g).world.registry, Yell(id, text)).1.deliveries
    {
      hide RunLine, Backed;
      assert TiedTo(clients[id], id, g.book, g.cores, g.world.registry);
      Broadcast(Yelled(clients[id].name, text));
      AdvanceSegment(id);
    }

    // ----- user pipes -----

    // Complain about a user pipe that is not to be had, and open /dev/null in its place.
    method Refuse(id: int, notice: Notice) returns (fd: int)
      requires Consistent()
      modifies k`table, this`g, this`sent
      ensures Consistent() && g == Borrow(old(g), fd) && fd !in old(g).book.loans
      ensures fd !in old(k.table) && fd > STDERR && k.table == old(k.table)[fd := DevNull]
      ensures sent == old(sent) + [Delivery({id}, notice)]
    {
      SendTo(id, notice);
      fd := OpenLoaned(DevNull);
      LoanTied(clients, userPipes, listenFd, old(g), fd);
    }

    // The reader takes a user pipe: its write end is closed, its read end goes to the first command.
    method TakeUserPipe(a: int, b: int) returns (fd: int)
      requires Consistent() && (a, b) in userPipes
      modifies k`table, k`badCloses, this`g, this`userPipes
      ensures Consistent() && k.badCloses == old(k.badCloses) && fd > STDERR
      ensures g.book == old(g).book.(userPipes := userPipes, loans := old(g).book.loans + {fd})
      ensures fd in k.table && (a, b) in old(g).world.serials && k.table[fd] == PipeRead(old(g).world.serials[(a, b)])
      ensures g.world == old(g).world.(serials := old(g).world.serials - {(a, b)},
                                       registry := old(g).world.registry.(pipes := old(g).world.registry.pipes - {(a, b)}))
    {
      hide Owned;
      var p := userPipes[(a, b)];
      PipeLoanedBacked(k.table, k.pipesMade, g, a, b);
      PipeLoanedTied(clients, userPipes, listenFd, g, a, b);
      AboveStandard(k.table, g.owner, g.book, OfPipe(a, b), p.readFd);
      g := PipeLoaned(g, a, b);
      userPipes := userPipes - {(a, b)};
      LoanTied(clients, userPipes, listenFd, g, p.writeFd);
      CloseLoaned(p.writeFd);
      fd := p.readFd;
      assert g.book.loans == old(g).book.loans + {fd};
    }

    // The writer makes a user pipe; both its ends stay with the server.
    method MakeUserPipe(a: int, b: int) returns (fd: int)
      requires Consistent() && (a, b) !in userPipes
      modifies k`table, k`pipesMade, this`g, this`userPipes
      ensures Consistent() && fd !in old(k.table) && fd in k.table && k.table[fd] == PipeWrite(old(k.pipesMade))
      ensures (a, b) in userPipes && fd == userPipes[(a, b)].writeFd
      ensures g == PipeMade(old(g), a, b, userPipes[(a, b)], old(k.pipesMade))
      ensures g.book == old(g).book.(userPipes := userPipes)
      ensures forall d :: d in old(k.table) ==> d in k.table && k.table[d] == old(k.table)[d]
    {
      hide PipeMade, Backed;
      ghost var table, made := k.table, k.pipesMade;
      var p := k.Pipe();
      PipeMadeBacked(table, made, g, a, b, p);
      PipeMadeTied(clients, userPipes, listenFd, g, a, b, p, made);
      g := PipeMade(g, a, b, p, made);
      userPipes := userPipes[(a, b) := p];
      fd := p.writeFd;
    }

    method ReceivePipe(id: int, from: int, line: string) returns (inputFd: int)
      requires Consistent() && id in clients && from in clients && (from, id) in userPipes
      modifies k`table, k`badCloses, this`g, this`userPipes, this`sent
      ensures Consistent() && k.badCloses == old(k.badCloses) && inputFd > STDERR
      ensures id in old(g).world.registry.clients
      ensures g.book == old(g).book.(userPipes := userPipes, loans := old(g).book.loans + {inputFd})
      ensures var (w, input, said) := W.TakeFrom(old(g).world, id, from, line);
        from >= 0 ==> g.world == w && sent == old(sent) + said && inputFd in k.table && input == Some(k.table[inputFd]) && input != Some(DevNull)
    {
      assert TiedTo(clients[id], id, g.book, g.cores, g.world.registry);
      assert TiedTo(clients[from], from, g.book, g.cores, g.world.registry);
      inputFd := TakeUserPipe(from, id);
      Broadcast(Received(clients[id].name, id, clients[from].name, from, line));
    }

    // `<N`: the pipe, or /dev/null with a complaint.
    method ResolveInput(id: int, from: int, line: string) returns (inputFd: int, devNullInFd: int)
      requires Valid() && id in clients
      modifies k`table, k`badCloses, this`g, this`userPipes, this`sent
      ensures Consistent() && k.badCloses == old(k.badCloses) && (inputFd == -1 || (inputFd > STDERR && inputFd in k.table))
      ensures id in old(g).world.registry.clients
      ensures var (w, input, said) := W.TakeFrom(old(g).world, id, from, line);
        && g.world == w && sent == old(sent) + said && input == (if inputFd == -1 then None else Some(k.table[inputFd]))
        && devNullInFd == if input == Some(DevNull) then inputFd else -1
      ensures g.book == old(g).book.(userPipes := userPipes, loans := InTransit(inputFd))
    {
      hide Backed;
      inputFd, devNullInFd := -1, -1;
      assert sent == sent + [];
      if from < 0 {
        return;
      }
      if from in clients && (from, id) in userPipes {
        inputFd := ReceivePipe(id, from, line);
      } else {
        devNullInFd := Refuse(id, if from !in clients then NoUser(from) else NoPipe(from, id));
        inputFd := devNullInFd;
      }
    }

    // What the last command may be given: something open that no shell owns and that is not lent as input.
    ghost predicate Lendable(fd: int, id: int, others: set<int>)
      reads this`g, k
    {
      fd in k.table && fd > STDERR && fd !in others && id in g.book.shells && fd !in Fds(g.book.shells[id])
    }

    method SendPipe(id: int, to: int, line: string) returns (outputFd: int)
      requires Consistent() && id in clients && to in clients && (id, to) !in userPipes
      modifies k`table, k`pipesMade, this`g, this`userPipes, this`sent
      ensures Consistent() && id in old(g).world.registry.clients
      ensures g.book == old(g).book.(userPipes := userPipes) && Lendable(outputFd, id, g.book.loans)
      ensures forall d :: d in old(k.table) ==> d in k.table && k.table[d] == old(k.table)[d]
      ensures var (w, output, said) := W.SendInto(old(g).world, id, to, line);
        to >= 0 ==> g.world == w && sent == old(sent) + said && output == Some(k.table[outputFd]) && output != Some(DevNull)
    {
      hide Owned, Fds;
      assert TiedTo(clients[id], id, g.book, g.cores, g.world.registry);
      assert TiedTo(clients[to], to, g.book, g.cores, g.world.registry);
      outputFd := MakeUserPipe(id, to);
      assert outputFd in Claims(g.book, OfPipe(id, to));
      NotOfShell(k.table, g.owner, g.book, OfPipe(id, to), outputFd, id);
      NotOnLoan(k.table, g.owner, g.book, OfPipe(id, to), outputFd);
      AboveStandard(k.table, g.owner, g.book, OfPipe(id, to), outputFd);
      Broadcast(Piped(clients[id].name, id, line, clients[to].name, to));
    }

    method RefuseOutput(id: int, notice: Notice) returns (fd: int)
      requires Consistent() && id in clients
      modifies k`table, this`g, this`sent
      ensures Consistent() && g.book == old(g).book.(loans := old(g).book.loans + {fd}) && fd !in old(g).book.loans
      ensures g.world == old(g).world && Lendable(fd, id, old(g).book.loans)
      ensures fd !in old(k.table) && fd > STDERR && k.table == old(k.table)[fd := DevNull]
      ensures sent == old(sent) + [Delivery({id}, notice)]
    {
      fd := Refuse(id, notice);
      assert TiedTo(clients[id], id, g.book, g.cores, g.world.registry);
      NotOfShell(k.table, g.owner, g.book, OnLoan, fd, id);
    }

    // `>N`: a new pipe, or /dev/null with a complaint.
    method ResolveOutput(id: int, to: int, line: string) returns (outputFd: int, devNullOutFd: int)
      requires Consistent() && id in clients
      modifies k`table, k`pipesMade, this`g, this`userPipes, this`sent
      ensures Consistent() && id in old(g).world.registry.clients
      ensures g.book == old(g).book.(userPipes := userPipes, loans := old(g).book.loans + InTransit(devNullOutFd))
      ensures InTransit(devNullOutFd) !! old(g).book.loans && (devNullOutFd == -1 || devNullOutFd > STDERR)
      ensures forall d :: d in old(k.table) ==> d in k.table && k.table[d] == old(k.table)[d]
      ensures var (w, output, said) := W.SendInto(old(g).world, id, to, line);
        && g.world == w && sent == old(sent) + said
        && (if output == None then outputFd == -1 else Lendable(outputFd, id, old(g).book.loans) && output == Some(k.table[outputFd]))
        && devNullOutFd == if output == Some(DevNull) then outputFd else -1
    {
      hide Backed;
      outputFd, devNullOutFd := -1, -1;
      assert sent == sent + [];
      if to < 0 {
        return;
      }
      if to in clients && (id, to) !in userPipes {
        outputFd := SendPipe(id, to, line);
      } else {
        devNullOutFd := RefuseOutput(id, if to !in clients then NoUser(to) else PipeExists(id, to));
        outputFd := devNullOutFd;
      }
    }

    // ----- running a line -----

    // No descriptor was closed twice, and what is open is exactly what the fields of the server name.
    ghost predicate Intact(badCloses: nat)
      reads this`clients, this`userPipes, this`g, k
    {
      k.badCloses == badCloses && Tied(clients, userPipes, listenFd, g) && Balanced(k.table, g)
    }

    lemma ValidIsIntact()
      requires Valid()
      ensures Intact(k.badCloses)
    {
      assert g.book.(loans := {}) == g.book;
      OwnedExactly(k.table, g.owner, g.book);
    }

    method CloseBoth(a: int, b: int, ghost g': Ledger)
      modifies k`table, k`badCloses, this`g
      ensures k.table == old(k.table) - InTransit(a) - InTransit(b) && g == g'
      ensures k.badCloses == old(k.badCloses) + BadCloses(old(k.table), a, b)
      ensures old(k.Valid()) && (a >= 0 ==> a > STDERR) && (b >= 0 ==> b > STDERR) ==> k.Valid()
    {
      var _ := CloseFd(k, a);
      var _ := CloseFd(k, b);
      g := g';
    }

    // closeUserPipeResolution. taken says whether the first command took the input.
    method CloseUserPipeResolution(devNullInFd: int, devNullOutFd: int, ghost inputFd: int, ghost taken: bool)
      requires Consistent() && inputFd >= -1 && devNullOutFd >= -1 && InTransit(devNullOutFd) !! InTransit(inputFd)
      requires g.book.loans == (if taken then {} else InTransit(inputFd)) + InTransit(devNullOutFd)
      requires devNullInFd == -1 || devNullInFd == inputFd
      requires taken ==> inputFd >= 0
      modifies k`table, k`badCloses, this`g
      ensures inputFd == -1 || (taken <==> devNullInFd == -1) <==> Intact(old(k.badCloses))
      ensures inputFd == -1 || (taken <==> devNullInFd == -1) ==> Valid() && g.world == old(g).world
    {
      hide Balanced;
      ghost var g' := Released(clients, userPipes, listenFd, g, k.table, k.pipesMade, devNullInFd, devNullOutFd, inputFd, taken);
      CloseBoth(devNullInFd, devNullOutFd, g');
    }

    // Commands of a client get none of the user pipes they were not given.
    method CollectUserPipeFds() returns (fds: seq<int>)
      ensures forall fd :: fd in fds <==> exists p :: p in userPipes && (fd == userPipes[p].readFd || fd == userPipes[p].writeFd)
    {
      fds := [];
      var unseen := userPipes.Keys;
      while unseen != {}
        invariant unseen <= userPipes.Keys
        invariant forall fd :: fd in fds <==>
          exists p :: p in userPipes && p !in unseen && (fd == userPipes[p].readFd || fd == userPipes[p].writeFd)
        decreases |unseen|
      {
        SomePair(unseen);
        var key :| key in unseen;
        fds := fds + [userPipes[key].readFd, userPipes[key].writeFd];
        unseen := unseen - {key};
      }
    }

    // The descriptors lent to a line are open, and neither the shell's nor each other.
    lemma LineLends(id: int, inputFd: int, outputFd: int, config: ExecutionConfig, np: map<int, PipeFD>)
      requires Consistent() && id in clients && np == g.book.shells[id] && id in g.book.shells
      requires inputFd == -1 || (inputFd > STDERR && inputFd in g.book.loans)
      requires outputFd == -1 || Lendable(outputFd, id, InTransit(inputFd))
      requires config.inputFd == inputFd && config.errorFd == clients[id].fd
      requires config.outputFd == if outputFd >= 0 then outputFd else clients[id].fd
      ensures Lends(k.table, np, config)
      ensures id in g.world.sockets && g.world.sockets[id] == k.table[clients[id].fd]
    {
      var fd := clients[id].fd;
      assert TiedTo(clients[id], id, g.book, g.cores, g.world.registry);
      assert fd in Claims(g.book, OfClient(id));
      NotOfShell(k.table, g.owner, g.book, OfClient(id), fd, id);
      NotOnLoan(k.table, g.owner, g.book, OfClient(id), fd);
      AboveStandard(k.table, g.owner, g.book, OfClient(id), fd);
      if inputFd >= 0 {
        assert inputFd in Claims(g.book, OnLoan);
        NotOfShell(k.table, g.owner, g.book, OnLoan, inputFd, id);
      }
    }

    // The shell of a client and what its line is lent.
    method PrepareLine(id: int, inputFd: int, outputFd: int, ghost cfg: Config) returns (shell: ShellState, config: ExecutionConfig)
      requires Consistent() && id in clients && id in g.world.sockets
      requires inputFd == -1 || (inputFd > STDERR && inputFd in g.book.loans)
      requires outputFd == -1 || Lendable(outputFd, id, InTransit(inputFd))
      requires cfg == W.ConfigFor(g.world.sockets[id], Bound(k.table, inputFd), if outputFd == -1 then None else Some(k.table[outputFd]))
      ensures fresh(shell) && id in g.world.shells && id in g.book.shells
      ensures Holds(k.table, shell.numberedPipes) && Lends(k.table, shell.numberedPipes, config) && Meaning(k.table, config) == cfg
      ensures shell.numberedPipes == g.book.shells[id] && shell.Model(k.table) == g.world.shells[id] && config.inputFd == inputFd
      ensures forall p :: p in userPipes ==> userPipes[p].readFd in config.closeInChild && userPipes[p].writeFd in config.closeInChild
    {
      var fd := clients[id].fd;
      shell := LoadShell(id);
      var extra := CollectUserPipeFds();
      config := ExecutionConfig(inputFd, if outputFd >= 0 then outputFd else fd, fd, outputFd >= 0, extra);
      assert id in g.book.shells by { assert TiedTo(clients[id], id, g.book, g.cores, g.world.registry); }
      LineLends(id, inputFd, outputFd, config, shell.numberedPipes);
    }

    // Run the commands of a line with the descriptors lent to it.
    method RunCommands(id: int, cs: seq<Command>, inputFd: int, outputFd: int, openOk: seq<bool>, ghost cfg: Config)
      requires Consistent() && id in clients && cs != [] && |openOk| == |cs| && id in g.world.sockets
      requires inputFd == -1 || (inputFd > STDERR && inputFd in g.book.loans)
      requires outputFd == -1 || Lendable(outputFd, id, InTransit(inputFd))
      requires cfg == W.ConfigFor(g.world.sockets[id], Bound(k.table, inputFd), if outputFd == -1 then None else Some(k.table[outputFd]))
      modifies k, this`clients, this`g
      ensures Consistent() && k.badCloses == old(k.badCloses) && id in old(g).world.shells
      ensures g.book.loans == old(g).book.loans - if cs[0].argv != [] then InTransit(inputFd) else {}
      ensures g.world == W.RunCommands(old(g).world, id, cs, cfg, openOk)
      ensures Starts(old(k.spawns), k.spawns, W.LineRuns(old(g).world, id, cs, cfg, openOk, Guarded(old(k.table), old(g), id)))
    {
      hide RunLine, Tied, Launched, Guarded, Rest;
      ghost var table, made := k.table, k.pipesMade;
      ghost var taken := if cs[0].argv != [] then InTransit(inputFd) else {};
      var shell, config := PrepareLine(id, inputFd, outputFd, cfg);
      ghost var log := shell.log;
      ExecuteExternalCommands(k, shell, cs, config, openOk);
      ghost var barred := if Guarded(table, g, id) then g.world.serials.Values + shell.owned else {};
      if Guarded(table, g, id) {
        NewPipes(g.world.shells[id], cs, cfg, openOk, made);
        NothingBarred(clients, userPipes, listenFd, g, table, made, id, config.closeInChild, barred);
      }
      LaunchedStarts(old(k.spawns), k.spawns, shell.log[|log|..], table[STDIN], Rest(table, g.book.shells[id], {}),
                     config.closeInChild, barred);
      TakenOnly(Rest(table, g.book.shells[id], {}), ConsumesInput(cs, config), inputFd, taken);
      StoreShell(id, shell, table, made, taken);
    }

    static lemma TakenOnly(rest: map<int, Endpoint>, consumes: bool, inputFd: int, taken: set<int>)
      requires taken == if consumes then {inputFd} else {}
      ensures Left(rest, consumes, inputFd) == rest - taken
    {
    }

    // setenv and printenv never reach the user pipes of their line.
    method TryShellBuiltin(id: int, command: Command) returns (handled: bool)
      requires Valid() && id in clients
      modifies k`table, k`badCloses, this`clients, this`g
      ensures handled == W.IsShellBuiltin([command])
      ensures Valid() && k.badCloses == old(k.badCloses) && clients.Keys == old(clients.Keys) && id in old(g).world.shells
      ensures var c := old(clients)[id];
        clients == old(clients)[id :=
          if !handled then c
          else Taken(c, c.numberedPipes - {c.executedSegments + 1}, c.executedSegments + 1,
                     if command.argv[0] == "setenv" && |command.argv| >= 3 then c.env[command.argv[1] := command.argv[2]] else c.env)]
      ensures if handled then g.world == W.UseSegment(old(g).world, id) else g.world == old(g).world
    {
      hide Tied, Owned, Rest, Holds;
      ghost var table := k.table;
      var shell := LoadShell(id);
      var printed;
      handled, printed := ExecuteShellBuiltin(k, shell, command);
      assert Rest(table, g.book.shells[id], {}) - {} == Rest(table, g.book.shells[id], {});
      StoreShell(id, shell, table, k.pipesMade, {});
      assert g.world.shells == if handled then W.UseSegment(old(g).world, id).shells else old(g).world.shells;
    }

    method ResolveUserPipes(id: int, from: int, to: int, line: string)
      returns (inputFd: int, devNullInFd: int, outputFd: int, devNullOutFd: int,
               ghost input: Option<Endpoint>, ghost output: Option<Endpoint>, ghost said: seq<Delivery>)
      requires Valid() && id in clients
      modifies k`table, k`badCloses, k`pipesMade, this`g, this`userPipes, this`sent
      ensures Consistent() && k.badCloses == old(k.badCloses) && id in old(g).world.registry.clients
      ensures (inputFd == -1 || (inputFd > STDERR && inputFd in g.book.loans)) && (outputFd == -1 || Lendable(outputFd, id, InTransit(inputFd)))
      ensures (devNullOutFd == -1 || devNullOutFd > STDERR) && InTransit(devNullOutFd) !! InTransit(inputFd)
      ensures g.book.loans == InTransit(inputFd) + InTransit(devNullOutFd)
      ensures W.Lend(old(g).world, id, from, to, line) == (g.world, input, output, said) && sent == old(sent) + said
      ensures Bound(k.table, inputFd) == input && output == if outputFd == -1 then None else Some(k.table[outputFd])
      ensures devNullInFd == (if input == Some(DevNull) then inputFd else -1) && (input == None <==> inputFd == -1)
      ensures devNullOutFd >= 0 ==> Bound(k.table, devNullOutFd) == Some(DevNull)
    {
      ghost var world, told := g.world, sent;
      inputFd, devNullInFd := ResolveInput(id, from, line);
      ghost var took := W.TakeFrom(world, id, from, line);
      outputFd, devNullOutFd := ResolveOutput(id, to, line);
      ghost var gave := W.SendInto(took.0, id, to, line);
      input, output, said := took.1, gave.1, took.2 + gave.2;
      SaidInTurn(told, took.2, gave.2);
    }

    static lemma SaidInTurn(told: seq<Delivery>, a: seq<Delivery>, b: seq<Delivery>)
      ensures told + a + b == told + (a + b)
    {
    }

    // Run the commands, then release the user pipes.
    method RunAndRelease(id: int, cs: seq<Command>, inputFd: int, devNullInFd: int, outputFd: int, devNullOutFd: int, openOk: seq<bool>,
                         ghost cfg: Config)
      requires Consistent() && id in clients && cs != [] && |openOk| == |cs| && id in g.world.sockets
      requires (inputFd == -1 || (inputFd > STDERR && inputFd in g.book.loans)) && (outputFd == -1 || Lendable(outputFd, id, InTransit(inputFd)))
      requires (devNullOutFd == -1 || devNullOutFd > STDERR) && InTransit(devNullOutFd) !! InTransit(inputFd)
      requires g.book.loans == InTransit(inputFd) + InTransit(devNullOutFd)
      requires devNullInFd == -1 || devNullInFd == inputFd
      requires cfg == W.ConfigFor(g.world.sockets[id], Bound(k.table, inputFd), if outputFd == -1 then None else Some(k.table[outputFd]))
      modifies k, this`clients, this`g
      ensures id in old(g).world.shells
      ensures inputFd == -1 || (cs[0].argv != [] <==> devNullInFd == -1) <==> Intact(old(k.badCloses))
      ensures inputFd == -1 || (cs[0].argv != [] <==> devNullInFd == -1) ==>
        Valid() && g.world == W.RunCommands(old(g).world, id, cs, cfg, openOk)
      ensures Starts(old(k.spawns), k.spawns, W.LineRuns(old(g).world, id, cs, cfg, openOk, Guarded(old(k.table), old(g), id)))
    {
      hide W.RunCommands;
      RunCommands(id, cs, inputFd, outputFd, openOk, cfg);
      LoansLeft(InTransit(inputFd), InTransit(devNullOutFd), cs[0].argv != []);
      CloseUserPipeResolution(devNullInFd, devNullOutFd, inputFd, cs[0].argv != [] && inputFd >= 0);
    }

    static lemma LoansLeft(a: set<int>, b: set<int>, taken: bool)
      requires a !! b
      ensures a + b - (if taken then a else {}) == (if taken then {} else a) + b
    {
    }

    // Resolve the user pipes, run the commands, release the user pipes.
    method RunTiedLine(id: int, cs: seq<Command>, from: int, to: int, line: string, openOk: seq<bool>)
      returns (ghost lent: W.World, ghost input: Option<Endpoint>, ghost output: Option<Endpoint>, ghost said: seq<Delivery>)
      requires Valid() && id in clients && cs != [] && |openOk| == |cs|
      modifies this, k
      ensures id in old(g).world.registry.clients && id in lent.sockets && id in lent.shells
      ensures W.Lend(old(g).world, id, from, to, line) == (lent, input, output, said)
      ensures input == None || (cs[0].argv != [] <==> input != Some(DevNull)) <==> Intact(old(k.badCloses))
      ensures input == None || (cs[0].argv != [] <==> input != Some(DevNull)) ==>
        && Valid() && sent == old(sent) + said
        && g.world == W.RunCommands(lent, id, cs, W.ConfigFor(lent.sockets[id], input, output), openOk)
      ensures Starts(old(k.spawns), k.spawns, W.LineRuns(lent, id, cs, W.ConfigFor(lent.sockets[id], input, output), openOk,
                                                         W.Sane(old(g).world) && W.Apart(old(g).world)))
    {
      hide Tied, W.RunCommands, Backed, Guarded, W.Apart, W.LineRuns;
      var inputFd, devNullInFd, outputFd, devNullOutFd;
      inputFd, devNullInFd, outputFd, devNullOutFd, input, output, said := ResolveUserPipes(id, from, to, line);
      lent := g.world;
      LedgerPresent(clients, userPipes, listenFd, g, k.table, k.pipesMade, id);
      if W.Sane(old(g).world) && W.Apart(old(g).world) {
        LendGuards(k.table, old(g).world, g, id, from, to, line, inputFd, devNullOutFd, output);
      }
      ghost var cfg := W.ConfigFor(g.world.sockets[id], input, output);
      RunAndRelease(id, cs, inputFd, devNullInFd, outputFd, devNullOutFd, openOk, cfg);
      if !(W.Sane(old(g).world) && W.Apart(old(g).world)) {
        StartsLoosely(old(k.spawns), k.spawns, lent, id, cs, cfg, openOk);
      }
    }

    static lemma StartsLoosely(before: seq<SpawnRecord>, after: seq<SpawnRecord>, w: W.World, id: int, cs: seq<Command>, cfg: Config,
                               openOk: seq<bool>)
      requires id in w.shells && |openOk| == |cs|
      ensures forall apart :: Starts(before, after, W.LineRuns(w, id, cs, cfg, openOk, apart))
                ==> Starts(before, after, W.LineRuns(w, id, cs, cfg, openOk, false))
    {
      hide W.RunCommands;
    }

    method ExecuteTied(id: int, cs: seq<Command>, from: int, to: int, line: string, openOk: seq<bool>)
      requires Valid() && id in clients && cs != [] && |openOk| == |cs| && !W.IsShellBuiltin(cs)
      modifies this, k
      ensures W.Present(old(g).world, id)
      ensures W.Tidy(old(g).world, W.Execute(id, cs, from, to, line, openOk)) <==> Intact(old(k.badCloses))
      ensures Intact(old(k.badCloses)) ==>
        && Valid() && (g.world, sent) == var (w, said) := W.Tie(old(g).world, id, W.Execute(id, cs, from, to, line, openOk)); (w, old(sent) + said)
      ensures Starts(old(k.spawns), k.spawns, W.RunsAt(old(g).world, W.Execute(id, cs, from, to, line, openOk)))
    {
      hide Tied, Backed;
      LedgerPresent(clients, userPipes, listenFd, g, k.table, k.pipesMade, id);
      TidyMeans(g.world, id, cs, from, to, line, openOk);
      ghost var lent, input, output, said := RunTiedLine(id, cs, from, to, line, openOk);
      TieStep(old(g).world, id, W.Execute(id, cs, from, to, line, openOk), lent, input, output, said);
    }

    method TryLine(id: int, cs: seq<Command>) returns (handled: bool)
      requires Valid() && id in clients && cs != []
      modifies k`table, k`badCloses, this`clients, this`g
      ensures handled == W.IsShellBuiltin(cs) && id in old(g).world.shells
      ensures Valid() && k.badCloses == old(k.badCloses) && clients.Keys == old(clients.Keys)
      ensures g.world == if handled then W.UseSegment(old(g).world, id) else old(g).world
    {
      handled := false;
      if |cs| == 1 {
        assert cs == [cs[0]];
        handled := TryShellBuiltin(id, cs[0]);
      }
      LedgerPresent(clients, userPipes, listenFd, g, k.table, k.pipesMade, id);
    }

    // A line of commands. The server comes out of it with nothing closed twice and nothing left open that it does not
    // hold exactly when a `<N` of the line finds its pipe just if the first command has arguments; then the line has had
    // its effect, and no other.
    method ExecuteLine(id: int, cs: seq<Command>, from: int, to: int, line: string, openOk: seq<bool>)
      requires Valid() && id in clients && cs != [] && |openOk| == |cs|
      modifies this, k
      ensures W.Present(old(g).world, id)
      ensures W.Tidy(old(g).world, W.Execute(id, cs, from, to, line, openOk)) <==> Intact(old(k.badCloses))
      ensures Intact(old(k.badCloses)) ==> Valid()
      ensures Intact(old(k.badCloses)) && W.IsShellBuiltin(cs) ==> g.world == W.UseSegment(old(g).world, id) && sent == old(sent)
      ensures Intact(old(k.badCloses)) && !W.IsShellBuiltin(cs) ==>
        var (w, said) := W.Tie(old(g).world, id, W.Execute(id, cs, from, to, line, openOk)); g.world == w && sent == old(sent) + said
      ensures Starts(old(k.spawns), k.spawns, W.RunsAt(old(g).world, W.Execute(id, cs, from, to, line, openOk)))
    {
      hide Tied, Backed, RunLine;
      LedgerPresent(clients, userPipes, listenFd, g, k.table, k.pipesMade, id);
      var handled := TryLine(id, cs);
      if handled {
        ValidIsIntact();
      } else {
        ExecuteTied(id, cs, from, to, line, openOk);
      }
    }

    // ----- the whole server -----

    // One builtin of the server.
    method HandleBuiltin(i: W.Input)
      requires Valid() && (i.Who? || i.Rename? || i.TellUser? || i.YellAll?) && i.id in clients
      modifies this, k`table, k`badCloses
      ensures Valid() && k.badCloses == old(k.badCloses)
      ensures g.world == W.Step(old(g).world, i).0 && sent == old(sent) + W.Step(old(g).world, i).1
    {
      hide Tied, W.Present;
      LedgerPresent(clients, userPipes, listenFd, g, k.table, k.pipesMade, i.id);
      assert sent == sent + [];
      match i {
        case Rename(id, newName) =>
          NameStep(g.world, id, newName);
          SetName(id, newName);
        case TellUser(id, target, text) =>
          TellStep(g.world, id, target, text);
          TellUser(id, target, text);
        case YellAll(id, text) =>
          YellStep(g.world, id, text);
          YellAll(id, text);
        case Who(id) =>
          YellStep(g.world, id, "");
          AdvanceSegment(id);
      }
    }

    method HandleLine(i: W.Input)
      requires Valid() && i.Execute? && W.ValidInput(i) && i.id in clients
      modifies this, k
      ensures W.Tidy(old(g).world, i) <==> Intact(old(k.badCloses))
      ensures W.Tidy(old(g).world, i) ==> Valid() && g.world == W.Step(old(g).world, i).0 && sent == old(sent) + W.Step(old(g).world, i).1
      ensures Starts(old(k.spawns), k.spawns, W.RunsAt(old(g).world, i))
    {
      hide W.Tie, Tied;
      LedgerPresent(clients, userPipes, listenFd, g, k.table, k.pipesMade, i.id);
      ExecuteStep(g.world, i.id, i.cs, i.from, i.to, i.line, i.openOk);
      assert sent == sent + [];
      ExecuteLine(i.id, i.cs, i.from, i.to, i.line, i.openOk);
    }

    // Whatever happens on the listening socket or on a client's.
    method Handle(i: W.Input)
      requires Valid()
      modifies this, k
      ensures W.Tidy(old(g).world, i) <==> Intact(old(k.badCloses))
      ensures W.Tidy(old(g).world, i) ==> Valid() && g.world == W.Step(old(g).world, i).0 && sent == old(sent) + W.Step(old(g).world, i).1
      ensures Starts(old(k.spawns), k.spawns, W.RunsAt(old(g).world, i))
    {
      hide Tied, WorldOf, Owned;
      if i.Connect? {
        AcceptClient(i.ip, i.port, i.peer);
        ValidIsIntact();
        return;
      }
      LedgerPresent(clients, userPipes, listenFd, g, k.table, k.pipesMade, i.id);
      if i.Hangup? {
        CleanupClient(i.id);
        ValidIsIntact();
      } else if i.id !in clients || !W.ValidInput(i) {
        AbsentStep(g.world, i);
        assert sent == sent + [];
        ValidIsIntact();
      } else if i.Execute? {
        HandleLine(i);
      } else {
        HandleBuiltin(i);
        ValidIsIntact();
      }
    }

    // A run of the server in which every line is tidy: the server has done what the world without descriptor numbers
    // does, has started exactly the commands of that world with their routes, in order, has told its clients exactly what
    // it says, has closed nothing twice, and has open exactly what it holds.
    method Serve(inputs: seq<W.Input>)
      requires Valid() && g.world == W.Birth(k.pipesMade) && sent == []
      requires forall n :: 0 <= n < |inputs| ==> W.Tidy(W.After(k.pipesMade, inputs[..n]), inputs[n])
      modifies this, k
      ensures Valid() && Intact(old(k.badCloses))
      ensures g.world == W.After(old(k.pipesMade), inputs) && sent == W.Heard(old(k.pipesMade), inputs)
      ensures Starts(old(k.spawns), k.spawns, W.Started(old(k.pipesMade), inputs))
    {
      var n := 0;
      ghost var made := k.pipesMade;
      while n < |inputs|
        invariant 0 <= n <= |inputs| && Valid() && k.badCloses == old(k.badCloses)
        invariant g.world == W.After(made, inputs[..n]) && sent == W.Heard(made, inputs[..n])
        invariant Starts(old(k.spawns), k.spawns, W.Started(made, inputs[..n]))
      {
        W.AfterSnoc(made, inputs, n);
        ghost var spawns := k.spawns;
        Handle(inputs[n]);
        StartsInTurn(old(k.spawns), spawns, k.spawns, W.Started(made, inputs[..n]), W.RunsAt(W.After(made, inputs[..n]), inputs[n]));
        n := n + 1;
      }
      assert inputs[..n] == inputs;
      ValidIsIntact();
    }
  }
}
