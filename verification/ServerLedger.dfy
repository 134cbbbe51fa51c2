/** The books of the single-process server: how each of its operations changes what is open, and what that means. */
module ServerLedger {
  import opened Commands
  import opened Routing
  import opened Kernel
  import opened Descriptors
  import opened ShellCore
  import opened Registry
  import opened RegistryRuns
  import opened Ownership
  import W = ServerWorld

  // ----- descriptor tables as worlds -----

  ghost function SocketsOf(table: map<int, Endpoint>, sockets: map<int, int>): map<int, Endpoint> {
    map id | id in sockets && sockets[id] in table :: table[sockets[id]]
  }

  ghost function ModelOf(table: map<int, Endpoint>, np: map<int, PipeFD>, core: Shell): Shell {
    core.(pipes := PipesOf(table, np))
  }

  ghost function ModelsOf(table: map<int, Endpoint>, shells: map<int, map<int, PipeFD>>, cores: map<int, Shell>): map<int, Shell> {
    map id | id in shells && id in cores :: ModelOf(table, shells[id], cores[id])
  }

  ghost function WorldOf(table: map<int, Endpoint>, h: Holdings, cores: map<int, Shell>, registry: Single, made: nat): W.World
    requires forall p :: p in h.userPipes ==> Joined(table, h.userPipes[p])
  {
    W.World(registry, UserSerials(table, h.userPipes), SocketsOf(table, h.sockets), ModelsOf(table, h.shells, cores), made)
  }

  lemma SameSockets(table: map<int, Endpoint>, table': map<int, Endpoint>, sockets: map<int, int>)
    requires forall i :: i in sockets ==> sockets[i] in table && sockets[i] in table' && table'[sockets[i]] == table[sockets[i]]
    ensures SocketsOf(table', sockets) == SocketsOf(table, sockets)
  {
    var a, b := SocketsOf(table, sockets), SocketsOf(table', sockets);
    forall id ensures (id in a <==> id in b) && (id in a ==> a[id] == b[id]) {}
  }

  lemma SameModels(table: map<int, Endpoint>, table': map<int, Endpoint>, shells: map<int, map<int, PipeFD>>, cores: map<int, Shell>)
    requires forall i :: i in shells ==> PipesOf(table', shells[i]) == PipesOf(table, shells[i])
    ensures ModelsOf(table', shells, cores) == ModelsOf(table, shells, cores)
  {
    var a, b := ModelsOf(table, shells, cores), ModelsOf(table', shells, cores);
    forall id ensures (id in a <==> id in b) && (id in a ==> a[id] == b[id]) {}
  }

  // The table changed where neither shells nor sockets look.
  lemma SameWorld(table: map<int, Endpoint>, table': map<int, Endpoint>, h: Holdings, cores: map<int, Shell>)
    requires Unmoved(table, table', h.shells, h.sockets)
    ensures SocketsOf(table', h.sockets) == SocketsOf(table, h.sockets)
    ensures ModelsOf(table', h.shells, cores) == ModelsOf(table, h.shells, cores)
  {
    SameSockets(table, table', h.sockets);
    SameModels(table, table', h.shells, cores);
  }

  // ----- the ledger -----

  // The shell of a client is part of the client; pipes and segment counter are those of its ShellState.
  datatype Client = Client(
    id: int, fd: int, name: string, ip: string, port: int,
    numberedPipes: map<int, PipeFD>, executedSegments: int, env: map<string, string>)

  // Who owns each open descriptor; what is held; the shells but for their pipes; the server without descriptor
  // numbers. Loans are descriptors held by local variables.
  datatype Ledger = Ledger(owner: map<int, Owner>, book: Holdings, cores: map<int, Shell>, world: W.World)

  predicate TiedTo(c: Client, id: int, h: Holdings, cores: map<int, Shell>, registry: Single) {
    && c.id == id
    && id in h.sockets && h.sockets[id] == c.fd
    && id in h.shells && h.shells[id] == c.numberedPipes
    && id in cores && cores[id].pipes == map[] && cores[id].executed == c.executedSegments
    && id in registry.clients && registry.clients[id] == Registry.Member(c.name, c.ip, c.port)
  }

  // The fields of the server agree with the ledger, and ids match their keys.
  ghost predicate Tied(clients: map<int, Client>, userPipes: map<(int, int), PipeFD>, listenFd: int, g: Ledger) {
    match g
    case Ledger(_, h, cores, world) =>
      && clients.Keys == h.sockets.Keys == h.shells.Keys == cores.Keys == world.registry.clients.Keys
      && h.listenFd == listenFd && h.userPipes == userPipes && world.registry.pipes == userPipes.Keys
      && forall id :: id in clients ==> TiedTo(clients[id], id, h, cores, world.registry)
  }

  // Every open descriptor is owned, and the table amounts to the ledger's world.
  ghost predicate Backed(table: map<int, Endpoint>, made: nat, g: Ledger) {
    match g
    case Ledger(owner, h, cores, world) => Owned(table, owner, h) && world == WorldOf(table, h, cores, world.registry, made)
  }

  // A descriptor enters or leaves a local variable.
  function Borrow(g: Ledger, fd: int): Ledger {
    g.(owner := g.owner[fd := OnLoan], book := g.book.(loans := g.book.loans + {fd}))
  }

  function Return(g: Ledger, fd: int): Ledger {
    g.(owner := g.owner - {fd}, book := g.book.(loans := g.book.loans - {fd}))
  }

  lemma BorrowBacked(table: map<int, Endpoint>, made: nat, g: Ledger, fd: int, e: Endpoint)
    requires Backed(table, made, g) && fd !in table
    ensures Backed(table[fd := e], made, Borrow(g, fd))
    ensures fd !in g.book.loans && (fd >= 0 ==> fd > STDERR)
  {
    OpenLoan(table, g.owner, g.book, fd, e);
    SameWorld(table, table[fd := e], g.book, g.cores);
    assert fd in Claims(g.book, OnLoan) ==> fd in g.owner;
    assert fd in {STDIN, STDOUT, STDERR} ==> fd in Claims(g.book, Standard);
  }

  lemma ReturnBacked(table: map<int, Endpoint>, made: nat, g: Ledger, fd: int)
    requires Backed(table, made, g) && fd in g.book.loans
    ensures Backed(table - {fd}, made, Return(g, fd)) && fd in table
    ensures fd >= 0 ==> fd > STDERR
  {
    CloseLoan(table, g.owner, g.book, fd);
    SameWorld(table, table - {fd}, g.book, g.cores);
    assert fd in Claims(g.book, OnLoan);
    assert fd in {STDIN, STDOUT, STDERR} ==> fd in Claims(g.book, Standard);
  }

  function ReturnIf(g: Ledger, fd: int): Ledger {
    if fd < 0 then g else Return(g, fd)
  }

  lemma ReturnIfKept(clients: map<int, Client>, userPipes: map<(int, int), PipeFD>, listenFd: int, g: Ledger,
                     table: map<int, Endpoint>, made: nat, fd: int)
    requires Tied(clients, userPipes, listenFd, g) && Backed(table, made, g) && (fd < 0 || fd in g.book.loans)
    ensures Tied(clients, userPipes, listenFd, ReturnIf(g, fd)) && Backed(table - InTransit(fd), made, ReturnIf(g, fd))
    ensures ReturnIf(g, fd).book == g.book.(loans := g.book.loans - InTransit(fd)) && ReturnIf(g, fd).world == g.world
    ensures fd >= 0 ==> fd in table && fd > STDERR
  {
    if fd >= 0 {
      ReturnBacked(table, made, g, fd);
      LoanTied(clients, userPipes, listenFd, g, fd);
    } else {
      assert table - {} == table && g.book.loans - {} == g.book.loans;
    }
  }

  lemma LoanTied(clients: map<int, Client>, userPipes: map<(int, int), PipeFD>, listenFd: int, g: Ledger, fd: int)
    requires Tied(clients, userPipes, listenFd, g)
    ensures Tied(clients, userPipes, listenFd, Borrow(g, fd)) && Tied(clients, userPipes, listenFd, Return(g, fd))
  {
  }

  // ----- a client enters -----

  function WithClient(w: W.World, id: int, ip: string, port: int, peer: nat): W.World {
    w.(registry := w.registry.(clients := w.registry.clients[id := Registry.Member(DEFAULT_NAME, ip, port)]),
       sockets := w.sockets[id := Socket(peer)], shells := w.shells[id := FRESH_SHELL])
  }

  function Entry(g: Ledger, id: int, fd: int, ip: string, port: int, peer: nat): Ledger {
    Ledger(g.owner[fd := OfClient(id)],
           g.book.(sockets := g.book.sockets[id := fd], shells := g.book.shells[id := map[]], loans := g.book.loans - {fd}),
           g.cores[id := FRESH_SHELL],
           WithClient(g.world, id, ip, port, peer))
  }

  lemma OneMoreClient(table: map<int, Endpoint>, h: Holdings, cores: map<int, Shell>, id: int, fd: int, peer: nat)
    requires fd in table && table[fd] == Socket(peer) && id !in h.sockets && id !in h.shells
    ensures SocketsOf(table, h.sockets[id := fd]) == SocketsOf(table, h.sockets)[id := Socket(peer)]
    ensures ModelsOf(table, h.shells[id := map[]], cores[id := FRESH_SHELL]) == ModelsOf(table, h.shells, cores)[id := FRESH_SHELL]
  {
    assert ModelOf(table, map[], FRESH_SHELL) == FRESH_SHELL;
  }

  lemma EntryBacked(table: map<int, Endpoint>, made: nat, g: Ledger, id: int, fd: int, ip: string, port: int, peer: nat)
    requires Backed(table, made, g) && fd in g.book.loans && id !in g.book.sockets && id !in g.book.shells
    requires fd in table && table[fd] == Socket(peer)
    ensures Backed(table, made, Entry(g, id, fd, ip, port, peer))
  {
    AddClient(table, g.owner, g.book, id, fd);
    OneMoreClient(table, g.book, g.cores, id, fd, peer);
  }

  lemma EntryTied(clients: map<int, Client>, userPipes: map<(int, int), PipeFD>, listenFd: int, g: Ledger, c: Client, peer: nat)
    requires Tied(clients, userPipes, listenFd, g)
    requires c.name == DEFAULT_NAME && c.numberedPipes == map[] && c.executedSegments == 0
    ensures Tied(clients[c.id := c], userPipes, listenFd, Entry(g, c.id, c.fd, c.ip, c.port, peer))
  {
    var clients', g' := clients[c.id := c], Entry(g, c.id, c.fd, c.ip, c.port, peer);
    forall i | i in clients' ensures TiedTo(clients'[i], i, g'.book, g'.cores, g'.world.registry) {
      assert i != c.id ==> TiedTo(clients[i], i, g.book, g.cores, g.world.registry);
    }
  }

  lemma ConnectStep(w: W.World, ip: string, port: int, peer: nat)
    ensures W.Step(w, W.Connect(ip, port, peer)) ==
      match LeastUnused(w.registry.clients.Keys, 1)
      case None => (w, [])
      case Some(id) => (WithClient(w, id, ip, port, peer),
                        [Delivery({id}, Welcome), Delivery(w.registry.clients.Keys + {id}, Entered(ip, port))])
  {
    match LeastUnused(w.registry.clients.Keys, 1)
    case None =>
    case Some(id) =>
      assert w.registry.clients[id := Registry.Member(DEFAULT_NAME, ip, port)].Keys == w.registry.clients.Keys + {id};
  }

  // ----- a client leaves -----

  function SocketLoaned(g: Ledger, id: int): Ledger
    requires id in g.book.sockets
  {
    var fd := g.book.sockets[id];
    g.(owner := g.owner[fd := OnLoan],
       book := g.book.(sockets := g.book.sockets - {id}, loans := g.book.loans + {fd}),
       world := g.world.(sockets := g.world.sockets - {id}))
  }

  lemma SocketLoanedBacked(table: map<int, Endpoint>, made: nat, g: Ledger, id: int)
    requires Backed(table, made, g) && id in g.book.sockets
    ensures Backed(table, made, SocketLoaned(g, id))
    ensures g.book.sockets[id] in table && g.book.sockets[id] !in g.book.loans
  {
    LoanSocket(table, g.owner, g.book, id);
    NotOnLoan(table, g.owner, g.book, OfClient(id), g.book.sockets[id]);
    var a, b := SocketsOf(table, g.book.sockets) - {id}, SocketsOf(table, g.book.sockets - {id});
    forall i ensures (i in a <==> i in b) && (i in a ==> a[i] == b[i]) {}
  }

  // ----- a shell moves -----

  function ShellMoved(g: Ledger, id: int, owner': map<int, Owner>, np': map<int, PipeFD>, core': Shell, model': Shell, made': nat,
                      taken: set<int>): Ledger {
    Ledger(owner', g.book.(shells := g.book.shells[id := np'], loans := g.book.loans - taken), g.cores[id := core'],
           g.world.(shells := g.world.shells[id := model'], made := made'))
  }

  lemma OneShellMoved(table: map<int, Endpoint>, table': map<int, Endpoint>, shells: map<int, map<int, PipeFD>>, cores: map<int, Shell>,
                      id: int, np': map<int, PipeFD>, core': Shell)
    requires id in shells && id in cores
    requires forall i :: i in shells && i != id ==> PipesOf(table', shells[i]) == PipesOf(table, shells[i])
    ensures ModelsOf(table', shells[id := np'], cores[id := core']) == ModelsOf(table, shells, cores)[id := ModelOf(table', np', core')]
  {
    var a, b := ModelsOf(table', shells[id := np'], cores[id := core']), ModelsOf(table, shells, cores)[id := ModelOf(table', np', core')];
    forall i ensures (i in a <==> i in b) && (i in a ==> a[i] == b[i]) {}
  }

  lemma OthersAlike(table: map<int, Endpoint>, table': map<int, Endpoint>, shells: map<int, map<int, PipeFD>>, sockets: map<int, int>, id: int)
    requires Unmoved(table, table', shells - {id}, sockets)
    ensures forall i :: i in shells && i != id ==> PipesOf(table', shells[i]) == PipesOf(table, shells[i])
  {
    forall i | i in shells && i != id ensures PipesOf(table', shells[i]) == PipesOf(table, shells[i]) {
      assert i in shells - {id};
    }
  }

  lemma MovedWorld(table: map<int, Endpoint>, g: Ledger, id: int, table': map<int, Endpoint>, np': map<int, PipeFD>, core': Shell)
    requires id in g.book.shells && id in g.cores
    requires Unmoved(table, table', g.book.shells - {id}, g.book.sockets)
    ensures SocketsOf(table', g.book.sockets) == SocketsOf(table, g.book.sockets)
    ensures ModelsOf(table', g.book.shells[id := np'], g.cores[id := core']) ==
            ModelsOf(table, g.book.shells, g.cores)[id := ModelOf(table', np', core')]
  {
    OthersAlike(table, table', g.book.shells, g.book.sockets, id);
    OneShellMoved(table, table', g.book.shells, g.cores, id, np', core');
    SameSockets(table, table', g.book.sockets);
  }

  lemma ShellMovedBacked(table: map<int, Endpoint>, made: nat, g: Ledger, id: int,
                         table': map<int, Endpoint>, np': map<int, PipeFD>, core': Shell, made': nat, taken: set<int>)
    requires Backed(table, made, g) && id in g.book.shells && id in g.cores && taken <= g.book.loans
    requires Holds(table', np') && Rest(table', np', {}) == Rest(table, g.book.shells[id], {}) - taken
    ensures Backed(table', made', ShellMoved(g, id, OwnerAfter(table', g.owner, np', id), np', core', ModelOf(table', np', core'), made', taken))
  {
    ShellMoves(table, g.owner, g.book, id, table', np', taken);
    MovedWorld(table, g, id, table', np', core');
  }

  lemma ShellMovedTied(clients: map<int, Client>, userPipes: map<(int, int), PipeFD>, listenFd: int, g: Ledger,
                       id: int, owner': map<int, Owner>, c: Client, core': Shell, model': Shell, made': nat, taken: set<int>)
    requires Tied(clients, userPipes, listenFd, g) && id in clients
    requires c == clients[id].(numberedPipes := c.numberedPipes, executedSegments := c.executedSegments, env := c.env)
    requires core'.pipes == map[] && core'.executed == c.executedSegments
    ensures Tied(clients[id := c], userPipes, listenFd, ShellMoved(g, id, owner', c.numberedPipes, core', model', made', taken))
  {
    var clients', g' := clients[id := c], ShellMoved(g, id, owner', c.numberedPipes, core', model', made', taken);
    forall i | i in clients' ensures TiedTo(clients'[i], i, g'.book, g'.cores, g'.world.registry) {
      assert TiedTo(clients[i], i, g.book, g.cores, g.world.registry);
    }
  }

  lemma ShellStored(clients: map<int, Client>, userPipes: map<(int, int), PipeFD>, listenFd: int, g: Ledger, id: int,
                    table: map<int, Endpoint>, made: nat, table': map<int, Endpoint>, made': nat, taken: set<int>,
                    c: Client, core: Shell) returns (g': Ledger)
    requires Tied(clients, userPipes, listenFd, g) && Backed(table, made, g) && id in clients && taken <= g.book.loans
    requires c == clients[id].(numberedPipes := c.numberedPipes, executedSegments := c.executedSegments, env := c.env)
    requires core.pipes == map[] && core.executed == c.executedSegments
    requires Holds(table', c.numberedPipes)
    requires Rest(table', c.numberedPipes, {}) == Rest(table, g.book.shells[id], {}) - taken
    ensures Tied(clients[id := c], userPipes, listenFd, g') && Backed(table', made', g')
    ensures g'.book == g.book.(shells := g.book.shells[id := c.numberedPipes], loans := g.book.loans - taken)
    ensures g'.world == g.world.(shells := g.world.shells[id := ModelOf(table', c.numberedPipes, core)], made := made')
  {
    var owner', model := OwnerAfter(table', g.owner, c.numberedPipes, id), ModelOf(table', c.numberedPipes, core);
    assert TiedTo(clients[id], id, g.book, g.cores, g.world.registry);
    ShellMovedBacked(table, made, g, id, table', c.numberedPipes, core, made', taken);
    ShellMovedTied(clients, userPipes, listenFd, g, id, owner', c, core, model, made', taken);
    g' := ShellMoved(g, id, owner', c.numberedPipes, core, model, made', taken);
  }

  function ShellForgotten(g: Ledger, id: int): Ledger {
    g.(book := g.book.(shells := g.book.shells - {id}), cores := g.cores - {id}, world := g.world.(shells := g.world.shells - {id}))
  }

  lemma ShellForgottenBacked(table: map<int, Endpoint>, made: nat, g: Ledger, id: int)
    requires Backed(table, made, g) && id in g.book.shells && g.book.shells[id] == map[]
    ensures Backed(table, made, ShellForgotten(g, id))
  {
    ForgetShell(table, g.owner, g.book, id);
    var a, b := ModelsOf(table, g.book.shells, g.cores) - {id}, ModelsOf(table, g.book.shells - {id}, g.cores - {id});
    forall i ensures (i in a <==> i in b) && (i in a ==> a[i] == b[i]) {}
  }

  // ----- user pipes -----

  function PipeLoaned(g: Ledger, a: int, b: int): Ledger
    requires (a, b) in g.book.userPipes
  {
    var p := g.book.userPipes[(a, b)];
    g.(owner := g.owner[p.readFd := OnLoan][p.writeFd := OnLoan],
       book := g.book.(userPipes := g.book.userPipes - {(a, b)}, loans := g.book.loans + {p.readFd, p.writeFd}),
       world := g.world.(serials := g.world.serials - {(a, b)}, registry := g.world.registry.(pipes := g.world.registry.pipes - {(a, b)})))
  }

  lemma PipeLoanedBacked(table: map<int, Endpoint>, made: nat, g: Ledger, a: int, b: int)
    requires Backed(table, made, g) && (a, b) in g.book.userPipes
    ensures Backed(table, made, PipeLoaned(g, a, b))
    ensures var p := g.book.userPipes[(a, b)];
      && Joined(table, p) && (a, b) in g.world.serials && g.world.serials[(a, b)] == Serial(table, p)
      && p.readFd !in g.book.loans && p.writeFd !in g.book.loans
  {
    LoanUserPipe(table, g.owner, g.book, a, b);
    var p := g.book.userPipes[(a, b)];
    NotOnLoan(table, g.owner, g.book, OfPipe(a, b), p.readFd);
    NotOnLoan(table, g.owner, g.book, OfPipe(a, b), p.writeFd);
  }

  // Both ends closed and the pipe forgotten.
  function PipeDropped(g: Ledger, a: int, b: int): Ledger
    requires (a, b) in g.book.userPipes
  {
    var p := g.book.userPipes[(a, b)];
    Return(Return(PipeLoaned(g, a, b), p.readFd), p.writeFd)
  }

  ghost predicate SameButPipes(a: Ledger, b: Ledger) {
    && b.book == a.book.(userPipes := b.book.userPipes) && b.cores == a.cores
    && b.world == a.world.(serials := b.world.serials, registry := a.world.registry.(pipes := b.world.registry.pipes))
  }

  lemma SomePair(s: set<(int, int)>)
    requires s != {}
    ensures exists p :: p in s
  {
    if forall p :: p !in s { assert false; }
  }

  // From one ledger to another exactly these pipes were dropped.
  ghost predicate Dropping(a: Ledger, b: Ledger, dropped: set<(int, int)>) {
    && SameButPipes(a, b)
    && b.book.userPipes == a.book.userPipes - dropped
    && b.world.serials == a.world.serials - dropped
    && b.world.registry.pipes == a.world.registry.pipes - dropped
  }

  lemma DroppingOneMore(a: Ledger, b: Ledger, c: Ledger, dropped: set<(int, int)>, key: (int, int))
    requires Dropping(a, b, dropped) && Dropping(b, c, {key})
    ensures Dropping(a, c, dropped + {key})
  {
  }

  lemma DroppedAll(a: Ledger, b: Ledger, dropped: set<(int, int)>, id: int)
    requires Dropping(a, b, dropped) && a.world.registry.pipes == a.world.serials.Keys == a.book.userPipes.Keys
    requires forall p :: p in dropped ==> p.0 == id || p.1 == id
    requires forall p :: p in b.book.userPipes ==> p.0 != id && p.1 != id
    ensures b.world.serials == W.SerialsWithout(a.world.serials, id)
    ensures b.world.registry.pipes == b.book.userPipes.Keys == W.KeysWithout(a.world.registry.pipes, id)
  {
    forall p ensures p in a.book.userPipes.Keys - dropped <==> p in W.KeysWithout(a.world.registry.pipes, id) {
      assert p in b.book.userPipes <==> p in a.book.userPipes && p !in dropped;
    }
    assert b.world.serials.Keys == W.SerialsWithout(a.world.serials, id).Keys;
  }

  lemma PipeDroppedBacked(table: map<int, Endpoint>, made: nat, g: Ledger, a: int, b: int)
    requires Backed(table, made, g) && (a, b) in g.book.userPipes
    ensures var p, g' := g.book.userPipes[(a, b)], PipeDropped(g, a, b);
      && Joined(table, p) && Backed(table - {p.readFd, p.writeFd}, made, g') && Dropping(g, g', {(a, b)})
      && (p.readFd >= 0 ==> p.readFd > STDERR) && (p.writeFd >= 0 ==> p.writeFd > STDERR)
  {
    var p := g.book.userPipes[(a, b)];
    PipeLoanedBacked(table, made, g, a, b);
    ReturnBacked(table, made, PipeLoaned(g, a, b), p.readFd);
    ReturnBacked(table - {p.readFd}, made, Return(PipeLoaned(g, a, b), p.readFd), p.writeFd);
    assert table - {p.readFd} - {p.writeFd} == table - {p.readFd, p.writeFd};
    assert PipeDropped(g, a, b).book.loans == g.book.loans;
  }

  lemma PipeLoanedTied(clients: map<int, Client>, userPipes: map<(int, int), PipeFD>, listenFd: int, g: Ledger, a: int, b: int)
    requires Tied(clients, userPipes, listenFd, g) && (a, b) in userPipes
    ensures Tied(clients, userPipes - {(a, b)}, listenFd, PipeLoaned(g, a, b))
  {
  }

  function PipeGiven(g: Ledger, a: int, b: int, p: PipeFD, serial: nat): Ledger {
    g.(owner := g.owner[p.readFd := OfPipe(a, b)][p.writeFd := OfPipe(a, b)],
       book := g.book.(userPipes := g.book.userPipes[(a, b) := p], loans := g.book.loans - {p.readFd, p.writeFd}),
       world := g.world.(serials := g.world.serials[(a, b) := serial], registry := g.world.registry.(pipes := g.world.registry.pipes + {(a, b)})))
  }

  lemma PipeGivenBacked(table: map<int, Endpoint>, made: nat, g: Ledger, a: int, b: int, p: PipeFD)
    requires Backed(table, made, g) && (a, b) !in g.book.userPipes
    requires Joined(table, p) && p.readFd in g.book.loans && p.writeFd in g.book.loans
    ensures Backed(table, made, PipeGiven(g, a, b, p, Serial(table, p)))
  {
    GiveUserPipe(table, g.owner, g.book, a, b, p);
  }

  // The kernel has made one more pipe.
  lemma MadeBacked(table: map<int, Endpoint>, made: nat, made': nat, g: Ledger)
    requires Backed(table, made, g)
    ensures Backed(table, made', g.(world := g.world.(made := made')))
  {
  }

  // ----- a whole client leaves -----

  // Once everything of a client is closed it can be erased.
  lemma ErasedTied(clients: map<int, Client>, userPipes: map<(int, int), PipeFD>, userPipes': map<(int, int), PipeFD>,
                   listenFd: int, g: Ledger, g': Ledger, id: int)
    requires Tied(clients, userPipes, listenFd, g) && id in clients
    requires g'.book.listenFd == g.book.listenFd && g'.book.userPipes == userPipes' && g'.world.registry.pipes == userPipes'.Keys
    requires g'.book.sockets == g.book.sockets - {id} && g'.book.shells == g.book.shells - {id} && g'.cores == g.cores - {id}
    requires g'.world.registry.clients == g.world.registry.clients - {id}
    ensures Tied(clients - {id}, userPipes', listenFd, g')
  {
  }

  lemma HangupStep(w: W.World, id: int)
    requires W.Present(w, id) && w.serials.Keys == w.registry.pipes
    ensures var (w', said) := W.Step(w, W.Hangup(id));
      && w'.registry == Single(w.registry.clients - {id}, W.KeysWithout(w.registry.pipes, id))
      && w'.serials == W.SerialsWithout(w.serials, id)
      && w'.sockets == w.sockets - {id} && w'.shells == w.shells - {id} && w'.made == w.made
      && said == [Delivery(w.registry.clients.Keys - {id}, Departed(w.registry.clients[id].name))]
  {
    assert (w.registry.clients - {id}).Keys == w.registry.clients.Keys - {id};
  }

  lemma StrippedSocket(a: Ledger, id: int)
    requires id in a.book.sockets && a.book.sockets[id] !in a.book.loans
    ensures var b := Return(SocketLoaned(a, id), a.book.sockets[id]);
      && b.book == a.book.(sockets := a.book.sockets - {id}) && b.cores == a.cores && b.world == a.world.(sockets := a.world.sockets - {id})
  {
    assert a.book.loans + {a.book.sockets[id]} - {a.book.sockets[id]} == a.book.loans;
  }

  lemma StrippedFields(g: Ledger, id: int, owner': map<int, Owner>, core: Shell, model: Shell)
    ensures var b := ShellForgotten(ShellMoved(g, id, owner', map[], core, model, g.world.made, {}), id);
      && b.book == g.book.(shells := g.book.shells - {id}) && b.cores == g.cores - {id}
      && b.world == g.world.(shells := g.world.shells - {id})
  {
    assert g.book.loans - {} == g.book.loans;
    assert g.book.shells[id := map[]] - {id} == g.book.shells - {id};
    assert g.cores[id := core] - {id} == g.cores - {id};
    assert g.world.shells[id := model] - {id} == g.world.shells - {id};
  }

  lemma StrippedShell(table: map<int, Endpoint>, made: nat, g: Ledger, id: int, table': map<int, Endpoint>) returns (g': Ledger)
    requires Backed(table, made, g) && id in g.book.shells && id in g.cores
    requires Rest(table', map[], {}) == Rest(table, g.book.shells[id], {})
    ensures Backed(table', made, g')
    ensures g'.book == g.book.(shells := g.book.shells - {id}) && g'.cores == g.cores - {id}
    ensures g'.world == g.world.(shells := g.world.shells - {id})
  {
    var core := g.cores[id];
    assert Rest(table, g.book.shells[id], {}) - {} == Rest(table, g.book.shells[id], {});
    ShellMovedBacked(table, made, g, id, table', map[], core, made, {});
    var owner' := OwnerAfter(table', g.owner, map[], id);
    var moved := ShellMoved(g, id, owner', map[], core, ModelOf(table', map[], core), made, {});
    ShellForgottenBacked(table', made, moved, id);
    StrippedFields(g, id, owner', core, ModelOf(table', map[], core));
    g' := ShellForgotten(moved, id);
  }

  lemma WorldPresent(table: map<int, Endpoint>, made: nat, g: Ledger, id: int)
    requires Backed(table, made, g)
    ensures g.world.serials.Keys == g.book.userPipes.Keys
    ensures id in g.world.sockets <==> id in g.book.sockets
    ensures id in g.world.shells <==> id in g.book.shells && id in g.cores
  {
    if id in g.book.sockets {
      NotOnLoan(table, g.owner, g.book, OfClient(id), g.book.sockets[id]);
    }
  }

  lemma LedgerPresent(clients: map<int, Client>, userPipes: map<(int, int), PipeFD>, listenFd: int, g: Ledger,
                      table: map<int, Endpoint>, made: nat, id: int)
    requires Tied(clients, userPipes, listenFd, g) && Backed(table, made, g)
    ensures id in clients <==> W.Present(g.world, id)
    ensures g.world.serials.Keys == g.world.registry.pipes == userPipes.Keys
  {
    WorldPresent(table, made, g, id);
  }

  // ----- a client changes its name -----

  function Renaming(g: Ledger, id: int, newName: string): Ledger
    requires id in g.world.registry.clients
  {
    var registry := g.world.registry;
    g.(world := g.world.(registry := registry.(clients := registry.clients[id := registry.clients[id].(name := newName)])))
  }

  lemma RenamingTied(clients: map<int, Client>, userPipes: map<(int, int), PipeFD>, listenFd: int, g: Ledger, id: int, newName: string)
    requires Tied(clients, userPipes, listenFd, g) && id in clients
    ensures id in g.world.registry.clients
    ensures Tied(clients[id := clients[id].(name := newName)], userPipes, listenFd, Renaming(g, id, newName))
  {
    var clients', g' := clients[id := clients[id].(name := newName)], Renaming(g, id, newName);
    forall i | i in clients' ensures TiedTo(clients'[i], i, g'.book, g'.cores, g'.world.registry) {
      assert TiedTo(clients[i], i, g.book, g.cores, g.world.registry);
    }
  }

  lemma NameStep(w: W.World, id: int, newName: string)
    requires W.Present(w, id)
    ensures var (registry, reply) := SingleStep(w.registry, Name(id, newName));
      W.Step(w, W.Rename(id, newName)) == (W.UseSegment(w.(registry := registry), id), reply.deliveries)
  {
  }

  lemma YellStep(w: W.World, id: int, text: string)
    requires W.Present(w, id)
    ensures W.Step(w, W.YellAll(id, text)) == (W.UseSegment(w, id), SingleStep(w.registry, Yell(id, text)).1.deliveries)
    ensures W.Step(w, W.Who(id)) == (W.UseSegment(w, id), [])
  {
  }

  lemma AbsentStep(w: W.World, i: W.Input)
    requires !i.Connect? && !(W.Present(w, i.id) && W.ValidInput(i))
    requires i.Execute? || !W.Present(w, i.id)
    ensures W.Step(w, i) == (w, []) && W.Tidy(w, i)
  {
  }

  lemma TellStep(w: W.World, id: int, target: int, text: string)
    requires W.Present(w, id)
    ensures W.Step(w, W.TellUser(id, target, text)) ==
            (W.UseSegment(w, id), SingleStep(w.registry, Tell(id, target, text)).1.deliveries)
  {
  }

  // ----- a new user pipe -----

  // The world, but for the pipe from a to b and the pipe counter.
  function PipeMade(g: Ledger, a: int, b: int, p: PipeFD, serial: nat): Ledger {
    var lent := Borrow(Borrow(g, p.readFd), p.writeFd);
    PipeGiven(lent.(world := lent.world.(made := serial + 1)), a, b, p, serial)
  }

  lemma PipeMadeBacked(table: map<int, Endpoint>, made: nat, g: Ledger, a: int, b: int, p: PipeFD)
    requires Backed(table, made, g) && (a, b) !in g.book.userPipes
    requires p.readFd != p.writeFd && p.readFd !in table && p.writeFd !in table
    ensures Backed(table[p.readFd := PipeRead(made)][p.writeFd := PipeWrite(made)], made + 1, PipeMade(g, a, b, p, made))
    ensures PipeMade(g, a, b, p, made).book == g.book.(userPipes := g.book.userPipes[(a, b) := p])
  {
    var t1 := table[p.readFd := PipeRead(made)];
    var t2 := t1[p.writeFd := PipeWrite(made)];
    BorrowBacked(table, made, g, p.readFd, PipeRead(made));
    BorrowBacked(t1, made, Borrow(g, p.readFd), p.writeFd, PipeWrite(made));
    var lent := Borrow(Borrow(g, p.readFd), p.writeFd);
    MadeBacked(t2, made, made + 1, lent);
    PipeGivenBacked(t2, made + 1, lent.(world := lent.world.(made := made + 1)), a, b, p);
    assert g.book.loans + {p.readFd} + {p.writeFd} - {p.readFd, p.writeFd} == g.book.loans;
  }

  lemma PipeMadeTied(clients: map<int, Client>, userPipes: map<(int, int), PipeFD>, listenFd: int, g: Ledger, a: int, b: int, p: PipeFD, serial: nat)
    requires Tied(clients, userPipes, listenFd, g) && (a, b) !in userPipes
    ensures Tied(clients, userPipes[(a, b) := p], listenFd, PipeMade(g, a, b, p, serial))
  {
  }

  // ----- a line of commands -----

  lemma ExecuteStep(w: W.World, id: int, cs: seq<Command>, from: int, to: int, line: string, openOk: seq<bool>)
    requires W.Present(w, id) && cs != [] && |openOk| == |cs|
    ensures var i := W.Execute(id, cs, from, to, line, openOk);
      && W.Step(w, i) == (if W.IsShellBuiltin(cs) then (W.UseSegment(w, id), []) else W.Tie(w, id, i))
      && (W.IsShellBuiltin(cs) ==> W.Tidy(w, i))
  {
  }

  lemma TieStep(w: W.World, id: int, i: W.Input, w': W.World, input: Option<Endpoint>, output: Option<Endpoint>, said: seq<Delivery>)
    requires i.Execute? && W.ValidInput(i) && W.Present(w, id) && W.Lend(w, id, i.from, i.to, i.line) == (w', input, output, said)
    ensures id in w'.sockets && id in w'.shells
    ensures W.Tie(w, id, i) == (W.RunCommands(w', id, i.cs, W.ConfigFor(w'.sockets[id], input, output), i.openOk), said)
  {
  }

  // When the books balance after a line: nothing was asked for, or what was got is what the first command closes.
  lemma TidyMeans(w: W.World, id: int, cs: seq<Command>, from: int, to: int, line: string, openOk: seq<bool>)
    requires W.Present(w, id) && cs != [] && |openOk| == |cs| && !W.IsShellBuiltin(cs) && w.serials.Keys == w.registry.pipes
    ensures var input := W.Lend(w, id, from, to, line).1;
      W.Tidy(w, W.Execute(id, cs, from, to, line, openOk)) <==> input == None || (cs[0].argv != [] <==> input != Some(DevNull))
  {
  }

  // ----- releasing the user pipes of a line -----

  // Nothing is open but what the fields of the server name.
  ghost predicate Balanced(table: map<int, Endpoint>, g: Ledger) {
    table.Keys == AllFds(g.book.(loans := {}))
  }

  // Closing fds that may already be closed: how often that goes wrong.
  function BadCloses(table: map<int, Endpoint>, a: int, b: int): nat {
    (if a < 0 || a in table then 0 else 1) + (if b < 0 || b in table - InTransit(a) then 0 else 1)
  }

  lemma ReleaseClean(clients: map<int, Client>, userPipes: map<(int, int), PipeFD>, listenFd: int, g: Ledger,
                     table: map<int, Endpoint>, made: nat, a: int, b: int) returns (g': Ledger)
    requires Tied(clients, userPipes, listenFd, g) && Backed(table, made, g)
    requires g.book.loans == InTransit(a) + InTransit(b) && InTransit(a) !! InTransit(b)
    ensures var table' := table - InTransit(a) - InTransit(b);
      Tied(clients, userPipes, listenFd, g') && Backed(table', made, g') && Balanced(table', g')
    ensures g'.book.loans == {} && g'.world == g.world && BadCloses(table, a, b) == 0
    ensures (a >= 0 ==> a > STDERR) && (b >= 0 ==> b > STDERR)
  {
    ReturnIfKept(clients, userPipes, listenFd, g, table, made, a);
    var h := ReturnIf(g, a);
    ReturnIfKept(clients, userPipes, listenFd, h, table - InTransit(a), made, b);
    g' := ReturnIf(h, b);
    assert g'.book.loans == {};
    assert g'.book == g.book.(loans := {});
    OwnedExactly(table - InTransit(a) - InTransit(b), g'.owner, g'.book);
    assert g'.book.(loans := {}) == g'.book;
  }

  // The input was closed by the first command: closing it again fails, or takes a descriptor from its owner.
  lemma ReleaseTwice(g: Ledger, table: map<int, Endpoint>, made: nat, inputFd: int, b: int)
    requires Backed(table, made, g) && inputFd >= 0 && g.book.loans == InTransit(b) && inputFd !in g.book.loans
    ensures BadCloses(table, inputFd, b) > 0 || !Balanced(table - InTransit(inputFd) - InTransit(b), g)
  {
    if inputFd in table { SomebodysDescriptor(table, g.owner, g.book, inputFd); }
  }

  // The input was not closed by anybody.
  lemma ReleaseForgets(g: Ledger, table: map<int, Endpoint>, made: nat, inputFd: int, b: int)
    requires Backed(table, made, g) && inputFd >= 0 && inputFd in g.book.loans && inputFd !in InTransit(b)
    ensures !Balanced(table - InTransit(-1) - InTransit(b), g)
  {
    ForgottenLoan(table, g.owner, g.book, inputFd);
  }

  // Which releases leave the books balanced. devIn is the /dev/null of a failed `<N`, taken says whether the first
  // command closed the input.
  lemma Released(clients: map<int, Client>, userPipes: map<(int, int), PipeFD>, listenFd: int, g: Ledger,
                 table: map<int, Endpoint>, made: nat, devIn: int, devOut: int, inputFd: int, taken: bool) returns (g': Ledger)
    requires Tied(clients, userPipes, listenFd, g) && Backed(table, made, g)
    requires inputFd >= -1 && devOut >= -1 && InTransit(devOut) !! InTransit(inputFd) && (taken ==> inputFd >= 0)
    requires g.book.loans == (if taken then {} else InTransit(inputFd)) + InTransit(devOut)
    requires devIn == -1 || devIn == inputFd
    ensures inputFd == -1 || (taken <==> devIn == -1) ==>
      var table' := table - InTransit(devIn) - InTransit(devOut);
      && Tied(clients, userPipes, listenFd, g') && Backed(table', made, g') && Balanced(table', g')
      && g'.book.loans == {} && g'.world == g.world && BadCloses(table, devIn, devOut) == 0
    ensures inputFd == -1 || (taken <==> devIn == -1) ==> (devIn >= 0 ==> devIn > STDERR) && (devOut >= 0 ==> devOut > STDERR)
    ensures !(inputFd == -1 || (taken <==> devIn == -1)) ==>
      BadCloses(table, devIn, devOut) > 0 || !Balanced(table - InTransit(devIn) - InTransit(devOut), g')
  {
    g' := g;
    if inputFd == -1 || (taken <==> devIn == -1) {
      assert g.book.loans == InTransit(devIn) + InTransit(devOut);
      g' := ReleaseClean(clients, userPipes, listenFd, g, table, made, devIn, devOut);
    } else if taken {
      ReleaseTwice(g, table, made, inputFd, devOut);
    } else {
      ReleaseForgets(g, table, made, inputFd, devOut);
    }
  }

  // ----- what the commands of a client must not hold -----

  // What is lent to a line is an end of no pipe between users, and of none of the shell's own.
  ghost predicate Secluded(table: map<int, Endpoint>, loans: set<int>, serials: map<(int, int), nat>, owned: set<nat>) {
    forall fd :: fd in loans && fd in table && IsPipe(table[fd]) ==> table[fd].pipe !in serials.Values && table[fd].pipe !in owned
  }

  // Every pipe of the server serves one purpose, and none of them is lent to a line of the client but one that was taken.
  ghost predicate Guarded(table: map<int, Endpoint>, g: Ledger, id: int) {
    && W.Sane(g.world) && W.Apart(g.world) && id in g.world.shells
    && Secluded(table, g.book.loans, g.world.serials, g.world.shells[id].owned)
  }

  lemma LendGuards(table: map<int, Endpoint>, before: W.World, g: Ledger, id: int, from: int, to: int, line: string,
                   inputFd: int, devNullOutFd: int, output: Option<Endpoint>)
    requires W.Sane(before) && W.Apart(before) && W.Present(before, id)
    requires var (lent, input, out, _) := W.Lend(before, id, from, to, line); lent == g.world && input == Bound(table, inputFd) && out == output
    requires g.book.loans == InTransit(inputFd) + InTransit(devNullOutFd)
    requires devNullOutFd >= 0 ==> Bound(table, devNullOutFd) == Some(DevNull)
    ensures Guarded(table, g, id)
  {
    hide W.Sane, W.Apart, W.Lend;
    W.LendKeeps(before, id, from, to, line);
  }

  lemma SocketKnown(table: map<int, Endpoint>, made: nat, g: Ledger, id: int)
    requires Backed(table, made, g) && W.Sane(g.world) && id in g.book.sockets
    ensures g.book.sockets[id] in table && table[g.book.sockets[id]].Socket?
  {
    NotOnLoan(table, g.owner, g.book, OfClient(id), g.book.sockets[id]);
    assert g.world.sockets[id] == table[g.book.sockets[id]];
  }

  // A pipe end of a shell is one of its own pipes.
  lemma ShellPipeKnown(table: map<int, Endpoint>, made: nat, g: Ledger, id: int, fd: int)
    requires Backed(table, made, g) && W.Apart(g.world) && id in g.book.shells && id in g.cores && fd in Fds(g.book.shells[id])
    ensures id in g.world.shells && fd in table && IsPipe(table[fd]) && table[fd].pipe in g.world.shells[id].owned
  {
    var np := g.book.shells[id];
    assert Holds(table, np);
    var t :| t in np && (fd == np[t].readFd || fd == np[t].writeFd);
    assert t in PipesOf(table, np) && PipesOf(table, np)[t] == table[np[t].readFd].pipe;
    assert g.world.shells[id] == ModelOf(table, np, g.cores[id]);
    assert t in g.world.shells[id].pipes;
  }

  // Whatever else the server has open while a line of a client runs, its children close it, or it is no end of a pipe
  // between users, nor of a numbered pipe of that client.
  lemma NothingBarred(clients: map<int, Client>, userPipes: map<(int, int), PipeFD>, listenFd: int, g: Ledger,
                      table: map<int, Endpoint>, made: nat, id: int, closed: seq<int>, barred: set<nat>)
    requires Tied(clients, userPipes, listenFd, g) && Backed(table, made, g) && id in clients
    requires Guarded(table, g, id)
    requires forall p :: p in userPipes ==> userPipes[p].readFd in closed && userPipes[p].writeFd in closed
    requires forall fd :: fd in table && IsPipe(table[fd]) ==> table[fd].pipe < made
    requires forall p :: p in barred ==> p in g.world.serials.Values || p in g.world.shells[id].owned || p >= made
    ensures Without(Rest(table, g.book.shells[id], {}), closed, barred)
  {
    hide W.Apart, W.Sane;
    var rest := Rest(table, g.book.shells[id], {});
    forall fd | fd in rest && fd > STDERR && fd !in closed && IsPipe(rest[fd]) ensures rest[fd].pipe !in barred {
      PipeUnbarred(clients, userPipes, listenFd, g, table, made, id, closed, fd);
    }
  }

  lemma PipeUnbarred(clients: map<int, Client>, userPipes: map<(int, int), PipeFD>, listenFd: int, g: Ledger,
                     table: map<int, Endpoint>, made: nat, id: int, closed: seq<int>, fd: int)
    requires Tied(clients, userPipes, listenFd, g) && Backed(table, made, g) && id in clients
    requires Guarded(table, g, id)
    requires forall p :: p in userPipes ==> userPipes[p].readFd in closed && userPipes[p].writeFd in closed
    requires fd in table && fd > STDERR && fd !in closed && IsPipe(table[fd]) && fd !in Fds(g.book.shells[id])
    ensures table[fd].pipe !in g.world.serials.Values && table[fd].pipe !in g.world.shells[id].owned
  {
    var o := g.owner[fd];
    assert fd in Claims(g.book, o);
    match o
    case Standard =>
    case Listener =>
    case OfClient(c) => SocketKnown(table, made, g, c);
    case OfShell(s) => ShellPipeKnown(table, made, g, s, fd);
    case OfPipe(a, b) =>
    case OnLoan =>
  }
}
