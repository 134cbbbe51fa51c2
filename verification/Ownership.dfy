/** Who owns each open descriptor of the single-process server, and how its operations move ownership. */
module Ownership {
  import opened Commands
  import opened Routing
  import opened Kernel
  import opened Descriptors

  datatype Owner = Standard | Listener | OfClient(id: int) | OfShell(id: int) | OfPipe(sender: int, receiver: int) | OnLoan

  datatype Holdings = Holdings(
    listenFd: int,
    sockets: map<int, int>,
    shells: map<int, map<int, PipeFD>>,
    userPipes: map<(int, int), PipeFD>,
    loans: set<int>)

  function Claims(h: Holdings, o: Owner): set<int> {
    match o
    case Standard => {STDIN, STDOUT, STDERR}
    case Listener => {h.listenFd}
    case OfClient(id) => if id in h.sockets then {h.sockets[id]} else {}
    case OfShell(id) => if id in h.shells then Fds(h.shells[id]) else {}
    case OfPipe(a, b) => if (a, b) in h.userPipes then {h.userPipes[(a, b)].readFd, h.userPipes[(a, b)].writeFd} else {}
    case OnLoan => h.loans
  }

  predicate Joined(table: map<int, Endpoint>, p: PipeFD) {
    && p.readFd != p.writeFd && p.readFd in table && p.writeFd in table
    && table[p.readFd].PipeRead? && table[p.writeFd] == PipeWrite(table[p.readFd].pipe)
  }

  // Every open descriptor has exactly one owner, and every owner's descriptors are open.
  ghost predicate Owned(table: map<int, Endpoint>, owner: map<int, Owner>, h: Holdings) {
    && owner.Keys == table.Keys
    && (forall o, fd :: fd in Claims(h, o) <==> fd in owner && owner[fd] == o)
    && (forall id :: id in h.shells ==> Holds(table, h.shells[id]))
    && (forall p :: p in h.userPipes ==> Joined(table, h.userPipes[p]))
    && (h.listenFd in table ==> table[h.listenFd] == Listening)
  }

  // The descriptors the server should have open.
  function AllFds(h: Holdings): set<int> {
    {STDIN, STDOUT, STDERR} + {h.listenFd} + (set id | id in h.sockets :: h.sockets[id])
    + (set id, fd | id in h.shells && fd in Fds(h.shells[id]) :: fd)
    + (set p | p in h.userPipes :: h.userPipes[p].readFd) + (set p | p in h.userPipes :: h.userPipes[p].writeFd)
  }

  lemma ClaimedBySomeone(h: Holdings, fd: int)
    requires h.loans == {}
    ensures fd in AllFds(h) <==> exists o :: fd in Claims(h, o)
  {
    if fd in AllFds(h) {
      if fd in {STDIN, STDOUT, STDERR} { assert fd in Claims(h, Standard); }
      else if fd == h.listenFd { assert fd in Claims(h, Listener); }
      else if id :| id in h.sockets && fd == h.sockets[id] { assert fd in Claims(h, OfClient(id)); }
      else if id :| id in h.shells && fd in Fds(h.shells[id]) { assert fd in Claims(h, OfShell(id)); }
      else if p :| p in h.userPipes && fd in {h.userPipes[p].readFd, h.userPipes[p].writeFd} { assert fd in Claims(h, OfPipe(p.0, p.1)); }
    }
    if o :| fd in Claims(h, o) {
      if o.OfPipe? { assert (o.sender, o.receiver) in h.userPipes; }
    }
  }

  lemma Apart(table: map<int, Endpoint>, owner: map<int, Owner>, h: Holdings, o: Owner, o': Owner)
    requires Owned(table, owner, h) && o != o'
    ensures Claims(h, o) !! Claims(h, o')
  {
    forall fd ensures !(fd in Claims(h, o) && fd in Claims(h, o')) {
      if fd in Claims(h, o) {
        assert owner[fd] == o;
      }
    }
  }

  lemma NotOnLoan(table: map<int, Endpoint>, owner: map<int, Owner>, h: Holdings, o: Owner, fd: int)
    requires Owned(table, owner, h) && o != OnLoan && fd in Claims(h, o)
    ensures fd in table && fd !in h.loans
  {
    Apart(table, owner, h, o, OnLoan);
  }

  lemma AboveStandard(table: map<int, Endpoint>, owner: map<int, Owner>, h: Holdings, o: Owner, fd: int)
    requires Owned(table, owner, h) && o != Standard && fd in Claims(h, o) && fd >= 0
    ensures fd > STDERR
  {
    Apart(table, owner, h, o, Standard);
    assert fd !in Claims(h, Standard);
  }

  lemma NotOfShell(table: map<int, Endpoint>, owner: map<int, Owner>, h: Holdings, o: Owner, fd: int, id: int)
    requires Owned(table, owner, h) && o != OfShell(id) && fd in Claims(h, o) && id in h.shells
    ensures fd in table && fd !in Fds(h.shells[id])
  {
    Apart(table, owner, h, o, OfShell(id));
    assert Claims(h, OfShell(id)) == Fds(h.shells[id]);
  }

  // In plain words: the open descriptors are these, and no two of them are the same.
  lemma OwnedExactly(table: map<int, Endpoint>, owner: map<int, Owner>, h: Holdings)
    requires Owned(table, owner, h) && h.loans == {}
    ensures table.Keys == AllFds(h)
    ensures forall o, o' :: o != o' ==> Claims(h, o) !! Claims(h, o')
  {
    forall fd ensures fd in table <==> fd in AllFds(h) {
      ClaimedBySomeone(h, fd);
      if fd in table { assert fd in Claims(h, owner[fd]); }
    }
    forall o, o' | o != o' ensures Claims(h, o) !! Claims(h, o') {
      Apart(table, owner, h, o, o');
    }
  }

  // The pipes behind a shell's numbered pipes.
  function PipesOf(table: map<int, Endpoint>, np: map<int, PipeFD>): map<int, nat> {
    map t | t in np && np[t].readFd in table && table[np[t].readFd].PipeRead? :: table[np[t].readFd].pipe
  }

  lemma PipesAreSerials(table: map<int, Endpoint>, np: map<int, PipeFD>)
    requires Holds(table, np)
    ensures PipesOf(table, np) == Serials(table, np)
  {
    forall t ensures t in PipesOf(table, np) <==> t in np {
      if t in np { HeldReadEnd(table, np, t); }
    }
    assert PipesOf(table, np).Keys == Serials(table, np).Keys;
  }

  lemma HeldReadEnd(table: map<int, Endpoint>, np: map<int, PipeFD>, t: int)
    requires Holds(table, np) && t in np
    ensures np[t].readFd in table && table[np[t].readFd].PipeRead?
  {
  }

  // These shells and sockets see no difference between two tables.
  ghost predicate Unmoved(table: map<int, Endpoint>, table': map<int, Endpoint>,
                              shells: map<int, map<int, PipeFD>>, sockets: map<int, int>) {
    && (forall i :: i in shells ==> PipesOf(table', shells[i]) == PipesOf(table, shells[i]))
    && (forall i :: i in sockets ==>
          sockets[i] in table && sockets[i] in table' && table'[sockets[i]] == table[sockets[i]])
  }

  lemma UnmovedByKeeping(table: map<int, Endpoint>, owner: map<int, Owner>, h: Holdings, table': map<int, Endpoint>,
                             shells: map<int, map<int, PipeFD>>, sockets: map<int, int>)
    requires Owned(table, owner, h)
    requires forall i :: i in shells ==> i in h.shells && shells[i] == h.shells[i]
    requires forall i :: i in sockets ==> i in h.sockets && sockets[i] == h.sockets[i]
    requires forall fd :: fd in owner && ((owner[fd].OfShell? && owner[fd].id in shells) || (owner[fd].OfClient? && owner[fd].id in sockets))
               ==> fd in table' && table'[fd] == table[fd]
    ensures Unmoved(table, table', shells, sockets)
  {
    forall i | i in shells ensures PipesOf(table', shells[i]) == PipesOf(table, shells[i]) {
      forall fd | fd in Fds(shells[i]) && fd in table ensures fd in table' && table'[fd] == table[fd] {
        assert fd in Claims(h, OfShell(i));
      }
      AgreeOnPipes(table, table', shells[i]);
      PipesAreSerials(table, shells[i]);
      PipesAreSerials(table', shells[i]);
    }
    forall i | i in sockets ensures sockets[i] in table && sockets[i] in table' && table'[sockets[i]] == table[sockets[i]] {
      assert sockets[i] in Claims(h, OfClient(i));
    }
  }

  // ----- one descriptor more or less -----

  lemma OpenLoan(table: map<int, Endpoint>, owner: map<int, Owner>, h: Holdings, fd: int, e: Endpoint)
    requires Owned(table, owner, h) && fd !in table
    ensures Owned(table[fd := e], owner[fd := OnLoan], h.(loans := h.loans + {fd}))
    ensures Unmoved(table, table[fd := e], h.shells, h.sockets)
    ensures UserSerials(table[fd := e], h.userPipes) == UserSerials(table, h.userPipes)
  {
    UnmovedByKeeping(table, owner, h, table[fd := e], h.shells, h.sockets);
    assert h.listenFd in Claims(h, Listener);
    var h' := h.(loans := h.loans + {fd});
    forall o, d ensures d in Claims(h', o) <==> d in owner[fd := OnLoan] && owner[fd := OnLoan][d] == o {
      assert d in Claims(h, o) <==> d in owner && owner[d] == o;
    }
    forall id | id in h.shells ensures Holds(table[fd := e], h.shells[id]) {
      AgreeOnPipes(table, table[fd := e], h.shells[id]);
    }
  }

  lemma CloseLoan(table: map<int, Endpoint>, owner: map<int, Owner>, h: Holdings, fd: int)
    requires Owned(table, owner, h) && fd in h.loans
    ensures Owned(table - {fd}, owner - {fd}, h.(loans := h.loans - {fd}))
    ensures fd in table && Unmoved(table, table - {fd}, h.shells, h.sockets)
    ensures UserSerials(table - {fd}, h.userPipes) == UserSerials(table, h.userPipes)
  {
    assert fd in Claims(h, OnLoan);
    CloseLoanOwners(table, owner, h, fd);
    Untouched(table, owner, h, {fd});
    UnmovedByKeeping(table, owner, h, table - {fd}, h.shells, h.sockets);
  }

  lemma CloseLoanOwners(table: map<int, Endpoint>, owner: map<int, Owner>, h: Holdings, fd: int)
    requires Owned(table, owner, h) && fd in h.loans
    ensures forall o, d :: d in Claims(h.(loans := h.loans - {fd}), o) <==> d in owner - {fd} && (owner - {fd})[d] == o
  {
    var h', owner' := h.(loans := h.loans - {fd}), owner - {fd};
    assert fd in Claims(h, OnLoan);
    forall o, d ensures d in Claims(h', o) <==> d in owner' && owner'[d] == o {
      assert d in Claims(h, o) <==> d in owner && owner[d] == o;
    }
  }

  // Closing descriptors that no shell and no user pipe owns.
  lemma Untouched(table: map<int, Endpoint>, owner: map<int, Owner>, h: Holdings, gone: set<int>)
    requires Owned(table, owner, h)
    requires forall fd :: fd in gone && fd in owner ==> !owner[fd].OfShell? && !owner[fd].OfPipe?
    ensures forall id :: id in h.shells ==> Holds(table - gone, h.shells[id])
    ensures forall p :: p in h.userPipes ==> Joined(table - gone, h.userPipes[p])
  {
    forall id | id in h.shells ensures Holds(table - gone, h.shells[id]) {
      forall fd | fd in gone ensures fd !in Fds(h.shells[id]) { assert fd in Claims(h, OfShell(id)) <==> fd in owner && owner[fd] == OfShell(id); }
      CloseOthers(table, h.shells[id], gone, {});
    }
    forall p | p in h.userPipes ensures Joined(table - gone, h.userPipes[p]) {
      assert h.userPipes[p].readFd in Claims(h, OfPipe(p.0, p.1)) && h.userPipes[p].writeFd in Claims(h, OfPipe(p.0, p.1));
    }
  }

  // ----- clients come and go -----

  lemma AddClient(table: map<int, Endpoint>, owner: map<int, Owner>, h: Holdings, id: int, fd: int)
    requires Owned(table, owner, h) && fd in h.loans && id !in h.sockets && id !in h.shells
    ensures Owned(table, owner[fd := OfClient(id)],
      h.(sockets := h.sockets[id := fd], shells := h.shells[id := map[]], loans := h.loans - {fd}))
  {
    hide Joined;
    var h' := h.(sockets := h.sockets[id := fd], shells := h.shells[id := map[]], loans := h.loans - {fd});
    var owner' := owner[fd := OfClient(id)];
    assert fd in Claims(h, OnLoan);
    forall o, d ensures d in Claims(h', o) <==> d in owner' && owner'[d] == o {
      assert d in Claims(h, o) <==> d in owner && owner[d] == o;
      assert d in Claims(h, OfClient(id)) <==> d in owner && owner[d] == OfClient(id);
      assert d in Claims(h, OfShell(id)) <==> d in owner && owner[d] == OfShell(id);
    }
  }

  lemma LoanSocket(table: map<int, Endpoint>, owner: map<int, Owner>, h: Holdings, id: int)
    requires Owned(table, owner, h) && id in h.sockets
    ensures Owned(table, owner[h.sockets[id] := OnLoan], h.(sockets := h.sockets - {id}, loans := h.loans + {h.sockets[id]}))
  {
    var fd := h.sockets[id];
    var h', owner' := h.(sockets := h.sockets - {id}, loans := h.loans + {fd}), owner[fd := OnLoan];
    assert fd in Claims(h, OfClient(id));
    forall o, d ensures d in Claims(h', o) <==> d in owner' && owner'[d] == o {
      assert d in Claims(h, o) <==> d in owner && owner[d] == o;
    }
  }

  // ----- a shell changes its numbered pipes -----

  ghost function OwnerAfter(table': map<int, Endpoint>, owner: map<int, Owner>, np': map<int, PipeFD>, id: int): map<int, Owner> {
    map fd | fd in table' && (fd in Fds(np') || fd in owner) :: if fd in Fds(np') then OfShell(id) else owner[fd]
  }

  // What a shell leaves alone when it moves.
  lemma RestOwned(table: map<int, Endpoint>, owner: map<int, Owner>, h: Holdings, id: int, taken: set<int>, fd: int)
    requires Owned(table, owner, h) && id in h.shells && taken <= h.loans
    ensures fd in Rest(table, h.shells[id], {}) - taken <==> fd in owner && owner[fd] != OfShell(id) && fd !in taken
  {
    assert fd in Claims(h, OfShell(id)) <==> fd in owner && owner[fd] == OfShell(id);
  }

  // What stays in the table when a shell moves is what it did not own.
  lemma StayedOpen(table: map<int, Endpoint>, owner: map<int, Owner>, h: Holdings, id: int,
                   table': map<int, Endpoint>, np': map<int, PipeFD>, taken: set<int>, fd: int)
    requires Owned(table, owner, h) && id in h.shells && taken <= h.loans
    requires Rest(table', np', {}) == Rest(table, h.shells[id], {}) - taken
    ensures fd in table' && fd !in Fds(np') <==> fd in owner && owner[fd] != OfShell(id) && fd !in taken
  {
    RestOwned(table, owner, h, id, taken, fd);
    assert fd in Rest(table', np', {}) <==> fd in table' && fd !in Fds(np');
  }

  lemma MovedOwner(table: map<int, Endpoint>, owner: map<int, Owner>, h: Holdings, id: int,
                   table': map<int, Endpoint>, np': map<int, PipeFD>, taken: set<int>, o: Owner, fd: int)
    requires Owned(table, owner, h) && id in h.shells && taken <= h.loans
    requires forall d :: d in Fds(np') ==> d in table'
    requires Rest(table', np', {}) == Rest(table, h.shells[id], {}) - taken
    ensures var owner' := OwnerAfter(table', owner, np', id);
            fd in Claims(h.(shells := h.shells[id := np'], loans := h.loans - taken), o) <==> fd in owner' && owner'[fd] == o
  {
    StayedOpen(table, owner, h, id, table', np', taken, fd);
    assert fd in Claims(h, o) <==> fd in owner && owner[fd] == o;
    assert fd in Claims(h, OnLoan) <==> fd in owner && owner[fd] == OnLoan;
  }

  lemma MovedOwners(table: map<int, Endpoint>, owner: map<int, Owner>, h: Holdings, id: int,
                    table': map<int, Endpoint>, np': map<int, PipeFD>, taken: set<int>)
    requires Owned(table, owner, h) && id in h.shells && taken <= h.loans
    requires forall fd :: fd in Fds(np') ==> fd in table'
    requires Rest(table', np', {}) == Rest(table, h.shells[id], {}) - taken
    ensures OwnerAfter(table', owner, np', id).Keys == table'.Keys
    ensures var h' := h.(shells := h.shells[id := np'], loans := h.loans - taken);
            var owner' := OwnerAfter(table', owner, np', id);
            forall o, fd :: fd in Claims(h', o) <==> fd in owner' && owner'[fd] == o
  {
    forall fd ensures fd in OwnerAfter(table', owner, np', id) <==> fd in table' {
      StayedOpen(table, owner, h, id, table', np', taken, fd);
    }
    var h', owner' := h.(shells := h.shells[id := np'], loans := h.loans - taken), OwnerAfter(table', owner, np', id);
    forall o, fd ensures fd in Claims(h', o) <==> fd in owner' && owner'[fd] == o {
      MovedOwner(table, owner, h, id, table', np', taken, o, fd);
    }
  }

  lemma OthersKept(table: map<int, Endpoint>, owner: map<int, Owner>, h: Holdings, id: int,
                   table': map<int, Endpoint>, np': map<int, PipeFD>, taken: set<int>)
    requires Owned(table, owner, h) && id in h.shells && taken <= h.loans
    requires Rest(table', np', {}) == Rest(table, h.shells[id], {}) - taken
    ensures forall fd :: fd in owner && owner[fd] != OfShell(id) && fd !in taken ==> fd in table' && table'[fd] == table[fd]
    ensures forall i :: i in h.shells && i != id ==> Holds(table', h.shells[i])
    ensures forall p :: p in h.userPipes ==> Joined(table', h.userPipes[p])
    ensures UserSerials(table', h.userPipes) == UserSerials(table, h.userPipes)
  {
    hide Fds;
    var rest := Rest(table', np', {});
    forall fd | fd in owner && owner[fd] != OfShell(id) && fd !in taken ensures fd in table' && table'[fd] == table[fd] {
      RestOwned(table, owner, h, id, taken, fd);
      assert fd in rest && rest[fd] == table[fd] && rest[fd] == table'[fd];
    }
    forall i | i in h.shells && i != id ensures Holds(table', h.shells[i]) {
      forall fd | fd in Fds(h.shells[i]) && fd in table ensures fd in table' && table'[fd] == table[fd] {
        assert fd in Claims(h, OfShell(i));
        assert fd in taken ==> fd in Claims(h, OnLoan);
      }
      AgreeOnPipes(table, table', h.shells[i]);
    }
    forall p | p in h.userPipes
      ensures Joined(table', h.userPipes[p]) && Serial(table', h.userPipes[p]) == Serial(table, h.userPipes[p])
    {
      var r, w := h.userPipes[p].readFd, h.userPipes[p].writeFd;
      assert r in Claims(h, OfPipe(p.0, p.1)) && w in Claims(h, OfPipe(p.0, p.1));
      assert r in taken ==> r in Claims(h, OnLoan);
      assert w in taken ==> w in Claims(h, OnLoan);
    }
  }

  lemma ShellUnmoved(table: map<int, Endpoint>, owner: map<int, Owner>, h: Holdings, id: int,
                         table': map<int, Endpoint>, taken: set<int>)
    requires Owned(table, owner, h) && id in h.shells && taken <= h.loans
    requires forall fd :: fd in owner && owner[fd] != OfShell(id) && fd !in taken ==> fd in table' && table'[fd] == table[fd]
    ensures Unmoved(table, table', h.shells - {id}, h.sockets)
  {
    forall fd | fd in taken ensures fd in owner && owner[fd] == OnLoan { assert fd in Claims(h, OnLoan); }
    UnmovedByKeeping(table, owner, h, table', h.shells - {id}, h.sockets);
  }

  lemma ListenerKept(table: map<int, Endpoint>, owner: map<int, Owner>, h: Holdings, id: int,
                     table': map<int, Endpoint>, taken: set<int>)
    requires Owned(table, owner, h) && taken <= h.loans
    requires forall fd :: fd in owner && owner[fd] != OfShell(id) && fd !in taken ==> fd in table' && table'[fd] == table[fd]
    ensures h.listenFd in table' && table'[h.listenFd] == Listening
  {
    assert h.listenFd in Claims(h, Listener);
    assert h.listenFd in taken ==> h.listenFd in Claims(h, OnLoan);
  }

  // A shell may do what it likes with its own pipes, and close descriptors on loan.
  lemma ShellMoves(table: map<int, Endpoint>, owner: map<int, Owner>, h: Holdings, id: int,
                   table': map<int, Endpoint>, np': map<int, PipeFD>, taken: set<int>)
    requires Owned(table, owner, h) && id in h.shells && taken <= h.loans
    requires Holds(table', np')
    requires Rest(table', np', {}) == Rest(table, h.shells[id], {}) - taken
    ensures Owned(table', OwnerAfter(table', owner, np', id), h.(shells := h.shells[id := np'], loans := h.loans - taken))
    ensures UserSerials(table', h.userPipes) == UserSerials(table, h.userPipes)
    ensures Unmoved(table, table', h.shells - {id}, h.sockets)
  {
    OthersKept(table, owner, h, id, table', np', taken);
    ListenerKept(table, owner, h, id, table', taken);
    ShellUnmoved(table, owner, h, id, table', taken);
    forall fd | fd in Fds(np') ensures fd in table' { HeldFds(table', np', fd); }
    MovedOwners(table, owner, h, id, table', np', taken);
  }

  lemma ForgetShell(table: map<int, Endpoint>, owner: map<int, Owner>, h: Holdings, id: int)
    requires Owned(table, owner, h) && id in h.shells && h.shells[id] == map[]
    ensures Owned(table, owner, h.(shells := h.shells - {id}))
  {
    var h' := h.(shells := h.shells - {id});
    assert Fds(map[]) == {};
    forall o, d ensures d in Claims(h', o) <==> d in owner && owner[d] == o {
      assert d in Claims(h, o) <==> d in owner && owner[d] == o;
    }
  }

  // ----- user pipes -----

  function Serial(table: map<int, Endpoint>, p: PipeFD): nat
    requires Joined(table, p)
  {
    table[p.readFd].pipe
  }

  ghost function UserSerials(table: map<int, Endpoint>, userPipes: map<(int, int), PipeFD>): map<(int, int), nat>
    requires forall p :: p in userPipes ==> Joined(table, userPipes[p])
  {
    map p | p in userPipes :: Serial(table, userPipes[p])
  }

  // Two ends of a pipe become a user pipe.
  lemma GiveUserPipe(table: map<int, Endpoint>, owner: map<int, Owner>, h: Holdings, a: int, b: int, p: PipeFD)
    requires Owned(table, owner, h) && (a, b) !in h.userPipes
    requires Joined(table, p) && p.readFd in h.loans && p.writeFd in h.loans
    ensures var h' := h.(userPipes := h.userPipes[(a, b) := p], loans := h.loans - {p.readFd, p.writeFd});
            && Owned(table, owner[p.readFd := OfPipe(a, b)][p.writeFd := OfPipe(a, b)], h')
            && UserSerials(table, h'.userPipes) == UserSerials(table, h.userPipes)[(a, b) := Serial(table, p)]
  {
    var h' := h.(userPipes := h.userPipes[(a, b) := p], loans := h.loans - {p.readFd, p.writeFd});
    var owner' := owner[p.readFd := OfPipe(a, b)][p.writeFd := OfPipe(a, b)];
    assert p.readFd in Claims(h, OnLoan) && p.writeFd in Claims(h, OnLoan);
    forall o, d ensures d in Claims(h', o) <==> d in owner' && owner'[d] == o {
      assert d in Claims(h, o) <==> d in owner && owner[d] == o;
    }
  }

  // The reader takes the pipe, or one of its users leaves: its ends are ends of nobody's pipe.
  lemma LoanUserPipe(table: map<int, Endpoint>, owner: map<int, Owner>, h: Holdings, a: int, b: int)
    requires Owned(table, owner, h) && (a, b) in h.userPipes
    ensures var p := h.userPipes[(a, b)];
            var h' := h.(userPipes := h.userPipes - {(a, b)}, loans := h.loans + {p.readFd, p.writeFd});
            && Owned(table, owner[p.readFd := OnLoan][p.writeFd := OnLoan], h')
            && UserSerials(table, h'.userPipes) == UserSerials(table, h.userPipes) - {(a, b)}
  {
    var p := h.userPipes[(a, b)];
    var h' := h.(userPipes := h.userPipes - {(a, b)}, loans := h.loans + {p.readFd, p.writeFd});
    var owner' := owner[p.readFd := OnLoan][p.writeFd := OnLoan];
    assert p.readFd in Claims(h, OfPipe(a, b)) && p.writeFd in Claims(h, OfPipe(a, b));
    forall o, d ensures d in Claims(h', o) <==> d in owner' && owner'[d] == o {
      assert d in Claims(h, o) <==> d in owner && owner[d] == o;
    }
  }

  // ----- what goes wrong when a loan is forgotten or closed twice -----

  // A descriptor left on loan is open, but nobody's.
  lemma ForgottenLoan(table: map<int, Endpoint>, owner: map<int, Owner>, h: Holdings, fd: int)
    requires Owned(table, owner, h) && fd in h.loans
    ensures fd in table && fd !in AllFds(h.(loans := {}))
  {
    var h' := h.(loans := {});
    assert fd in Claims(h, OnLoan);
    ClaimedBySomeone(h', fd);
    if o :| fd in Claims(h', o) {
      assert fd in Claims(h, o);
      Apart(table, owner, h, o, OnLoan);
    }
  }

  // A descriptor that is open but not on loan is somebody's: closing it takes it away from its owner.
  lemma SomebodysDescriptor(table: map<int, Endpoint>, owner: map<int, Owner>, h: Holdings, fd: int)
    requires Owned(table, owner, h) && fd in table && fd !in h.loans
    ensures fd in AllFds(h.(loans := {}))
  {
    var h', o := h.(loans := {}), owner[fd];
    assert fd in Claims(h, o) && o != OnLoan;
    assert fd in Claims(h', o);
    ClaimedBySomeone(h', fd);
  }
}
