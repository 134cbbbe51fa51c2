/** How single changes of the descriptor table act on the numbered pipes and on everything else. */
module Descriptors {
  import opened Commands
  import opened Routing
  import opened Kernel

  lemma MinusUnion(m: map<int, Endpoint>, a: set<int>, b: set<int>)
    ensures m - a - b == m - (a + b)
  {
  }

  lemma FdsRemove(table: map<int, Endpoint>, np: map<int, PipeFD>, t: int)
    requires Holds(table, np) && t in np
    ensures Fds(np - {t}) == Fds(np) - {np[t].readFd, np[t].writeFd}
  {
    var np' := np - {t};
    forall fd | fd in Fds(np') ensures fd != np[t].readFd && fd != np[t].writeFd {
      var u :| u in np' && (fd == np'[u].readFd || fd == np'[u].writeFd);
      assert u in np && u != t && np'[u] == np[u];
    }
    forall fd | fd in Fds(np) && fd != np[t].readFd && fd != np[t].writeFd ensures fd in Fds(np') {
      var u :| u in np && (fd == np[u].readFd || fd == np[u].writeFd);
      assert u in np' && np'[u] == np[u];
    }
    assert np[t].readFd in Fds(np) && np[t].writeFd in Fds(np);
  }

  lemma FdsAdd(np: map<int, PipeFD>, t: int, p: PipeFD)
    requires t !in np
    ensures Fds(np[t := p]) == Fds(np) + {p.readFd, p.writeFd}
  {
    var np' := np[t := p];
    assert np'[t] == p;
    forall fd | fd in Fds(np) ensures fd in Fds(np') {
      var u :| u in np && (fd == np[u].readFd || fd == np[u].writeFd);
      assert np'[u] == np[u];
    }
  }

  lemma HeldFds(table: map<int, Endpoint>, np: map<int, PipeFD>, fd: int)
    requires Holds(table, np) && fd in Fds(np)
    ensures fd in table && fd > STDERR && IsPipe(table[fd])
  {
  }

  // Tables that agree on the held descriptors hold the same pipes.
  lemma AgreeOnPipes(table: map<int, Endpoint>, table': map<int, Endpoint>, np: map<int, PipeFD>)
    requires Holds(table, np)
    requires forall fd :: fd in Fds(np) && fd in table ==> fd in table' && table'[fd] == table[fd]
    ensures Holds(table', np) && Serials(table', np) == Serials(table, np)
  {
    forall t | t in np
      ensures np[t].readFd in table' && np[t].writeFd in table'
      ensures table'[np[t].readFd] == table[np[t].readFd] && table'[np[t].writeFd] == table[np[t].writeFd]
    {
      assert np[t].readFd in Fds(np) && np[t].writeFd in Fds(np);
    }
  }

  // Closing descriptors that no numbered pipe holds.
  lemma CloseOthers(table: map<int, Endpoint>, np: map<int, PipeFD>, gone: set<int>, transit: set<int>)
    requires Holds(table, np) && gone !! Fds(np)
    ensures Holds(table - gone, np) && Serials(table - gone, np) == Serials(table, np)
    ensures Rest(table - gone, np, transit) == Rest(table, np, transit + gone)
  {
    AgreeOnPipes(table, table - gone, np);
  }

  // Opening a descriptor leaves the numbered pipes alone; until it is closed it is in transit.
  lemma OpenAnother(table: map<int, Endpoint>, np: map<int, PipeFD>, fd: int, e: Endpoint, transit: set<int>)
    requires Holds(table, np) && fd !in table
    ensures Holds(table[fd := e], np) && Serials(table[fd := e], np) == Serials(table, np)
    ensures fd !in Fds(np)
    ensures Rest(table[fd := e], np, transit + {fd}) == Rest(table, np, transit)
  {
    if fd in Fds(np) { HeldFds(table, np, fd); }
    AgreeOnPipes(table, table[fd := e], np);
  }

  // Forgetting an entry sets its two ends loose.
  lemma Forget(table: map<int, Endpoint>, np: map<int, PipeFD>, t: int, transit: set<int>)
    requires Holds(table, np) && t in np
    ensures Holds(table, np - {t}) && Serials(table, np - {t}) == Serials(table, np) - {t}
    ensures np[t].readFd !in Fds(np - {t}) && np[t].writeFd !in Fds(np - {t})
    ensures np[t].readFd in Fds(np) && np[t].writeFd in Fds(np)
    ensures Rest(table, np - {t}, transit + {np[t].readFd, np[t].writeFd}) == Rest(table, np, transit)
  {
    FdsRemove(table, np, t);
  }

  // Storing a new pipe under an unused segment.
  lemma Store(table: map<int, Endpoint>, np: map<int, PipeFD>, t: int, p: PipeFD, serial: nat)
    requires Holds(table, np) && t !in np
    requires p.readFd > STDERR && p.writeFd > STDERR && p.readFd != p.writeFd
    requires p.readFd !in table && p.writeFd !in table
    requires forall fd :: fd in table && IsPipe(table[fd]) ==> table[fd].pipe != serial
    ensures var table' := table[p.readFd := PipeRead(serial)][p.writeFd := PipeWrite(serial)];
            Holds(table', np[t := p]) && Serials(table', np[t := p]) == Serials(table, np)[t := serial]
  {
    var table' := table[p.readFd := PipeRead(serial)][p.writeFd := PipeWrite(serial)];
    AgreeOnPipes(table, table', np);
    StoreHolds(table', np, t, p, serial);
  }

  lemma StoreRest(table: map<int, Endpoint>, np: map<int, PipeFD>, t: int, p: PipeFD, r: Endpoint, w: Endpoint, transit: set<int>)
    requires t !in np && p.readFd !in table && p.writeFd !in table
    ensures Rest(table[p.readFd := r][p.writeFd := w], np[t := p], transit) == Rest(table, np, transit)
  {
    FdsAdd(np, t, p);
  }

  lemma StoreHolds(table: map<int, Endpoint>, np: map<int, PipeFD>, t: int, p: PipeFD, serial: nat)
    requires Holds(table, np) && t !in np
    requires p.readFd > STDERR && p.writeFd > STDERR && p.readFd in table && p.writeFd in table
    requires table[p.readFd] == PipeRead(serial) && table[p.writeFd] == PipeWrite(serial)
    requires forall u :: u in np ==> table[np[u].readFd] != PipeRead(serial) && np[u].readFd != p.readFd && np[u].writeFd != p.writeFd
    ensures Holds(table, np[t := p]) && Serials(table, np[t := p]) == Serials(table, np)[t := serial]
  {
  }

  // Dropping an entry and closing both its ends.
  lemma Drop(table: map<int, Endpoint>, np: map<int, PipeFD>, t: int)
    requires Holds(table, np) && t in np
    ensures var table' := table - {np[t].readFd, np[t].writeFd};
            && Holds(table', np - {t}) && Serials(table', np - {t}) == Serials(table, np) - {t}
            && Rest(table', np - {t}, {}) == Rest(table, np, {})
  {
    var ends := {np[t].readFd, np[t].writeFd};
    Forget(table, np, t, {});
    CloseOthers(table, np - {t}, ends, {});
    assert {} + ends == ends;
  }

  // Dropping an entry: one end or both are closed, the other may live on in transit.
  lemma DropEnds(table: map<int, Endpoint>, np: map<int, PipeFD>, t: int, gone: set<int>, transit: set<int>, transit': set<int>)
    requires Holds(table, np) && t in np
    requires gone <= {np[t].readFd, np[t].writeFd}
    requires transit' + gone == transit + {np[t].readFd, np[t].writeFd}
    ensures var table' := table - gone;
            && Holds(table', np - {t}) && Serials(table', np - {t}) == Serials(table, np) - {t}
            && Rest(table', np - {t}, transit') == Rest(table, np, transit)
    ensures np[t].readFd !in Fds(np - {t}) && Fds(np - {t}) <= Fds(np)
  {
    Forget(table, np, t, transit);
    FdsRemove(table, np, t);
    CloseOthers(table, np - {t}, gone, transit');
  }
}
