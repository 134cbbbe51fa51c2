/** A process and its descriptor table: what pipe, open, close, dup2 and fork do to it. */
module Kernel {
  import opened Commands
  import opened Routing

  datatype PipeFD = PipeFD(readFd: int, writeFd: int)

  const NO_PIPE := PipeFD(-1, -1)

  const STDIN := 0
  const STDOUT := 1
  const STDERR := 2

  // A command handed to exec: its arguments and the whole descriptor table it starts with.
  datatype SpawnRecord = SpawnRecord(argv: seq<string>, table: map<int, Endpoint>, waited: bool)

  function Bound(table: map<int, Endpoint>, fd: int): Option<Endpoint> {
    if fd in table then Some(table[fd]) else None
  }

  function Seen(spawns: seq<SpawnRecord>): (launches: seq<Launch>)
    ensures |launches| == |spawns|
  {
    seq(|spawns|, i requires 0 <= i < |spawns| => SeenAs(spawns[i]))
  }

  function SeenAs(s: SpawnRecord): Launch {
    Launch(s.argv, Bound(s.table, STDIN).GetOr(Terminal(STDIN)), Bound(s.table, STDOUT).GetOr(Terminal(STDOUT)),
           Bound(s.table, STDERR).GetOr(Terminal(STDERR)), s.waited)
  }

  lemma Member(s: set<int>)
    requires s != {}
    ensures exists x :: x in s
  {
    if forall x :: x !in s { assert false; }
  }

  lemma UnusedExists(used: set<int>)
    ensures exists fd: nat :: fd !in used
  {
    var bound := UpperBound(used);
    assert bound !in used;
  }

  lemma {:induction false} UpperBound(used: set<int>) returns (bound: nat)
    ensures forall fd :: fd in used ==> fd < bound
  {
    bound := 0;
    if x :| x in used {
      var b := UpperBound(used - {x});
      bound := if x < b then b else x + 1;
      assert forall fd :: fd in used ==> fd == x || fd in used - {x};
    }
  }

  class Process {
    var table: map<int, Endpoint>
    // Pipes made so far; the serial number of the next one.
    var pipesMade: nat
    var spawns: seq<SpawnRecord>
    // Calls of close on a number that was not open.
    var badCloses: nat

    ghost predicate Valid()
      reads this
    {
      && STDIN in table && STDOUT in table && STDERR in table
      && (forall fd :: fd in table ==> fd >= 0)
      && (forall fd :: fd in table && IsPipe(table[fd]) ==> table[fd].pipe < pipesMade)
    }

    constructor Fork(parent: Process)
      ensures table == parent.table && pipesMade == parent.pipesMade && spawns == [] && badCloses == 0
    {
      table := parent.table;
      pipesMade := parent.pipesMade;
      spawns := [];
      badCloses := 0;
    }

    method Close(fd: int)
      modifies this`table, this`badCloses
      ensures table == old(table) - {fd}
      ensures badCloses == old(badCloses) + if fd in old(table) then 0 else 1
    {
      if fd !in table {
        badCloses := badCloses + 1;
      }
      table := table - {fd};
    }

    // Any unused number will do: numbers of closed descriptors come back.
    method Allocate(e: Endpoint) returns (fd: nat)
      modifies this`table
      ensures fd !in old(table) && table == old(table)[fd := e]
    {
      UnusedExists(table.Keys);
      fd :| fd !in table;
      table := table[fd := e];
    }

    method Pipe() returns (p: PipeFD)
      modifies this`table, this`pipesMade
      ensures p.readFd >= 0 && p.writeFd >= 0 && p.readFd != p.writeFd
      ensures p.readFd !in old(table) && p.writeFd !in old(table)
      ensures table == old(table)[p.readFd := PipeRead(old(pipesMade))][p.writeFd := PipeWrite(old(pipesMade))]
      ensures pipesMade == old(pipesMade) + 1
      ensures old(Valid()) ==> Valid()
    {
      var r := Allocate(PipeRead(pipesMade));
      var w := Allocate(PipeWrite(pipesMade));
      pipesMade := pipesMade + 1;
      p := PipeFD(r, w);
    }

    // ok is the file system's answer.
    method Open(e: Endpoint, ok: bool) returns (fd: int)
      requires !IsPipe(e)
      modifies this`table
      ensures ok ==> fd >= 0 && fd !in old(table) && table == old(table)[fd := e]
      ensures !ok ==> fd == -1 && table == old(table)
    {
      if ok { fd := Allocate(e); } else { fd := -1; }
    }

    method Dup2(fd: int, target: int)
      requires fd in table
      modifies this`table
      ensures table == old(table)[target := old(table)[fd]]
    {
      table := table[target := table[fd]];
    }

    method Exec(child: Process, argv: seq<string>, waited: bool)
      modifies this`spawns
      ensures spawns == old(spawns) + [SpawnRecord(argv, child.table, waited)]
    {
      spawns := spawns + [SpawnRecord(argv, child.table, waited)];
    }
  }

  lemma SeenSnoc(spawns: seq<SpawnRecord>, s: SpawnRecord)
    ensures Seen(spawns + [s]) == Seen(spawns) + [SeenAs(s)]
  {
  }

  lemma SeenConcat(a: seq<SpawnRecord>, b: seq<SpawnRecord>)
    ensures Seen(a + b) == Seen(a) + Seen(b)
  {
  }

  // The descriptor a variable holds, if it is set.
  function InTransit(fd: int): set<int> {
    if fd < 0 then {} else {fd}
  }

  // closeFd: close a descriptor variable once and forget the number.
  method CloseFd(k: Process, fd: int) returns (gone: int)
    modifies k`table, k`badCloses
    ensures gone == if fd >= 0 then -1 else fd
    ensures k.table == old(k.table) - InTransit(fd)
    ensures k.badCloses == old(k.badCloses) + if fd < 0 || fd in old(k.table) then 0 else 1
  {
    gone := fd;
    if fd >= 0 {
      k.Close(fd);
      gone := -1;
    }
  }

  method ClosePipe(k: Process, p: PipeFD)
    requires p.readFd != p.writeFd
    modifies k`table, k`badCloses
    ensures p.readFd >= 0 && p.writeFd >= 0 ==> k.table == old(k.table) - {p.readFd, p.writeFd}
    ensures p.readFd in old(k.table) && p.writeFd in old(k.table) ==> k.badCloses == old(k.badCloses)
  {
    var _ := CloseFd(k, p.readFd);
    var _ := CloseFd(k, p.writeFd);
  }

  // ----- numbered pipes and the descriptors they hold -----

  function Fds(np: map<int, PipeFD>): set<int> {
    (set t | t in np :: np[t].readFd) + (set t | t in np :: np[t].writeFd)
  }

  // Every entry holds both ends of a pipe of its own, above the standard descriptors.
  ghost predicate Holds(table: map<int, Endpoint>, np: map<int, PipeFD>) {
    && (forall t :: t in np ==>
          && np[t].readFd > STDERR && np[t].writeFd > STDERR
          && np[t].readFd in table && np[t].writeFd in table
          && table[np[t].readFd].PipeRead?
          && table[np[t].writeFd] == PipeWrite(table[np[t].readFd].pipe))
    && (forall t, u :: t in np && u in np && t != u ==>
          && np[t].readFd != np[u].readFd && np[t].writeFd != np[u].writeFd
          && table[np[t].readFd] != table[np[u].readFd])
  }

  ghost function Serials(table: map<int, Endpoint>, np: map<int, PipeFD>): map<int, nat>
    requires Holds(table, np)
  {
    map t | t in np :: table[np[t].readFd].pipe
  }

  // A descriptor variable: unset, or open and not part of a numbered pipe.
  ghost predicate Loose(table: map<int, Endpoint>, np: map<int, PipeFD>, fd: int) {
    fd == -1 || (fd > STDERR && fd in table && fd !in Fds(np))
  }

  // What is open besides the numbered pipes and the descriptors in transit.
  ghost function Rest(table: map<int, Endpoint>, np: map<int, PipeFD>, transit: set<int>): map<int, Endpoint> {
    table - (Fds(np) + transit)
  }
}
