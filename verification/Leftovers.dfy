/** When a line leaves a numbered pipe behind that no later segment can ever read. */
module Leftovers {
  import opened Commands
  import opened Routing

  predicate Clean(pipes: map<int, nat>, executed: int) {
    forall t :: t in pipes ==> t > executed
  }

  function PipesAfter(pipes: map<int, nat>, cs: seq<Command>, base: int, cfg: Config, openOk: seq<bool>): map<int, nat>
    requires |openOk| == |cs|
  {
    Exec(Engine(pipes, 0, None, []), cs, |cs|, base, cfg, openOk).pipes
  }

  // The line turns every clean map into a clean map, whichever redirects succeed.
  ghost predicate KeepsClean(cs: seq<Command>, base: int, cfg: Config) {
    forall pipes: map<int, nat>, openOk: seq<bool> :: |openOk| == |cs| && Clean(pipes, base) ==>
      Clean(PipesAfter(pipes, cs, base, cfg, openOk), base + SegmentsOpened(cs, |cs|))
  }

  // What command i does to the keys of the map.
  function NextKeys(keys: set<int>, cs: seq<Command>, i: nat, base: int, cfg: Config): set<int>
    requires i < |cs|
  {
    var s := base + SegmentOf(cs, i);
    (if StartsSegment(cs, i) && cs[i].argv != [] then keys - {s} else keys) +
    (if Addresses(cs, i, cfg.forceLastOutput) then {s + cs[i].nextCount} else {})
  }

  lemma StepKeys(e: Engine, cs: seq<Command>, i: nat, base: int, cfg: Config, openOk: bool)
    requires i < |cs|
    ensures Step(e, cs, i, base, cfg, openOk).pipes.Keys == NextKeys(e.pipes.Keys, cs, i, base, cfg)
  {
  }

  // The keys after n commands, without the rest of the engine.
  function KeysAfter(keys: set<int>, cs: seq<Command>, n: nat, base: int, cfg: Config): set<int>
    requires n <= |cs|
  {
    if n == 0 then keys else NextKeys(KeysAfter(keys, cs, n - 1, base, cfg), cs, n - 1, base, cfg)
  }

  lemma {:induction false} ExecKeys(e: Engine, cs: seq<Command>, n: nat, base: int, cfg: Config, openOk: seq<bool>)
    requires n <= |cs| == |openOk|
    ensures Exec(e, cs, n, base, cfg, openOk).pipes.Keys == KeysAfter(e.pipes.Keys, cs, n, base, cfg)
  {
    hide Step, NextKeys;
    if n > 0 {
      ExecKeys(e, cs, n - 1, base, cfg, openOk);
      StepKeys(Exec(e, cs, n - 1, base, cfg, openOk), cs, n - 1, base, cfg, openOk[n - 1]);
    }
  }

  lemma {:induction false} SafeKeepsAhead(keys: set<int>, cs: seq<Command>, n: nat, base: int, cfg: Config)
    requires n <= |cs| && SafeLine(cs, cfg.forceLastOutput) && forall t :: t in keys ==> t > base
    ensures forall t :: t in KeysAfter(keys, cs, n, base, cfg) ==> t > base + SegmentsOpened(cs, n)
  {
    if n > 0 {
      SafeKeepsAhead(keys, cs, n - 1, base, cfg);
    }
  }

  // A key that no remaining segment start picks up stays in the map.
  lemma {:induction false} KeyStays(keys: set<int>, cs: seq<Command>, m: nat, n: nat, base: int, cfg: Config, t: int)
    requires m <= n <= |cs|
    requires t in KeysAfter(keys, cs, m, base, cfg)
    requires forall i :: m <= i < n && StartsSegment(cs, i) && cs[i].argv != [] ==> base + SegmentOf(cs, i) != t
    ensures t in KeysAfter(keys, cs, n, base, cfg)
    decreases n
  {
    if m < n {
      KeyStays(keys, cs, m, n - 1, base, cfg, t);
    }
  }

  // Two different segment starts have different segment numbers.
  lemma StartsDiffer(cs: seq<Command>, i: nat, j: nat)
    requires i < j < |cs| && StartsSegment(cs, j)
    ensures SegmentOf(cs, i) < SegmentOf(cs, j)
  {
    SegmentsMonotone(cs, i + 1, j);
  }

  // The key of a segment that starts with an empty command stays in the map.
  lemma EmptyStartStays(keys: set<int>, cs: seq<Command>, i: nat, base: int, cfg: Config)
    requires i < |cs| && StartsSegment(cs, i) && cs[i].argv == [] && base + SegmentOf(cs, i) in keys
    ensures base + SegmentOf(cs, i) in KeysAfter(keys, cs, |cs|, base, cfg)
    ensures SegmentOf(cs, i) <= SegmentsOpened(cs, |cs|)
  {
    var t := base + SegmentOf(cs, i);
    SegmentsMonotone(cs, i + 1, |cs|);
    forall j | 0 <= j < |cs| && StartsSegment(cs, j) && cs[j].argv != [] ensures base + SegmentOf(cs, j) != t {
      if j < i { StartsDiffer(cs, j, i); } else if i < j { StartsDiffer(cs, i, j); }
    }
    KeyStays(keys, cs, 0, |cs|, base, cfg, t);
  }

  // So does the key of a send that does not point ahead.
  lemma BackwardSendStays(keys: set<int>, cs: seq<Command>, i: nat, base: int, cfg: Config)
    requires i < |cs| && Addresses(cs, i, cfg.forceLastOutput) && cs[i].nextCount < 1
    ensures base + SegmentOf(cs, i) + cs[i].nextCount in KeysAfter(keys, cs, |cs|, base, cfg)
    ensures SegmentOf(cs, i) <= SegmentsOpened(cs, |cs|)
  {
    var t := base + SegmentOf(cs, i) + cs[i].nextCount;
    assert t in KeysAfter(keys, cs, i + 1, base, cfg);
    forall j | i < j < |cs| && StartsSegment(cs, j) ensures base + SegmentOf(cs, j) != t {
      StartsDiffer(cs, i, j);
    }
    KeyStays(keys, cs, i + 1, |cs|, base, cfg, t);
    SegmentsMonotone(cs, i + 1, |cs|);
  }

  lemma EmptyStartLeaves(cs: seq<Command>, i: nat, base: int, cfg: Config)
    requires i < |cs| && StartsSegment(cs, i) && cs[i].argv == []
    ensures !KeepsClean(cs, base, cfg)
  {
    var t := base + SegmentOf(cs, i);
    var pipes: map<int, nat> := map[t := 0];
    var openOk := seq(|cs|, _ => true);
    EmptyStartStays(pipes.Keys, cs, i, base, cfg);
    ExecKeys(Engine(pipes, 0, None, []), cs, |cs|, base, cfg, openOk);
    assert Clean(pipes, base) && t in PipesAfter(pipes, cs, base, cfg, openOk);
  }

  lemma BackwardSendLeaves(cs: seq<Command>, i: nat, base: int, cfg: Config)
    requires i < |cs| && Addresses(cs, i, cfg.forceLastOutput) && cs[i].nextCount < 1
    ensures !KeepsClean(cs, base, cfg)
  {
    var pipes: map<int, nat> := map[];
    var openOk := seq(|cs|, _ => true);
    BackwardSendStays(pipes.Keys, cs, i, base, cfg);
    ExecKeys(Engine(pipes, 0, None, []), cs, |cs|, base, cfg, openOk);
    assert Clean(pipes, base);
    assert base + SegmentOf(cs, i) + cs[i].nextCount in PipesAfter(pipes, cs, base, cfg, openOk);
  }

  // A command that makes a line unsafe.
  lemma UnsafeAt(cs: seq<Command>, forceLast: bool) returns (i: nat)
    requires !SafeLine(cs, forceLast)
    ensures i < |cs|
    ensures (StartsSegment(cs, i) && cs[i].argv == []) || (Addresses(cs, i, forceLast) && cs[i].nextCount < 1)
  {
    i :| i < |cs| && !((StartsSegment(cs, i) ==> cs[i].argv != []) && (Addresses(cs, i, forceLast) ==> cs[i].nextCount >= 1));
  }

  // At the prompt every waiting pipe is addressed to a segment still to come, whatever was waiting before,
  // exactly for the lines without an empty segment start and without a send backwards.
  lemma CleanExactly(cs: seq<Command>, base: int, cfg: Config)
    ensures KeepsClean(cs, base, cfg) <==> SafeLine(cs, cfg.forceLastOutput)
  {
    if SafeLine(cs, cfg.forceLastOutput) {
      forall pipes: map<int, nat>, openOk: seq<bool> | |openOk| == |cs| && Clean(pipes, base)
        ensures Clean(PipesAfter(pipes, cs, base, cfg, openOk), base + SegmentsOpened(cs, |cs|))
      {
        SafeKeepsAhead(pipes.Keys, cs, |cs|, base, cfg);
        ExecKeys(Engine(pipes, 0, None, []), cs, |cs|, base, cfg, openOk);
      }
    } else {
      var i := UnsafeAt(cs, cfg.forceLastOutput);
      if StartsSegment(cs, i) && cs[i].argv == [] {
        EmptyStartLeaves(cs, i, base, cfg);
      } else {
        BackwardSendLeaves(cs, i, base, cfg);
      }
    }
  }

  // ----- which lines are routed as promised -----

  // What the caller lends a line is not the shell's own, and no pipe of the shell is newer than the counter.
  predicate Lent(s: Shell, cs: seq<Command>, cfg: Config, openOk: seq<bool>, counter: nat) {
    |openOk| == |cs| && s.next <= counter && ForeignConfig(cfg, s.owned, counter)
  }

  // Every shell whose session was routed so far is still routed after the line, whichever files can be opened.
  ghost predicate KeepsRouting(cs: seq<Command>, cfg: Config) {
    forall s: Shell, openOk: seq<bool>, counter: nat ::
      SoundShell(s) && Lent(s, cs, cfg, openOk, counter) ==> SoundShell(RunLine(s, External(cs, cfg, openOk, counter)))
  }

  function AllOpen(cs: seq<Command>): (openOk: seq<bool>)
    ensures |openOk| == |cs| && forall i :: 0 <= i < |cs| ==> openOk[i]
  {
    seq(|cs|, _ => true)
  }

  function Beyond(e: Endpoint): nat {
    if IsPipe(e) then e.pipe + 1 else 0
  }

  // A counter above every pipe the caller lends.
  function FirstCounter(cfg: Config): nat {
    Beyond(cfg.output) + Beyond(cfg.error) + if cfg.input.Some? then Beyond(cfg.input.value) else 0
  }

  lemma FreshLent(cs: seq<Command>, cfg: Config)
    ensures SoundShell(FRESH_SHELL) && Lent(FRESH_SHELL, cs, cfg, AllOpen(cs), FirstCounter(cfg))
  {
  }

  // The session of one line that addresses a pipe to the n-th segment after it.
  function Posting(n: nat): seq<Command> {
    [Command(["x"], NumberPipeOut, n, false, "")]
  }

  function Posted(n: nat, cfg: Config): Shell {
    RunLine(FRESH_SHELL, External(Posting(n), PLAIN, [true], FirstCounter(cfg)))
  }

  lemma PostedWaits(n: nat, cfg: Config)
    requires n >= 1
    ensures Posted(n, cfg).executed == 1 && 1 + n in Posted(n, cfg).pipes
  {
    hide Step;
    var line := External(Posting(n), PLAIN, [true], FirstCounter(cfg));
    assert SegmentsOpened(Posting(n), 0) == 0 && SegmentOf(Posting(n), 0) == 1;
    ExecKeys(Start(FRESH_SHELL, line), Posting(n), 1, 0, PLAIN, [true]);
    assert KeysAfter({}, Posting(n), 1, 0, PLAIN) == NextKeys(KeysAfter({}, Posting(n), 0, 0, PLAIN), Posting(n), 0, 0, PLAIN);
  }

  lemma PostedSound(n: nat, cs: seq<Command>, cfg: Config)
    requires n >= 1
    ensures SoundShell(Posted(n, cfg)) && Lent(Posted(n, cfg), cs, cfg, AllOpen(cs), Posted(n, cfg).next)
  {
    hide Step;
    var line := External(Posting(n), PLAIN, [true], FirstCounter(cfg));
    assert WellFormed(Posting(n), false);
    RunLineSound(FRESH_SHELL, line);
    var e := Start(FRESH_SHELL, line);
    assert Exec(e, Posting(n), 0, 0, PLAIN, [true]) == e;
    NeverFewer(e, Posting(n), 0, 0, PLAIN, true);
  }

  lemma NeverFewer(e: Engine, cs: seq<Command>, i: nat, base: int, cfg: Config, openOk: bool)
    requires i < |cs|
    ensures e.next <= Step(e, cs, i, base, cfg, openOk).next
  {
  }

  // A key at or behind the segment counter is no sound state.
  lemma BehindUnsound(s: Shell, t: int)
    requires t in s.pipes && t <= s.executed
    ensures !SoundShell(s)
  {
  }

  lemma LeavesBehind(s: Shell, cs: seq<Command>, cfg: Config, counter: nat, t: int)
    requires SoundShell(s) && Lent(s, cs, cfg, AllOpen(cs), counter)
    requires t in KeysAfter(s.pipes.Keys, cs, |cs|, s.executed, cfg) && t <= s.executed + SegmentsOpened(cs, |cs|)
    ensures !KeepsRouting(cs, cfg)
  {
    hide SoundShell;
    var line := External(cs, cfg, AllOpen(cs), counter);
    ExecKeys(Start(s, line), cs, |cs|, s.executed, cfg, AllOpen(cs));
    BehindUnsound(RunLine(s, line), t);
  }

  lemma UnsafeUnsound(cs: seq<Command>, cfg: Config)
    requires !SafeLine(cs, cfg.forceLastOutput)
    ensures !KeepsRouting(cs, cfg)
  {
    hide SoundShell, Posted, KeepsRouting, Lent;
    var i := UnsafeAt(cs, cfg.forceLastOutput);
    if StartsSegment(cs, i) && cs[i].argv == [] {
      var s := Posted(SegmentOf(cs, i), cfg);
      PostedWaits(SegmentOf(cs, i), cfg);
      PostedSound(SegmentOf(cs, i), cs, cfg);
      EmptyStartStays(s.pipes.Keys, cs, i, s.executed, cfg);
      LeavesBehind(s, cs, cfg, s.next, s.executed + SegmentOf(cs, i));
    } else {
      FreshLent(cs, cfg);
      BackwardSendStays(FRESH_SHELL.pipes.Keys, cs, i, 0, cfg);
      LeavesBehind(FRESH_SHELL, cs, cfg, FirstCounter(cfg), SegmentOf(cs, i) + cs[i].nextCount);
    }
  }

  lemma StepAppends(e: Engine, cs: seq<Command>, i: nat, base: int, cfg: Config, openOk: bool)
    requires i < |cs|
    ensures Step(e, cs, i, base, cfg, openOk).log[..|e.log|] == e.log
  {
  }

  // Records are never revised.
  lemma {:induction false} RecordStays(e: Engine, cs: seq<Command>, k: nat, n: nat, base: int, cfg: Config, openOk: seq<bool>)
    requires k < n <= |cs| == |openOk| && e.log == []
    ensures |Exec(e, cs, k + 1, base, cfg, openOk).log| == k + 1 && |Exec(e, cs, n, base, cfg, openOk).log| == n
    ensures Exec(e, cs, n, base, cfg, openOk).log[k] == Exec(e, cs, k + 1, base, cfg, openOk).log[k]
    decreases n
  {
    hide Step;
    LogLength(e, cs, k + 1, base, cfg, openOk);
    LogLength(e, cs, n - 1, base, cfg, openOk);
    if k < n - 1 {
      RecordStays(e, cs, k, n - 1, base, cfg, openOk);
      var m := Exec(e, cs, n - 1, base, cfg, openOk);
      StepAppends(m, cs, n - 1, base, cfg, openOk[n - 1]);
      assert m.log[k] == Step(m, cs, n - 1, base, cfg, openOk[n - 1]).log[..|m.log|][k];
    }
  }

  lemma {:induction false} LogLength(e: Engine, cs: seq<Command>, n: nat, base: int, cfg: Config, openOk: seq<bool>)
    requires n <= |cs| == |openOk| && e.log == []
    ensures |Exec(e, cs, n, base, cfg, openOk).log| == n
  {
    if n > 0 { LogLength(e, cs, n - 1, base, cfg, openOk); }
  }

  // Past a command that leaves a pipe, empty commands let the pipe through.
  lemma {:induction false} PipeDrifts(e: Engine, cs: seq<Command>, i: nat, k: nat, j: nat, base: int, cfg: Config, openOk: seq<bool>)
    requires i < k <= j < |cs| == |openOk| && Strays(cs, i, j, cfg.forceLastOutput)
    ensures Exec(e, cs, k, base, cfg, openOk).input == Some(PipeRead(Exec(e, cs, i, base, cfg, openOk).next))
    decreases k
  {
    if k > i + 1 {
      PipeDrifts(e, cs, i, k - 1, j, base, cfg, openOk);
      assert cs[k - 1].argv == [];
    }
  }

  lemma TakesStray(e: Engine, cs: seq<Command>, j: nat, base: int, cfg: Config, p: nat)
    requires 0 < j < |cs| && cs[j].argv != [] && e.input == Some(PipeRead(p))
    ensures var r := Step(e, cs, j, base, cfg, true).log[|e.log|]; r.ran && !r.overridden && r.stdin == Some(PipeRead(p))
  {
  }

  lemma FeederRecord(e: Engine, cs: seq<Command>, i: nat, base: int, cfg: Config, openOk: bool)
    requires i < |cs| && FeedsNext(cs, i, cfg.forceLastOutput)
    ensures var r := Step(e, cs, i, base, cfg, openOk).log[|e.log|]; Writes(r, e.next) && SentTo(r) == None
  {
  }

  // The command behind the gap reads the pipe of the command before it.
  lemma StrayRead(e: Engine, cs: seq<Command>, i: nat, j: nat, base: int, cfg: Config, openOk: seq<bool>) returns (p: nat)
    requires i < j < |cs| == |openOk| && Strays(cs, i, j, cfg.forceLastOutput) && e.log == [] && openOk[j]
    ensures var log := Exec(e, cs, |cs|, base, cfg, openOk).log;
      && |log| == |cs| && Writes(log[i], p) && SentTo(log[i]) == None && !log[j - 1].ran
      && log[j].ran && !log[j].overridden && log[j].stdin == Some(PipeRead(p))
  {
    hide Step;
    p := Exec(e, cs, i, base, cfg, openOk).next;
    RecordStays(e, cs, i, |cs|, base, cfg, openOk);
    RecordStays(e, cs, j - 1, |cs|, base, cfg, openOk);
    RecordStays(e, cs, j, |cs|, base, cfg, openOk);
    LogLength(e, cs, i, base, cfg, openOk);
    LogLength(e, cs, j - 1, base, cfg, openOk);
    LogLength(e, cs, j, base, cfg, openOk);
    FeederRecord(Exec(e, cs, i, base, cfg, openOk), cs, i, base, cfg, openOk[i]);
    EmptyRecord(Exec(e, cs, j - 1, base, cfg, openOk), cs, j - 1, base, cfg, openOk[j - 1]);
    PipeDrifts(e, cs, i, j, j, base, cfg, openOk);
    TakesStray(Exec(e, cs, j, base, cfg, openOk), cs, j, base, cfg, p);
  }

  lemma EmptyRecord(e: Engine, cs: seq<Command>, i: nat, base: int, cfg: Config, openOk: bool)
    requires i < |cs| && cs[i].argv == []
    ensures !Step(e, cs, i, base, cfg, openOk).log[|e.log|].ran
  {
  }

  lemma StrayUnsound(cs: seq<Command>, i: nat, j: nat, cfg: Config)
    requires i < j < |cs| && Strays(cs, i, j, cfg.forceLastOutput)
    ensures !KeepsRouting(cs, cfg)
  {
    hide Exec, Strays;
    FreshLent(cs, cfg);
    var line := External(cs, cfg, AllOpen(cs), FirstCounter(cfg));
    var p := StrayRead(Start(FRESH_SHELL, line), cs, i, j, 0, cfg, AllOpen(cs));
    var s := RunLine(FRESH_SHELL, line);
    StrayNotRouted(s.log, i, j, p);
    MisroutedUnsound(s, j);
  }

  lemma MisroutedUnsound(s: Shell, j: nat)
    requires j < |s.log| && !Routed(s.log, j)
    ensures !SoundShell(s)
  {
  }

  // Reading a pipe that was not addressed to anybody, with nobody who feeds it in front.
  lemma StrayNotRouted(log: seq<Outcome>, i: nat, j: nat, p: nat)
    requires i < j < |log| && log[j].ran && !log[j].overridden && log[j].stdin == Some(PipeRead(p))
    requires Writes(log[i], p) && SentTo(log[i]) == None && !log[j - 1].ran
    ensures !Routed(log, j)
  {
  }

  // The routing promise, exactly: the first command of every segment reads what was sent to the segment, later ones
  // their predecessor's pipe, and nothing waits for a segment that is past, through this line and from every sound
  // state, if and only if every segment starts with a real command, no pipe is sent to the own segment or an earlier
  // one, and no empty command stands between a command that leaves an ordinary pipe and the next that runs.
  lemma RoutedExactly(cs: seq<Command>, cfg: Config)
    ensures KeepsRouting(cs, cfg) <==> WellFormed(cs, cfg.forceLastOutput)
  {
    if !SafeLine(cs, cfg.forceLastOutput) {
      UnsafeUnsound(cs, cfg);
    } else if i, j :| 0 <= i < j < |cs| && Strays(cs, i, j, cfg.forceLastOutput) {
      StrayUnsound(cs, i, j, cfg);
    } else {
      forall s: Shell, openOk: seq<bool>, counter: nat | SoundShell(s) && Lent(s, cs, cfg, openOk, counter)
        ensures SoundShell(RunLine(s, External(cs, cfg, openOk, counter)))
      {
        RunLineSound(s, External(cs, cfg, openOk, counter));
      }
    }
  }

  const PLAIN := Config(None, Terminal(1), Terminal(2), false)

  // "ls | |1 cat": the skipped command hands ls's pipe to cat, which opens the next segment and
  // therefore reads something nobody sent to it.
  lemma EmptyCommandMisroutes()
    ensures var cs := [Command(["ls"], OrdinaryPipe, 0, false, ""),
                       Command([], NumberPipeOut, 1, false, ""),
                       Command(["cat"], Nothing, 0, false, "")];
            var log := Exec(Engine(map[], 0, None, []), cs, 3, 0, PLAIN, [true, true, true]).log;
            |log| == 3 && log[2].ran && log[2].starts && !Sender(log, log[2].segment) && log[2].stdin == Some(PipeRead(0))
  {
    var cs := [Command(["ls"], OrdinaryPipe, 0, false, ""),
               Command([], NumberPipeOut, 1, false, ""),
               Command(["cat"], Nothing, 0, false, "")];
    var openOk := [true, true, true];
    var e := Engine(map[], 0, None, []);
    var e1 := Step(e, cs, 0, 0, PLAIN, true);
    var e2 := Step(e1, cs, 1, 0, PLAIN, true);
    var e3 := Step(e2, cs, 2, 0, PLAIN, true);
    assert Exec(e, cs, 0, 0, PLAIN, openOk) == e;
    assert Exec(e, cs, 1, 0, PLAIN, openOk) == e1;
    assert Exec(e, cs, 2, 0, PLAIN, openOk) == e2;
    assert Exec(e, cs, 3, 0, PLAIN, openOk) == e3;
    assert StartsSegment(cs, 0) && !StartsSegment(cs, 1) && StartsSegment(cs, 2);
  }
}
