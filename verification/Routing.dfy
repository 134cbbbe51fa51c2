/** The meaning of a line, free of descriptor numbers: which pipe, file or socket every command gets. */
module Routing {
  import opened Commands

  // What a descriptor refers to. Pipes are told apart by a serial number given out by the kernel.
  datatype Endpoint =
    | Terminal(n: int)
    | Listening
    | Socket(peer: nat)
    | DevNull
    | File(name: string)
    | PipeRead(pipe: nat)
    | PipeWrite(pipe: nat)

  predicate IsPipe(e: Endpoint) {
    e.PipeRead? || e.PipeWrite?
  }

  datatype Config = Config(input: Option<Endpoint>, output: Endpoint, error: Endpoint, forceLastOutput: bool)

  // One command of a line and what became of it. The routes mean something only when it ran.
  datatype Outcome = Outcome(
    command: Command,
    segment: int,
    starts: bool,
    overridden: bool,
    forced: bool,
    ran: bool,
    stdin: Option<Endpoint>,
    stdout: Endpoint,
    stderr: Endpoint,
    waited: bool)

  datatype Engine = Engine(pipes: map<int, nat>, next: nat, input: Option<Endpoint>, log: seq<Outcome>)

  // What a command was started with: its argv, its three standard descriptors, and whether the shell waits for it.
  datatype Launch = Launch(argv: seq<string>, stdin: Endpoint, stdout: Endpoint, stderr: Endpoint, waited: bool)

  // The launches a log records. A command without an input of its own inherits the shell's.
  function Launches(log: seq<Outcome>, inherited: Endpoint): seq<Launch> {
    if log == [] then []
    else
      var r := log[|log| - 1];
      Launches(log[..|log| - 1], inherited) +
      if r.ran then [Launch(r.command.argv, r.stdin.GetOr(inherited), r.stdout, r.stderr, r.waited)] else []
  }

  lemma LaunchesSnoc(log: seq<Outcome>, r: Outcome, inherited: Endpoint)
    ensures Launches(log + [r], inherited) ==
            Launches(log, inherited) +
            if r.ran then [Launch(r.command.argv, r.stdin.GetOr(inherited), r.stdout, r.stderr, r.waited)] else []
  {
    assert (log + [r])[..|log|] == log;
  }

  lemma {:induction false} LaunchesConcat(a: seq<Outcome>, b: seq<Outcome>, inherited: Endpoint)
    ensures Launches(a + b, inherited) == Launches(a, inherited) + Launches(b, inherited)
  {
    if b == [] {
      assert a + b == a;
    } else {
      var r := b[|b| - 1];
      var b' := b[..|b| - 1];
      LaunchesConcat(a, b', inherited);
      assert a + b == (a + b') + [r] && b == b' + [r];
      LaunchesSnoc(a + b', r, inherited);
      LaunchesSnoc(b', r, inherited);
    }
  }

  // The commands of a log that ran.
  function Runs(log: seq<Outcome>): seq<Outcome> {
    if log == [] then []
    else Runs(log[..|log| - 1]) + if log[|log| - 1].ran then [log[|log| - 1]] else []
  }

  // A command that is started, and the pipes of which it must hold no end beyond its three standard descriptors.
  datatype Beginning = Beginning(outcome: Outcome, barred: set<nat>)

  function Begun(runs: seq<Outcome>, barred: set<nat>): (starts: seq<Beginning>)
    ensures |starts| == |runs| && forall i :: 0 <= i < |runs| ==> starts[i] == Beginning(runs[i], barred)
  {
    seq(|runs|, i requires 0 <= i < |runs| => Beginning(runs[i], barred))
  }

  lemma {:induction false} LaunchesAreRuns(log: seq<Outcome>, inherited: Endpoint)
    ensures |Launches(log, inherited)| == |Runs(log)|
    ensures forall i :: 0 <= i < |Runs(log)| ==>
      var r := Runs(log)[i];
      Launches(log, inherited)[i] == Launch(r.command.argv, r.stdin.GetOr(inherited), r.stdout, r.stderr, r.waited)
  {
    if log != [] { LaunchesAreRuns(log[..|log| - 1], inherited); }
  }

  // ----- one command -----

  function Attach(e: Engine, segment: int): Engine {
    if segment !in e.pipes then e
    else e.(input := Some(e.input.GetOr(PipeRead(e.pipes[segment]))), pipes := e.pipes - {segment})
  }

  function Overrides(i: nat, cfg: Config): bool {
    i == 0 && cfg.input.Some?
  }

  function Forces(cs: seq<Command>, i: nat, cfg: Config): bool {
    i + 1 == |cs| && cfg.forceLastOutput
  }

  // The pipe of a target segment, created on first use.
  function Target(e: Engine, target: int): (Engine, nat) {
    if target in e.pipes then (e, e.pipes[target])
    else (e.(pipes := e.pipes[target := e.next], next := e.next + 1), e.next)
  }

  function Blank(cs: seq<Command>, i: nat, base: int, cfg: Config): Outcome
    requires i < |cs|
  {
    Outcome(cs[i], base + SegmentOf(cs, i), StartsSegment(cs, i), Overrides(i, cfg), Forces(cs, i, cfg),
            false, None, cfg.output, cfg.error, Waits(cs, i))
  }

  function Spawn(e: Engine, r: Outcome, out: Endpoint, err: Endpoint, nextInput: Option<Endpoint>): Engine {
    e.(input := nextInput, log := e.log + [r.(ran := true, stdin := e.input, stdout := out, stderr := err)])
  }

  // The input a command gets: the pipe addressed to its segment, or the caller's descriptor.
  function TakeInput(e: Engine, blank: Outcome, cfg: Config): (e': Engine)
    ensures e'.log == e.log && e'.next == e.next
  {
    var e1 := if blank.starts then Attach(e, blank.segment) else e;
    if blank.overridden then e1.(input := cfg.input) else e1
  }

  // Route a command whose input is already taken; blank is its record before it runs.
  function Dispatch(e: Engine, blank: Outcome, cfg: Config, openOk: bool): (e': Engine)
    ensures |e'.log| == |e.log| + 1
    ensures e'.log[|e.log|].command == blank.command && e'.log[|e.log|].waited == blank.waited
  {
    var c := blank.command;
    if blank.forced then
      Spawn(e, blank, cfg.output, cfg.error, None)
    else if c.redirectStdout then
      if openOk then Spawn(e, blank, File(c.redirectFile), cfg.error, None)
      else e.(input := None, log := e.log + [blank])
    else if c.nextType.OrdinaryPipe? then
      Spawn(e.(next := e.next + 1), blank, PipeWrite(e.next), cfg.error, Some(PipeRead(e.next)))
    else if IsNumberPipe(c.nextType) then
      var (e', p) := Target(e, blank.segment + c.nextCount);
      Spawn(e', blank, PipeWrite(p), if c.nextType.NumberPipeBoth? then PipeWrite(p) else cfg.error, None)
    else
      Spawn(e, blank, cfg.output, cfg.error, None)
  }

  function Step(e: Engine, cs: seq<Command>, i: nat, base: int, cfg: Config, openOk: bool): (e': Engine)
    requires i < |cs|
    ensures |e'.log| == |e.log| + 1
  {
    var blank := Blank(cs, i, base, cfg);
    if cs[i].argv == [] then e.(log := e.log + [blank])
    else Dispatch(TakeInput(e, blank, cfg), blank, cfg, openOk)
  }

  // The first n commands of a line.
  function Exec(e: Engine, cs: seq<Command>, n: nat, base: int, cfg: Config, openOk: seq<bool>): Engine
    requires n <= |cs| == |openOk|
  {
    if n == 0 then e else Step(Exec(e, cs, n - 1, base, cfg, openOk), cs, n - 1, base, cfg, openOk[n - 1])
  }

  // ----- whole sessions -----

  // A line either runs commands, with the kernel's pipe counter at that moment, or is a builtin.
  datatype Line =
    | External(cs: seq<Command>, cfg: Config, openOk: seq<bool>, counter: nat)
    | Builtin

  // owned holds the pipes this shell made; log is everything it was ever asked to run.
  datatype Shell = Shell(pipes: map<int, nat>, executed: int, next: nat, log: seq<Outcome>, owned: set<nat>)

  const FRESH_SHELL := Shell(map[], 0, 0, [], {})

  function Start(s: Shell, line: Line): Engine
    requires line.External?
  {
    Engine(s.pipes, line.counter, None, s.log)
  }

  function RunLine(s: Shell, line: Line): Shell
    requires line.External? ==> |line.openOk| == |line.cs|
  {
    match line
    case External(cs, cfg, openOk, counter) =>
      var e := Exec(Start(s, line), cs, |cs|, s.executed, cfg, openOk);
      Shell(e.pipes, s.executed + SegmentsOpened(cs, |cs|), e.next, e.log, Grown(s.owned, counter, e.next))
    case Builtin =>
      s.(pipes := s.pipes - {s.executed + 1}, executed := s.executed + 1)
  }

  function Grown(owned: set<nat>, from: nat, upTo: nat): (grown: set<nat>)
    ensures forall p: nat :: p in grown <==> p in owned || from <= p < upTo
  {
    if from < upTo then Grown(owned, from, upTo - 1) + {upTo - 1} else owned
  }

  // The pipes a line makes are new.
  lemma NewPipes(s: Shell, cs: seq<Command>, cfg: Config, openOk: seq<bool>, counter: nat)
    requires |openOk| == |cs|
    ensures forall p :: p in RunLine(s, External(cs, cfg, openOk, counter)).owned ==> p in s.owned || counter <= p
  {
    hide Exec;
  }

  // Descriptors the caller lends to a line are not pipes of this shell.
  predicate Foreign(e: Endpoint, owned: set<nat>, next: nat) {
    IsPipe(e) ==> e.pipe !in owned && e.pipe < next
  }

  predicate ForeignConfig(cfg: Config, owned: set<nat>, next: nat) {
    && Foreign(cfg.output, owned, next)
    && Foreign(cfg.error, owned, next)
    && (cfg.input.Some? ==> Foreign(cfg.input.value, owned, next))
  }

  // Command i, if it runs, writes to a numbered pipe.
  predicate Addresses(cs: seq<Command>, i: nat, forceLast: bool)
    requires i < |cs|
  {
    && cs[i].argv != [] && IsNumberPipe(cs[i].nextType) && !cs[i].redirectStdout
    && !(i + 1 == |cs| && forceLast)
  }

  // Every segment starts with a real command, and no command sends to its own segment or an earlier one.
  predicate SafeLine(cs: seq<Command>, forceLast: bool) {
    forall i :: 0 <= i < |cs| ==>
      && (StartsSegment(cs, i) ==> cs[i].argv != [])
      && (Addresses(cs, i, forceLast) ==> cs[i].nextCount >= 1)
  }

  // Command i leaves an ordinary pipe to its successor.
  predicate FeedsNext(cs: seq<Command>, i: nat, forceLast: bool)
    requires i < |cs|
  {
    && cs[i].argv != [] && cs[i].nextType.OrdinaryPipe? && !cs[i].redirectStdout
    && !(i + 1 == |cs| && forceLast)
  }

  // Only empty commands, at least one, stand between command i, which leaves a pipe, and command j, which takes it.
  predicate Strays(cs: seq<Command>, i: nat, j: nat, forceLast: bool)
    requires i < j < |cs|
  {
    i + 1 < j && FeedsNext(cs, i, forceLast) && cs[j].argv != [] && forall k :: i < k < j ==> cs[k].argv == []
  }

  // The lines that are routed as promised; RoutedExactly says that there are no others.
  predicate WellFormed(cs: seq<Command>, forceLast: bool) {
    && SafeLine(cs, forceLast)
    && forall i, j :: 0 <= i < j < |cs| ==> !Strays(cs, i, j, forceLast)
  }

  ghost predicate Admissible(s: Shell, line: Line) {
    match line
    case External(cs, cfg, openOk, counter) =>
      && |openOk| == |cs|
      && s.next <= counter
      && WellFormed(cs, cfg.forceLastOutput)
      && ForeignConfig(cfg, s.owned, counter)
    case Builtin => true
  }

  function Run(s: Shell, lines: seq<Line>): Shell
    requires forall i :: 0 <= i < |lines| && lines[i].External? ==> |lines[i].openOk| == |lines[i].cs|
  {
    if lines == [] then s else RunLine(Run(s, lines[..|lines| - 1]), lines[|lines| - 1])
  }

  ghost predicate AdmissibleRun(s: Shell, lines: seq<Line>) {
    lines != [] ==>
      && (forall i :: 0 <= i < |lines| && lines[i].External? ==> |lines[i].openOk| == |lines[i].cs|)
      && AdmissibleRun(s, lines[..|lines| - 1])
      && Admissible(Run(s, lines[..|lines| - 1]), lines[|lines| - 1])
  }

  // ----- what routing promises -----

  predicate Writes(r: Outcome, p: nat) {
    r.ran && (r.stdout == PipeWrite(p) || r.stderr == PipeWrite(p))
  }

  predicate Reads(r: Outcome, p: nat) {
    r.ran && r.stdin == Some(PipeRead(p))
  }

  // The segment a command's output was addressed to by a numbered pipe.
  function SentTo(r: Outcome): Option<int> {
    if r.ran && IsNumberPipe(r.command.nextType) && !r.command.redirectStdout && !r.forced
    then Some(r.segment + r.command.nextCount) else None
  }

  // A command that ran with an ordinary pipe as its output.
  predicate Feeds(r: Outcome) {
    r.ran && r.command.nextType.OrdinaryPipe? && !r.command.redirectStdout && !r.forced
  }

  // The writers of pipe p are exactly the commands that sent to segment t.
  ghost predicate Collects(log: seq<Outcome>, p: nat, t: int) {
    forall j :: 0 <= j < |log| ==> (Writes(log[j], p) <==> SentTo(log[j]) == Some(t))
  }

  ghost predicate Sender(log: seq<Outcome>, t: int) {
    exists j :: 0 <= j < |log| && SentTo(log[j]) == Some(t)
  }

  ghost predicate OnlyWriter(log: seq<Outcome>, p: nat, i: int) {
    forall j :: 0 <= j < |log| ==> (Writes(log[j], p) <==> j == i)
  }

  ghost predicate OnlyReader(log: seq<Outcome>, p: nat, i: int) {
    forall j :: 0 <= j < |log| && Reads(log[j], p) ==> j == i
  }

  // The first command of a segment reads the pipe that collects what was sent to the segment.
  ghost predicate HeadRouted(log: seq<Outcome>, i: nat)
    requires i < |log|
  {
    var r := log[i];
    if Sender(log, r.segment) then
      r.stdin.Some? && r.stdin.value.PipeRead? &&
      Collects(log, r.stdin.value.pipe, r.segment) && OnlyReader(log, r.stdin.value.pipe, i)
    else r.stdin == None
  }

  // Every later command of a segment reads its predecessor's ordinary pipe, or nothing.
  ghost predicate TailRouted(log: seq<Outcome>, i: nat)
    requires i < |log|
  {
    var r := log[i];
    if i > 0 && Feeds(log[i - 1]) then
      r.stdin.Some? && r.stdin.value.PipeRead? && log[i - 1].stdout == PipeWrite(r.stdin.value.pipe) &&
      OnlyWriter(log, r.stdin.value.pipe, i - 1) && OnlyReader(log, r.stdin.value.pipe, i)
    else r.stdin == None
  }

  ghost predicate Routed(log: seq<Outcome>, i: nat)
    requires i < |log|
  {
    log[i].ran && !log[i].overridden ==> if log[i].starts then HeadRouted(log, i) else TailRouted(log, i)
  }

  // ----- the invariant -----

  // Pipes waiting in the map are addressed ahead, owned and distinct.
  ghost predicate Ahead(pipes: map<int, nat>, owned: set<nat>, current: int) {
    && (forall t :: t in pipes ==> t > current && pipes[t] in owned)
    && (forall t, u :: t in pipes && u in pipes && t != u ==> pipes[t] != pipes[u])
  }

  // They collect exactly their segment, and nobody has read them yet.
  ghost predicate AllCollect(log: seq<Outcome>, pipes: map<int, nat>) {
    forall t :: t in pipes ==> Collects(log, pipes[t], t) && Sender(log, t) && Unread(log, pipes[t])
  }

  ghost predicate Unread(log: seq<Outcome>, p: nat) {
    forall j :: 0 <= j < |log| ==> !Reads(log[j], p)
  }

  // What was sent ahead is still in the map.
  ghost predicate Kept(log: seq<Outcome>, pipes: map<int, nat>, current: int) {
    forall j :: 0 <= j < |log| && SentTo(log[j]).Some? && SentTo(log[j]).value > current
      ==> SentTo(log[j]).value in pipes
  }

  // The log mentions no pipe and no segment of the future.
  ghost predicate Past(log: seq<Outcome>, next: nat, current: int) {
    && (forall j :: 0 <= j < |log| ==> log[j].segment <= current)
    && (forall j, p: nat :: 0 <= j < |log| && (Writes(log[j], p) || Reads(log[j], p)) ==> p < next)
  }

  // Every earlier command is routed as promised, through pipes of this shell that have left the map.
  ghost predicate AllRouted(log: seq<Outcome>, owned: set<nat>) {
    forall j :: 0 <= j < |log| ==> Routed(log, j) && ReadsOwn(log[j], owned)
  }

  predicate ReadsOwn(r: Outcome, owned: set<nat>) {
    r.ran && !r.overridden && r.stdin.Some? ==> r.stdin.value.PipeRead? && r.stdin.value.pipe in owned
  }

  ghost predicate Sound(e: Engine, owned: set<nat>, current: int) {
    && (forall p :: p in owned ==> p < e.next)
    && Ahead(e.pipes, owned, current)
    && AllCollect(e.log, e.pipes)
    && Kept(e.log, e.pipes, current)
    && Past(e.log, e.next, current)
    && AllRouted(e.log, owned)
  }

  // A pipe of this shell that nobody has read and that is not waiting in the map.
  ghost predicate Private(log: seq<Outcome>, pipes: map<int, nat>, owned: set<nat>, p: nat) {
    p in owned && p !in pipes.Values && Unread(log, p)
  }

  // Within a line the pending input is the ordinary pipe of the command just run.
  ghost predicate Pending(e: Engine, owned: set<nat>, mid: bool) {
    if mid && |e.log| > 0 && Feeds(e.log[|e.log| - 1]) then
      e.input.Some? && e.input.value.PipeRead? &&
      var p := e.input.value.pipe;
      && e.log[|e.log| - 1].stdout == PipeWrite(p)
      && Private(e.log, e.pipes, owned, p)
      && OnlyWriter(e.log, p, |e.log| - 1)
    else e.input == None
  }

  // What command number |log| is about to read.
  ghost predicate Ready(e: Engine, owned: set<nat>, r: Outcome) {
    if r.overridden then
      e.input.Some? && Foreign(e.input.value, owned, e.next)
    else if r.starts then
      if Sender(e.log, r.segment) then
        e.input.Some? && e.input.value.PipeRead? &&
        Private(e.log, e.pipes, owned, e.input.value.pipe) && Collects(e.log, e.input.value.pipe, r.segment)
      else e.input == None
    else
      Pending(e, owned, true)
  }

  lemma DropSound(e: Engine, owned: set<nat>, segment: int)
    requires Sound(e, owned, segment - 1)
    ensures Sound(e.(pipes := e.pipes - {segment}), owned, segment)
  {
  }

  lemma AttachReady(e: Engine, owned: set<nat>, segment: int, r: Outcome)
    requires Sound(e, owned, segment - 1) && e.input == None
    requires r.starts && !r.overridden && r.segment == segment
    ensures Sound(Attach(e, segment), owned, segment) && Ready(Attach(e, segment), owned, r)
  {
    assert segment in e.pipes <==> Sender(e.log, segment);
    var rest := e.pipes - {segment};
    DropSound(e, owned, segment);
    if segment in e.pipes {
      assert e.pipes[segment] !in rest.Values by {
        assert forall t :: t in rest ==> rest[t] == e.pipes[t] && t != segment;
      }
    } else {
      assert rest == e.pipes;
    }
  }

  // A lent input replaces whatever the command would have read.
  lemma OverrideReady(e: Engine, owned: set<nat>, segment: int, input: Endpoint, r: Outcome)
    requires Sound(e, owned, segment) && Foreign(input, owned, e.next) && r.overridden
    ensures Sound(e.(input := Some(input)), owned, segment) && Ready(e.(input := Some(input)), owned, r)
  {
  }

  lemma TakeInputReady(e: Engine, r: Outcome, cfg: Config, owned: set<nat>)
    requires Sound(e, owned, if r.starts then r.segment - 1 else r.segment)
    requires if r.starts then e.input == None else Pending(e, owned, true) && !r.overridden
    requires r.overridden ==> cfg.input.Some? && Foreign(cfg.input.value, owned, e.next)
    ensures Sound(TakeInput(e, r, cfg), owned, r.segment) && Ready(TakeInput(e, r, cfg), owned, r)
  {
    if r.starts {
      AttachReady(e, owned, r.segment, r.(overridden := false));
      if r.overridden {
        OverrideReady(Attach(e, r.segment), owned, r.segment, cfg.input.value, r);
      }
    }
  }

  lemma SenderSnoc(log: seq<Outcome>, r: Outcome, t: int)
    ensures Sender(log + [r], t) <==> Sender(log, t) || SentTo(r) == Some(t)
  {
    var log' := log + [r];
    assert log'[|log|] == r;
    if Sender(log, t) {
      var j :| 0 <= j < |log| && SentTo(log[j]) == Some(t);
      assert SentTo(log'[j]) == Some(t);
    }
  }

  // The writers and readers of a pipe once r is added to the log.
  lemma PipeSnoc(log: seq<Outcome>, r: Outcome, p: nat)
    ensures forall t :: Collects(log, p, t) && (Writes(r, p) <==> SentTo(r) == Some(t)) ==> Collects(log + [r], p, t)
    ensures forall i :: OnlyWriter(log, p, i) && !Writes(r, p) && i < |log| ==> OnlyWriter(log + [r], p, i)
    ensures forall i :: OnlyReader(log, p, i) && !Reads(r, p) ==> OnlyReader(log + [r], p, i)
    ensures Unread(log, p) ==> OnlyReader(log + [r], p, |log|)
    ensures Unread(log, p) && !Reads(r, p) ==> Unread(log + [r], p)
  {
    var log' := log + [r];
    assert forall j :: 0 <= j < |log'| ==> log'[j] == if j < |log| then log[j] else r;
  }

  // A pipe the log does not know has only the writers and readers r gives it.
  lemma FreshSnoc(log: seq<Outcome>, r: Outcome, next: nat, current: int, p: nat)
    requires Past(log, next, current) && p >= next
    ensures Unread(log, p)
    ensures Writes(r, p) ==> OnlyWriter(log + [r], p, |log|)
    ensures forall t :: !Sender(log, t) && Writes(r, p) && SentTo(r) == Some(t) ==> Collects(log + [r], p, t)
  {
    var log' := log + [r];
    assert forall j :: 0 <= j < |log'| ==> log'[j] == if j < |log| then log[j] else r;
  }

  // Adding one outcome r to the log. w is the pipe of this shell that r writes, if any.
  ghost predicate Appends(e: Engine, e': Engine, owned: set<nat>, owned': set<nat>, r: Outcome, w: Option<nat>) {
    && e'.log == e.log + [r]
    && (r.ran ==> r.stdin == e.input)
    && owned <= owned' && e.next <= e'.next
    && (forall p :: p in owned' ==> p < e'.next && (p in owned || p >= e.next))
    && (forall p: nat :: Writes(r, p) ==> w == Some(p) || (p < e.next && p !in owned))
    && (w.Some? ==> Writes(r, w.value) && w.value in owned')
    && (SentTo(r).Some? ==> w.Some? && SentTo(r).value > r.segment)
    && (match SentTo(r)
        case None => e'.pipes == e.pipes && (w.Some? ==> w.value >= e.next)
        case Some(t) =>
          && e'.pipes == e.pipes[t := w.value]
          && if t in e.pipes then w.value == e.pipes[t] else w.value >= e.next)
  }

  // The input r takes: known to the kernel, and either lent by the caller or private to this shell.
  lemma ReadyInput(e: Engine, owned: set<nat>, r: Outcome, p: nat)
    requires (forall p :: p in owned ==> p < e.next) && Ready(e, owned, r)
    requires e.input == Some(PipeRead(p))
    ensures p < e.next && (p in owned ==> Private(e.log, e.pipes, owned, p))
  {
  }

  lemma AppendKeepsRouted(e: Engine, e': Engine, owned: set<nat>, owned': set<nat>, r: Outcome, w: Option<nat>, j: nat)
    requires Ready(e, owned, r) && (forall p :: p in owned ==> p < e.next)
    requires Appends(e, e', owned, owned', r, w)
    requires j < |e.log| && Routed(e.log, j) && ReadsOwn(e.log[j], owned) && e.log[j].segment <= r.segment
    requires forall t :: t in e.pipes ==> Unread(e.log, e.pipes[t])
    ensures Routed(e'.log, j)
  {
    var q := e.log[j];
    assert e'.log[j] == q && (j > 0 ==> e'.log[j - 1] == e.log[j - 1]);
    if q.ran && !q.overridden {
      SenderSnoc(e.log, r, q.segment);
      if q.stdin.Some? {
        var p := q.stdin.value.pipe;
        assert Reads(q, p);
        PipeSnoc(e.log, r, p);
      }
    }
  }

  lemma AppendRoutesNew(e: Engine, e': Engine, owned: set<nat>, owned': set<nat>, r: Outcome, w: Option<nat>)
    requires Ready(e, owned, r) && (forall p :: p in owned ==> p < e.next)
    requires Appends(e, e', owned, owned', r, w)
    ensures Routed(e'.log, |e.log|) && ReadsOwn(r, owned)
  {
    assert e'.log[|e.log|] == r;
    assert |e.log| > 0 ==> e'.log[|e.log| - 1] == e.log[|e.log| - 1];
    if r.ran && !r.overridden {
      SenderSnoc(e.log, r, r.segment);
      if r.stdin.Some? {
        var p := r.stdin.value.pipe;
        assert !Writes(r, p);
        PipeSnoc(e.log, r, p);
      }
    }
  }

  lemma AppendCollects(e: Engine, e': Engine, owned: set<nat>, owned': set<nat>, r: Outcome, w: Option<nat>, t: int)
    requires Ready(e, owned, r) && Ahead(e.pipes, owned, r.segment) && (forall p :: p in owned ==> p < e.next)
    requires Past(e.log, e.next, r.segment)
    requires Appends(e, e', owned, owned', r, w)
    requires t in e'.pipes
    requires if t in e.pipes then Collects(e.log, e.pipes[t], t) && Sender(e.log, t) && Unread(e.log, e.pipes[t])
             else !Sender(e.log, t)
    ensures Collects(e'.log, e'.pipes[t], t) && Sender(e'.log, t) && Unread(e'.log, e'.pipes[t])
  {
    SenderSnoc(e.log, r, t);
    var p := e'.pipes[t];
    if r.ran && r.stdin == Some(PipeRead(p)) {
      ReadyInput(e, owned, r, p);
    }
    if t in e.pipes {
      PipeSnoc(e.log, r, p);
    } else {
      FreshSnoc(e.log, r, e.next, r.segment, p);
      PipeSnoc(e.log, r, p);
    }
  }

  lemma AppendPast(e: Engine, e': Engine, owned: set<nat>, owned': set<nat>, r: Outcome, w: Option<nat>)
    requires Ready(e, owned, r) && (forall p :: p in owned ==> p < e.next)
    requires Past(e.log, e.next, r.segment) && Kept(e.log, e.pipes, r.segment)
    requires Appends(e, e', owned, owned', r, w)
    ensures Past(e'.log, e'.next, r.segment) && Kept(e'.log, e'.pipes, r.segment)
  {
    assert forall j :: 0 <= j < |e'.log| ==> e'.log[j] == if j < |e.log| then e.log[j] else r;
    forall p: nat | Reads(r, p) ensures p < e.next {
      ReadyInput(e, owned, r, p);
    }
  }

  lemma AppendAhead(e: Engine, e': Engine, owned: set<nat>, owned': set<nat>, r: Outcome, w: Option<nat>)
    requires Ahead(e.pipes, owned, r.segment) && (forall p :: p in owned ==> p < e.next)
    requires Appends(e, e', owned, owned', r, w)
    ensures Ahead(e'.pipes, owned', r.segment)
  {
  }

  lemma AppendAllCollect(e: Engine, e': Engine, owned: set<nat>, owned': set<nat>, r: Outcome, w: Option<nat>)
    requires Sound(e, owned, r.segment) && Ready(e, owned, r)
    requires Appends(e, e', owned, owned', r, w)
    ensures AllCollect(e'.log, e'.pipes)
  {
    forall t | t in e'.pipes ensures Collects(e'.log, e'.pipes[t], t) && Sender(e'.log, t) && Unread(e'.log, e'.pipes[t]) {
      AppendCollects(e, e', owned, owned', r, w, t);
    }
  }

  lemma AppendAllRouted(e: Engine, e': Engine, owned: set<nat>, owned': set<nat>, r: Outcome, w: Option<nat>)
    requires Sound(e, owned, r.segment) && Ready(e, owned, r)
    requires Appends(e, e', owned, owned', r, w)
    ensures AllRouted(e'.log, owned')
  {
    forall j | 0 <= j < |e'.log| ensures Routed(e'.log, j) && ReadsOwn(e'.log[j], owned') {
      if j < |e.log| {
        AppendKeepsRouted(e, e', owned, owned', r, w, j);
        assert e'.log[j] == e.log[j];
      } else {
        AppendRoutesNew(e, e', owned, owned', r, w);
      }
    }
  }

  lemma AppendPrivate(e: Engine, e': Engine, owned: set<nat>, owned': set<nat>, r: Outcome, w: Option<nat>)
    requires Ahead(e.pipes, owned, r.segment) && Past(e.log, e.next, r.segment) && Ready(e, owned, r)
    requires forall p :: p in owned ==> p < e.next
    requires Appends(e, e', owned, owned', r, w)
    requires w.Some? && SentTo(r) == None
    ensures Private(e'.log, e'.pipes, owned', w.value) && OnlyWriter(e'.log, w.value, |e.log|)
  {
    FreshSnoc(e.log, r, e.next, r.segment, w.value);
    PipeSnoc(e.log, r, w.value);
    if Reads(r, w.value) { ReadyInput(e, owned, r, w.value); }
    assert forall t :: t in e'.pipes ==> e'.pipes[t] != w.value;
  }

  lemma AppendSound(e: Engine, e': Engine, owned: set<nat>, owned': set<nat>, r: Outcome, w: Option<nat>)
    requires Sound(e, owned, r.segment) && Ready(e, owned, r)
    requires Appends(e, e', owned, owned', r, w)
    ensures Sound(e', owned', r.segment)
  {
    AppendAhead(e, e', owned, owned', r, w);
    AppendAllCollect(e, e', owned, owned', r, w);
    AppendPast(e, e', owned, owned', r, w);
    AppendAllRouted(e, e', owned, owned', r, w);
  }

  // ----- one command keeps it -----

  // The pipe of its own that an outcome writes.
  function OwnTarget(r: Outcome): Option<nat> {
    if (Feeds(r) || SentTo(r).Some?) && r.stdout.PipeWrite? then Some(r.stdout.pipe) else None
  }

  // A command that ran nothing, or wrote only what the caller lent it or a file.
  lemma AppendsElsewhere(t: Engine, e': Engine, owned: set<nat>, r: Outcome)
    requires e'.log == t.log + [r] && e'.pipes == t.pipes && e'.next == t.next
    requires r.ran ==> r.stdin == t.input && Foreign(r.stdout, owned, t.next) && Foreign(r.stderr, owned, t.next)
    requires forall p :: p in owned ==> p < t.next
    requires SentTo(r) == None
    ensures Appends(t, e', owned, owned, r, None)
  {
  }

  lemma AppendsOrdinary(t: Engine, e': Engine, owned: set<nat>, owned': set<nat>, r: Outcome)
    requires e'.log == t.log + [r] && e'.pipes == t.pipes && e'.next == t.next + 1 && owned' == owned + {t.next}
    requires r.ran && r.stdin == t.input && r.stdout == PipeWrite(t.next) && Foreign(r.stderr, owned, t.next)
    requires forall p :: p in owned ==> p < t.next
    requires SentTo(r) == None
    ensures Appends(t, e', owned, owned', r, Some(t.next))
  {
  }

  lemma AppendsSent(t: Engine, e': Engine, owned: set<nat>, owned': set<nat>, r: Outcome, target: int)
    requires e'.log == t.log + [r] && SentTo(r) == Some(target) && target > r.segment
    requires r.stdout.PipeWrite? && (e'.(log := t.log, input := t.input), r.stdout.pipe) == Target(t, target)
    requires r.ran && r.stdin == t.input
    requires r.stderr == r.stdout || Foreign(r.stderr, owned, t.next)
    requires forall p :: p in owned ==> p < t.next
    requires forall t0 :: t0 in t.pipes ==> t.pipes[t0] in owned
    requires owned' == owned + if target in t.pipes then {} else {t.next}
    ensures Appends(t, e', owned, owned', r, Some(r.stdout.pipe))
  {
    if target in t.pipes {
      assert e'.pipes == t.pipes[target := r.stdout.pipe];
    }
  }

  // What Dispatch adds to the log: one record, described by the command it routed.
  ghost predicate Describes(r: Outcome, t: Engine, e': Engine, blank: Outcome) {
    && r.command == blank.command && r.segment == blank.segment
    && r.starts == blank.starts && r.overridden == blank.overridden
    && (Feeds(r) ==> e'.input == Some(PipeRead(t.next)) && r.stdout == PipeWrite(t.next) && SentTo(r) == None)
    && (!Feeds(r) ==> e'.input == None)
  }

  // If it runs and writes to a numbered pipe, the pipe is addressed to a later segment.
  predicate SendsAhead(blank: Outcome) {
    IsNumberPipe(blank.command.nextType) && !blank.command.redirectStdout && !blank.forced ==> blank.command.nextCount >= 1
  }

  lemma DispatchAppends(t: Engine, blank: Outcome, cfg: Config, openOk: bool, owned: set<nat>)
    requires !blank.ran
    requires SendsAhead(blank)
    requires forall p :: p in owned ==> p < t.next
    requires forall s :: s in t.pipes ==> t.pipes[s] in owned
    requires ForeignConfig(cfg, owned, t.next)
    ensures var e' := Dispatch(t, blank, cfg, openOk);
            var owned' := Grown(owned, t.next, e'.next);
            && |e'.log| == |t.log| + 1
            && Appends(t, e', owned, owned', e'.log[|t.log|], OwnTarget(e'.log[|t.log|]))
            && ForeignConfig(cfg, owned', e'.next)
            && Describes(e'.log[|t.log|], t, e', blank)
  {
    var e' := Dispatch(t, blank, cfg, openOk);
    var owned' := Grown(owned, t.next, e'.next);
    var r := e'.log[|t.log|];
    if Feeds(r) {
      assert owned' == owned + {t.next};
      AppendsOrdinary(t, e', owned, owned', r);
    } else if SentTo(r).Some? {
      assert owned' == owned + if SentTo(r).value in t.pipes then {} else {t.next};
      AppendsSent(t, e', owned, owned', r, SentTo(r).value);
    } else {
      assert owned' == owned;
      AppendsElsewhere(t, e', owned, r);
    }
  }

  lemma DispatchSound(t: Engine, blank: Outcome, cfg: Config, openOk: bool, owned: set<nat>)
    requires !blank.ran
    requires SendsAhead(blank)
    requires Sound(t, owned, blank.segment) && Ready(t, owned, blank) && ForeignConfig(cfg, owned, t.next)
    ensures var e' := Dispatch(t, blank, cfg, openOk);
            var owned' := Grown(owned, t.next, e'.next);
            && t.next <= e'.next
            && Sound(e', owned', blank.segment) && Pending(e', owned', true) && ForeignConfig(cfg, owned', e'.next)
            && |e'.log| == |t.log| + 1 && e'.log[|t.log|].command == blank.command
  {
    DispatchAppends(t, blank, cfg, openOk, owned);
    var e' := Dispatch(t, blank, cfg, openOk);
    var r := e'.log[|t.log|];
    AppendSound(t, e', owned, Grown(owned, t.next, e'.next), r, OwnTarget(r));
    if Feeds(r) {
      AppendPrivate(t, e', owned, Grown(owned, t.next, e'.next), r, OwnTarget(r));
    }
  }

  // Take the input of a command and route it.
  lemma CommandSound(e: Engine, blank: Outcome, cfg: Config, openOk: bool, owned: set<nat>)
    requires !blank.ran && (blank.overridden ==> blank.starts && cfg.input.Some?)
    requires SendsAhead(blank)
    requires Sound(e, owned, if blank.starts then blank.segment - 1 else blank.segment)
    requires if blank.starts then e.input == None else Pending(e, owned, true)
    requires ForeignConfig(cfg, owned, e.next)
    ensures var e' := Dispatch(TakeInput(e, blank, cfg), blank, cfg, openOk);
            var owned' := Grown(owned, e.next, e'.next);
            && e.next <= e'.next
            && Sound(e', owned', blank.segment) && Pending(e', owned', true) && ForeignConfig(cfg, owned', e'.next)
            && |e'.log| == |e.log| + 1 && e'.log[|e.log|].command == blank.command
  {
    TakeInputReady(e, blank, cfg, owned);
    DispatchSound(TakeInput(e, blank, cfg), blank, cfg, openOk, owned);
  }

  // What is left of a line holds no command that runs.
  predicate Idle(cs: seq<Command>, n: nat)
    requires n <= |cs|
  {
    forall k :: n <= k < |cs| ==> cs[k].argv == []
  }

  // The state of a line after its first n commands.
  ghost predicate InLine(e: Engine, cs: seq<Command>, n: nat, base: int, cfg: Config, owned: set<nat>)
    requires n <= |cs|
  {
    && Sound(e, owned, base + SegmentsOpened(cs, n)) && (Pending(e, owned, n > 0) || Idle(cs, n))
    && ForeignConfig(cfg, owned, e.next)
    && (n > 0 ==> |e.log| > 0 && Records(e.log[|e.log| - 1], cs, n - 1, cfg))
  }

  predicate Records(r: Outcome, cs: seq<Command>, i: nat, cfg: Config)
    requires i < |cs|
  {
    r.command == cs[i] && r.forced == Forces(cs, i, cfg) && (r.ran ==> cs[i].argv != [])
  }

  // A command without arguments leaves everything but the log alone.
  lemma SkipCollects(e: Engine, r: Outcome)
    requires AllCollect(e.log, e.pipes) && !r.ran
    ensures AllCollect(e.log + [r], e.pipes)
  {
    forall t | t in e.pipes
      ensures Collects(e.log + [r], e.pipes[t], t) && Sender(e.log + [r], t) && Unread(e.log + [r], e.pipes[t])
    {
      SenderSnoc(e.log, r, t);
      PipeSnoc(e.log, r, e.pipes[t]);
    }
  }

  lemma SkipRouted(log: seq<Outcome>, r: Outcome, owned: set<nat>)
    requires AllRouted(log, owned) && !r.ran
    ensures AllRouted(log + [r], owned)
  {
    forall j | 0 <= j < |log + [r]| ensures Routed(log + [r], j) && ReadsOwn((log + [r])[j], owned) {
      if j < |log| { SkipKeepsRouted(log, r, j); }
    }
  }

  lemma SkipPast(log: seq<Outcome>, r: Outcome, pipes: map<int, nat>, next: nat)
    requires Kept(log, pipes, r.segment) && Past(log, next, r.segment) && !r.ran
    ensures Kept(log + [r], pipes, r.segment) && Past(log + [r], next, r.segment)
  {
    assert forall j :: 0 <= j < |log + [r]| ==> (log + [r])[j] == if j < |log| then log[j] else r;
  }

  lemma SkippedSound(e: Engine, r: Outcome, owned: set<nat>)
    requires Sound(e, owned, r.segment) && !r.ran
    ensures Sound(e.(log := e.log + [r]), owned, r.segment)
  {
    SkipCollects(e, r);
    SkipPast(e.log, r, e.pipes, e.next);
    SkipRouted(e.log, r, owned);
  }

  lemma SkipKeepsRouted(log: seq<Outcome>, r: Outcome, j: nat)
    requires j < |log| && Routed(log, j) && !r.ran
    ensures Routed(log + [r], j)
  {
    var q := log[j];
    assert (log + [r])[j] == q && (j > 0 ==> (log + [r])[j - 1] == log[j - 1]);
    SenderSnoc(log, r, q.segment);
    if q.stdin.Some? && q.stdin.value.PipeRead? { PipeSnoc(log, r, q.stdin.value.pipe); }
  }

  // After a command that leaves a pipe comes the command that takes it, or none that runs.
  lemma NothingStrays(cs: seq<Command>, n: nat, forceLast: bool)
    requires 0 < n < |cs| && WellFormed(cs, forceLast) && FeedsNext(cs, n - 1, forceLast) && cs[n].argv == []
    ensures Idle(cs, n)
  {
    if j :| n <= j < |cs| && cs[j].argv != [] {
      var k := FirstBusy(cs, n, j, forceLast);
    }
  }

  lemma {:induction false} FirstBusy(cs: seq<Command>, n: nat, j: nat, forceLast: bool) returns (k: nat)
    requires 0 < n <= j < |cs| && FeedsNext(cs, n - 1, forceLast) && cs[n].argv == [] && cs[j].argv != []
    ensures n < k <= j && Strays(cs, n - 1, k, forceLast)
    decreases j
  {
    if i :| n <= i < j && cs[i].argv != [] {
      k := FirstBusy(cs, n, i, forceLast);
    } else {
      k := j;
    }
  }

  lemma SkipSound(e: Engine, cs: seq<Command>, i: nat, base: int, cfg: Config, openOk: bool, owned: set<nat>)
    requires i < |cs| && WellFormed(cs, cfg.forceLastOutput) && cs[i].argv == []
    requires InLine(e, cs, i, base, cfg, owned)
    ensures InLine(Step(e, cs, i, base, cfg, openOk), cs, i + 1, base, cfg, owned)
  {
    var blank := Blank(cs, i, base, cfg);
    SkippedSound(e, blank, owned);
    if !Idle(cs, i) && Feeds(e.log[|e.log| - 1]) {
      NothingStrays(cs, i, cfg.forceLastOutput);
    }
  }

  lemma BusySound(e: Engine, cs: seq<Command>, i: nat, base: int, cfg: Config, openOk: bool, owned: set<nat>)
    requires i < |cs| && WellFormed(cs, cfg.forceLastOutput) && cs[i].argv != []
    requires InLine(e, cs, i, base, cfg, owned)
    ensures var e' := Step(e, cs, i, base, cfg, openOk);
            e.next <= e'.next && InLine(e', cs, i + 1, base, cfg, Grown(owned, e.next, e'.next))
  {
    hide Sound;
    var blank := Blank(cs, i, base, cfg);
    assert SegmentsOpened(cs, i) == SegmentOf(cs, i) - if blank.starts then 1 else 0;
    assert Addresses(cs, i, cfg.forceLastOutput) ==> cs[i].nextCount >= 1;
    CommandSound(e, blank, cfg, openOk, owned);
  }

  lemma StepSound(e: Engine, cs: seq<Command>, i: nat, base: int, cfg: Config, openOk: bool, owned: set<nat>)
    requires i < |cs| && WellFormed(cs, cfg.forceLastOutput)
    requires InLine(e, cs, i, base, cfg, owned)
    ensures var e' := Step(e, cs, i, base, cfg, openOk);
            e.next <= e'.next && InLine(e', cs, i + 1, base, cfg, Grown(owned, e.next, e'.next))
  {
    hide InLine;
    if cs[i].argv == [] {
      SkipSound(e, cs, i, base, cfg, openOk, owned);
      assert Grown(owned, e.next, e.next) == owned;
    } else {
      BusySound(e, cs, i, base, cfg, openOk, owned);
    }
  }

  lemma GrownTwice(owned: set<nat>, a: nat, b: nat, c: nat)
    requires a <= b <= c
    ensures Grown(Grown(owned, a, b), b, c) == Grown(owned, a, c)
  {
  }

  lemma {:induction false} ExecSound(e: Engine, cs: seq<Command>, n: nat, base: int, cfg: Config,
                                     openOk: seq<bool>, owned: set<nat>)
    requires n <= |cs| == |openOk| && WellFormed(cs, cfg.forceLastOutput)
    requires InLine(e, cs, 0, base, cfg, owned)
    ensures var e' := Exec(e, cs, n, base, cfg, openOk);
            e.next <= e'.next && InLine(e', cs, n, base, cfg, Grown(owned, e.next, e'.next))
  {
    hide InLine;
    if n == 0 {
      assert Grown(owned, e.next, e.next) == owned;
    } else {
      ExecSound(e, cs, n - 1, base, cfg, openOk, owned);
      var m := Exec(e, cs, n - 1, base, cfg, openOk);
      StepSound(m, cs, n - 1, base, cfg, openOk[n - 1], Grown(owned, e.next, m.next));
      GrownTwice(owned, e.next, m.next, Step(m, cs, n - 1, base, cfg, openOk[n - 1]).next);
    }
  }

  // ----- between the lines of a session -----

  ghost predicate SoundShell(s: Shell) {
    Sound(Engine(s.pipes, s.next, None, s.log), s.owned, s.executed)
  }

  // A builtin uses up a segment and drops the pipe addressed to it.
  lemma BuiltinSound(s: Shell)
    requires SoundShell(s)
    ensures SoundShell(RunLine(s, Builtin))
  {
    DropSound(Engine(s.pipes, s.next, None, s.log), s.owned, s.executed + 1);
  }

  lemma RunLineSound(s: Shell, line: Line)
    requires SoundShell(s) && Admissible(s, line)
    ensures SoundShell(RunLine(s, line))
  {
    if line.Builtin? {
      BuiltinSound(s);
    } else {
      assert Sound(Start(s, line), s.owned, s.executed);
      ExecSound(Start(s, line), line.cs, |line.cs|, s.executed, line.cfg, line.openOk, s.owned);
    }
  }

  lemma {:induction false} RunSound(lines: seq<Line>)
    requires AdmissibleRun(FRESH_SHELL, lines)
    ensures forall i :: 0 <= i < |lines| && lines[i].External? ==> |lines[i].openOk| == |lines[i].cs|
    ensures SoundShell(Run(FRESH_SHELL, lines))
  {
    if lines != [] {
      RunSound(lines[..|lines| - 1]);
      RunLineSound(Run(FRESH_SHELL, lines[..|lines| - 1]), lines[|lines| - 1]);
    }
  }

  // The meaning of a whole session. Take any sequence of lines and builtins, however the pipe counter moves
  // between them. Every segment's first command reads one pipe, written by exactly the commands that sent to the
  // segment and read by nobody else, or nothing if there were none. Every later command reads the ordinary pipe of
  // a predecessor that ran unredirected, or nothing. The pipes left are exactly those sent to segments still to come.
  lemma SessionRouted(lines: seq<Line>)
    requires AdmissibleRun(FRESH_SHELL, lines)
    ensures forall i :: 0 <= i < |lines| && lines[i].External? ==> |lines[i].openOk| == |lines[i].cs|
    ensures var s := Run(FRESH_SHELL, lines);
            && (forall i :: 0 <= i < |s.log| ==> Routed(s.log, i))
            && (forall t :: t in s.pipes <==> t > s.executed && Sender(s.log, t))
            && (forall t :: t in s.pipes ==> Collects(s.log, s.pipes[t], t) && Unread(s.log, s.pipes[t]))
  {
    RunSound(lines);
    var s := Run(FRESH_SHELL, lines);
    forall t | t > s.executed && Sender(s.log, t) ensures t in s.pipes {
      assert Kept(s.log, s.pipes, s.executed);
    }
  }

  // ----- segment numbers over a session -----

  // How many segments the lines of a session use: a builtin one, a line of commands as many as it opens.
  function SegmentsUsed(lines: seq<Line>): nat {
    if lines == [] then 0
    else
      var last := lines[|lines| - 1];
      SegmentsUsed(lines[..|lines| - 1]) + if last.Builtin? then 1 else SegmentsOpened(last.cs, |last.cs|)
  }

  predicate Sized(lines: seq<Line>) {
    forall i :: 0 <= i < |lines| && lines[i].External? ==> |lines[i].openOk| == |lines[i].cs|
  }

  lemma {:induction false} SegmentsCounted(s: Shell, lines: seq<Line>)
    requires Sized(lines)
    ensures Run(s, lines).executed == s.executed + SegmentsUsed(lines)
  {
    if lines != [] { SegmentsCounted(s, lines[..|lines| - 1]); }
  }

  // The last command of a line writes to the caller's output if that is forced.
  predicate ToCaller(cs: seq<Command>, i: nat, cfg: Config)
    requires i < |cs|
  {
    i + 1 == |cs| && cfg.forceLastOutput
  }

  // What becomes of command i of a line, whatever happened before. It runs unless it has no arguments or its file cannot be
  // opened; a forced output comes before a file, a file before a pipe; errors go with the output only into a `!N` pipe.
  predicate Fits(r: Outcome, cs: seq<Command>, i: nat, base: int, cfg: Config, openOk: bool)
    requires i < |cs|
  {
    var c, forced := cs[i], ToCaller(cs, i, cfg);
    && r.command == c && r.segment == base + SegmentOf(cs, i) && r.waited == Waits(cs, i)
    && (r.starts <==> i == 0 || cs[i - 1].nextType != OrdinaryPipe)
    && (r.overridden <==> i == 0 && cfg.input.Some?) && (r.forced <==> forced)
    && (r.ran <==> c.argv != [] && (forced || !c.redirectStdout || openOk))
    && (r.ran ==>
         && (r.overridden ==> r.stdin == cfg.input)
         && (forced || (!c.redirectStdout && c.nextType == Nothing) ==> r.stdout == cfg.output)
         && (!forced && c.redirectStdout ==> r.stdout == File(c.redirectFile))
         && (!forced && !c.redirectStdout && c.nextType != Nothing ==> r.stdout.PipeWrite?)
         && r.stderr == if !forced && !c.redirectStdout && c.nextType == NumberPipeBoth then r.stdout else cfg.error)
  }

  // The log has grown by the first n commands of a line, in order, numbered on from base.
  ghost predicate Recorded(before: seq<Outcome>, after: seq<Outcome>, cs: seq<Command>, n: nat, base: int, cfg: Config, openOk: seq<bool>)
    requires n <= |cs| == |openOk|
  {
    && |after| == |before| + n && after[..|before|] == before
    && forall i :: 0 <= i < n ==> Fits(after[|before| + i], cs, i, base, cfg, openOk[i])
  }

  lemma {:induction false} LineRecords(e: Engine, cs: seq<Command>, n: nat, base: int, cfg: Config, openOk: seq<bool>)
    requires n <= |cs| == |openOk|
    ensures Recorded(e.log, Exec(e, cs, n, base, cfg, openOk).log, cs, n, base, cfg, openOk)
  {
    hide Step, Recorded, Fits;
    if n == 0 {
      NothingRecorded(e.log, cs, base, cfg, openOk);
    } else {
      LineRecords(e, cs, n - 1, base, cfg, openOk);
      var m := Exec(e, cs, n - 1, base, cfg, openOk);
      StepRecord(m, cs, n - 1, base, cfg, openOk[n - 1]);
      OneMoreRecorded(e.log, m.log, Step(m, cs, n - 1, base, cfg, openOk[n - 1]).log, cs, n - 1, base, cfg, openOk);
    }
  }

  lemma NothingRecorded(log: seq<Outcome>, cs: seq<Command>, base: int, cfg: Config, openOk: seq<bool>)
    requires |cs| == |openOk|
    ensures Recorded(log, log, cs, 0, base, cfg, openOk)
  {
  }

  lemma OneMoreRecorded(before: seq<Outcome>, middle: seq<Outcome>, after: seq<Outcome>, cs: seq<Command>, n: nat, base: int,
                        cfg: Config, openOk: seq<bool>)
    requires n < |cs| == |openOk| && Recorded(before, middle, cs, n, base, cfg, openOk)
    requires |after| == |middle| + 1 && after[..|middle|] == middle && Fits(after[|middle|], cs, n, base, cfg, openOk[n])
    ensures Recorded(before, after, cs, n + 1, base, cfg, openOk)
  {
    hide Fits;
    forall i | 0 <= i < |before| + n ensures after[i] == middle[i] { assert after[..|middle|][i] == after[i]; }
    assert after[..|before|] == middle[..|before|];
  }

  lemma StepRecord(e: Engine, cs: seq<Command>, i: nat, base: int, cfg: Config, openOk: bool)
    requires i < |cs|
    ensures var log := Step(e, cs, i, base, cfg, openOk).log;
      |log| == |e.log| + 1 && log[..|e.log|] == e.log && Fits(log[|e.log|], cs, i, base, cfg, openOk)
  {
    hide SegmentOf, Waits;
  }

  // Whatever came before, the commands of a line are numbered on from the segments used so far, builtins included, and
  // what becomes of each follows from the line.
  lemma SessionRecords(s: Shell, lines: seq<Line>, k: nat)
    requires Sized(lines) && k < |lines| && lines[k].External?
    ensures var l := lines[k];
      Recorded(Run(s, lines[..k]).log, Run(s, lines[..k + 1]).log, l.cs, |l.cs|, s.executed + SegmentsUsed(lines[..k]), l.cfg, l.openOk)
  {
    hide Exec, Recorded;
    assert lines[..k + 1][..k] == lines[..k];
    SegmentsCounted(s, lines[..k]);
    var m := Run(s, lines[..k]);
    LineRecords(Start(m, lines[k]), lines[k].cs, |lines[k].cs|, m.executed, lines[k].cfg, lines[k].openOk);
  }

  // ----- what a builtin does to a session -----

  // No command of the session has this segment number.
  ghost predicate Skipped(log: seq<Outcome>, t: int) {
    forall j :: 0 <= j < |log| ==> log[j].segment != t
  }

  lemma {:induction false} SegmentSkipped(lines: seq<Line>, k: nat, n: nat)
    requires Sized(lines) && AdmissibleRun(FRESH_SHELL, lines) && k < n <= |lines| && lines[k].Builtin?
    ensures Sized(lines[..n]) && Skipped(Run(FRESH_SHELL, lines[..n]).log, SegmentsUsed(lines[..k]) + 1)
    decreases n
  {
    hide Admissible, RunLine, Sound;
    var t := SegmentsUsed(lines[..k]) + 1;
    assert lines[..n][..n - 1] == lines[..n - 1];
    if n == k + 1 {
      PastSegments(lines, k);
      BuiltinLog(Run(FRESH_SHELL, lines[..k]));
    } else {
      SegmentSkipped(lines, k, n - 1);
      if lines[n - 1].Builtin? {
        BuiltinLog(Run(FRESH_SHELL, lines[..n - 1]));
      } else {
        SessionRecords(FRESH_SHELL, lines, n - 1);
        UsedGrows(lines, k, n - 1);
        NumbersSkip(Run(FRESH_SHELL, lines[..n - 1]).log, Run(FRESH_SHELL, lines[..n]).log, lines[n - 1], SegmentsUsed(lines[..n - 1]), t);
      }
    }
  }

  lemma BuiltinLog(s: Shell)
    ensures RunLine(s, Builtin).log == s.log
  {
  }

  lemma NumbersSkip(before: seq<Outcome>, after: seq<Outcome>, line: Line, base: int, t: int)
    requires Skipped(before, t) && line.External? && |line.openOk| == |line.cs| && t <= base
    requires Recorded(before, after, line.cs, |line.cs|, base, line.cfg, line.openOk)
    ensures Skipped(after, t)
  {
    forall j | 0 <= j < |after| ensures after[j].segment != t {
      if j < |before| {
        assert after[..|before|][j] == after[j];
      } else {
        var i := j - |before|;
        SegmentsMonotone(line.cs, 1, i + 1);
        assert Fits(after[|before| + i], line.cs, i, base, line.cfg, line.openOk[i]) && SegmentsOpened(line.cs, 1) == 1;
      }
    }
  }

  lemma {:induction false} UsedGrows(lines: seq<Line>, k: nat, n: nat)
    requires k < n <= |lines| && lines[k].Builtin?
    ensures SegmentsUsed(lines[..n]) >= SegmentsUsed(lines[..k]) + 1
    decreases n
  {
    assert lines[..n][..n - 1] == lines[..n - 1];
    if n > k + 1 { UsedGrows(lines, k, n - 1); }
  }

  lemma {:induction false} RunPrefix(lines: seq<Line>, k: nat)
    requires AdmissibleRun(FRESH_SHELL, lines) && k <= |lines|
    ensures AdmissibleRun(FRESH_SHELL, lines[..k])
    decreases |lines|
  {
    if k < |lines| {
      RunPrefix(lines[..|lines| - 1], k);
      assert lines[..|lines| - 1][..k] == lines[..k];
    } else {
      assert lines[..k] == lines;
    }
  }

  lemma PastSegments(lines: seq<Line>, k: nat)
    requires Sized(lines) && AdmissibleRun(FRESH_SHELL, lines) && k <= |lines|
    ensures Sized(lines[..k]) && Skipped(Run(FRESH_SHELL, lines[..k]).log, SegmentsUsed(lines[..k]) + 1)
  {
    RunPrefix(lines, k);
    RunSound(lines[..k]);
    SegmentsCounted(FRESH_SHELL, lines[..k]);
  }

  // Reading a pipe that commands sent to a segment wrote means being the first command of that segment.
  lemma ReadersBelong(log: seq<Outcome>, i: nat, j: nat, p: nat, t: int)
    requires i < |log| && j < |log| && Routed(log, j) && SentTo(log[i]) == Some(t) && Writes(log[i], p)
    requires Reads(log[j], p) && !log[j].overridden
    ensures log[j].segment == t
  {
  }

  // Nobody reads what was sent to this segment, unless the caller lends it.
  ghost predicate NobodyReads(log: seq<Outcome>, t: int) {
    forall i, j, p: nat ::
      0 <= i < |log| && 0 <= j < |log| && SentTo(log[i]) == Some(t) && Writes(log[i], p) && Reads(log[j], p) ==> log[j].overridden
  }

  lemma SkippedUnread(log: seq<Outcome>, owned: set<nat>, t: int)
    requires AllRouted(log, owned) && Skipped(log, t)
    ensures NobodyReads(log, t)
  {
    forall i, j, p: nat | 0 <= i < |log| && 0 <= j < |log| && SentTo(log[i]) == Some(t) && Writes(log[i], p) && Reads(log[j], p)
      ensures log[j].overridden
    {
      if !log[j].overridden { ReadersBelong(log, i, j, p, t); }
    }
  }

  lemma BuiltinAlone(lines: seq<Line>, k: nat)
    requires Sized(lines) && k < |lines| && lines[k].Builtin?
    ensures var t, before, after := SegmentsUsed(lines[..k]) + 1, Run(FRESH_SHELL, lines[..k]), Run(FRESH_SHELL, lines[..k + 1]);
      after.executed == t && after.pipes == before.pipes - {t} && after.log == before.log
  {
    assert lines[..k + 1][..k] == lines[..k];
    SegmentsCounted(FRESH_SHELL, lines[..k]);
  }

  // A builtin stands for a segment: no command ever gets its number, the pipe sent to it leaves the map for good, and
  // nobody reads what was written into it, in any continuation of the session.
  lemma BuiltinDropsItsPipe(lines: seq<Line>, k: nat)
    requires AdmissibleRun(FRESH_SHELL, lines) && k < |lines| && lines[k].Builtin?
    ensures Sized(lines)
    ensures var t, s := SegmentsUsed(lines[..k]) + 1, Run(FRESH_SHELL, lines);
      Skipped(s.log, t) && t !in s.pipes && NobodyReads(s.log, t)
    ensures var t, before, after := SegmentsUsed(lines[..k]) + 1, Run(FRESH_SHELL, lines[..k]), Run(FRESH_SHELL, lines[..k + 1]);
      after.executed == t && after.pipes == before.pipes - {t} && after.log == before.log
  {
    hide Skipped, NobodyReads, AllRouted, AllCollect, Kept, Past, Run, AdmissibleRun;
    RunSound(lines);
    BuiltinAlone(lines, k);
    var t, s := SegmentsUsed(lines[..k]) + 1, Run(FRESH_SHELL, lines);
    assert lines[..|lines|] == lines;
    SegmentSkipped(lines, k, |lines|);
    SegmentsCounted(FRESH_SHELL, lines);
    UsedGrows(lines, k, |lines|);
    SkippedUnread(s.log, s.owned, t);
  }
}
