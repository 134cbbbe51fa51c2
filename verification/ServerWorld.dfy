/** The single-process server without descriptor numbers: registry, user pipes and one shell per client. */
module ServerWorld {
  import opened Commands
  import opened Routing
  import opened Registry
  import opened RegistryRuns

  // serials says which pipe stands behind each user pipe; sockets what each client is connected to.
  datatype World = World(
    registry: Single, serials: map<(int, int), nat>, sockets: map<int, Endpoint>, shells: map<int, Shell>, made: nat)

  // What reaches the server: connections, ends of input or `exit`, the builtins of the server and lines of commands.
  // Who stands for every builtin that only uses up its segment: who itself, and name and tell without arguments.
  datatype Input =
    | Connect(ip: string, port: int, peer: nat)
    | Hangup(id: int)
    | Who(id: int)
    | Rename(id: int, newName: string)
    | TellUser(id: int, target: int, text: string)
    | YellAll(id: int, text: string)
    | Execute(id: int, cs: seq<Command>, from: int, to: int, line: string, openOk: seq<bool>)

  predicate ValidInput(i: Input) {
    i.Execute? ==> i.cs != [] && |i.openOk| == |i.cs|
  }

  function Birth(made: nat): World {
    World(NOBODY, map[], map[], map[], made)
  }

  predicate IsShellBuiltin(cs: seq<Command>) {
    |cs| == 1 && cs[0].argv != [] && (cs[0].argv[0] == "setenv" || cs[0].argv[0] == "printenv")
  }

  // What `<N` gives the first command: the pipe, /dev/null, or nothing if it was not written.
  function TakeFrom(w: World, id: int, from: int, line: string): (World, Option<Endpoint>, seq<Delivery>)
    requires id in w.registry.clients
  {
    if from < 0 then (w, None, [])
    else
      var (registry', reply) := SingleReceive(w.registry, id, from, line);
      if reply.accepted && (from, id) in w.serials
      then (w.(registry := registry', serials := w.serials - {(from, id)}), Some(PipeRead(w.serials[(from, id)])), reply.deliveries)
      else (w, Some(DevNull), reply.deliveries)
  }

  // What `>N` gives the last command.
  function SendInto(w: World, id: int, to: int, line: string): (World, Option<Endpoint>, seq<Delivery>)
    requires id in w.registry.clients
  {
    if to < 0 then (w, None, [])
    else
      var (registry', reply) := SingleSend(w.registry, id, to, line);
      if reply.accepted
      then (w.(registry := registry', serials := w.serials[(id, to) := w.made], made := w.made + 1), Some(PipeWrite(w.made)), reply.deliveries)
      else (w, Some(DevNull), reply.deliveries)
  }

  function ConfigFor(socket: Endpoint, input: Option<Endpoint>, output: Option<Endpoint>): Config {
    Config(input, output.GetOr(socket), socket, output.Some?)
  }

  function RunCommands(w: World, id: int, cs: seq<Command>, cfg: Config, openOk: seq<bool>): World
    requires id in w.shells && |openOk| == |cs|
  {
    var shell := RunLine(w.shells[id], External(cs, cfg, openOk, w.made));
    w.(shells := w.shells[id := shell], made := shell.next)
  }

  function UseSegment(w: World, id: int): World
    requires id in w.shells
  {
    w.(shells := w.shells[id := RunLine(w.shells[id], Builtin)])
  }

  predicate Present(w: World, id: int) {
    id in w.registry.clients && id in w.sockets && id in w.shells
  }

  // Both user pipes of a line, the input first.
  function Lend(w: World, id: int, from: int, to: int, line: string): (World, Option<Endpoint>, Option<Endpoint>, seq<Delivery>)
    requires id in w.registry.clients
  {
    var (w1, input, said1) := TakeFrom(w, id, from, line);
    var (w2, output, said2) := SendInto(w1, id, to, line);
    (w2, input, output, said1 + said2)
  }

  function Tie(w: World, id: int, i: Input): (World, seq<Delivery>)
    requires i.Execute? && ValidInput(i) && Present(w, id)
  {
    var (w', input, output, said) := Lend(w, id, i.from, i.to, i.line);
    (RunCommands(w', id, i.cs, ConfigFor(w.sockets[id], input, output), i.openOk), said)
  }

  // The pipes that are neither from nor to a user.
  function KeysWithout(keys: set<(int, int)>, id: int): set<(int, int)> {
    set p | p in keys && p.0 != id && p.1 != id
  }

  function SerialsWithout(serials: map<(int, int), nat>, id: int): map<(int, int), nat> {
    map p | p in serials && p.0 != id && p.1 != id :: serials[p]
  }

  // Input from somebody who is not there is never read, and an empty line does nothing.
  function Step(w: World, i: Input): (World, seq<Delivery>) {
    match i
    case Connect(ip, port, peer) =>
      var (registry', reply) := SingleStep(w.registry, Login(ip, port));
      if reply.id.Some? then
        var id := reply.id.value;
        (w.(registry := registry', sockets := w.sockets[id := Socket(peer)], shells := w.shells[id := FRESH_SHELL]), reply.deliveries)
      else (w, [])
    case Hangup(id) =>
      if !Present(w, id) then (w, [])
      else
        var (registry', reply) := SingleStep(w.registry, Logout(id));
        (World(registry', SerialsWithout(w.serials, id), w.sockets - {id}, w.shells - {id}, w.made),
         reply.deliveries)
    case Who(id) => if !Present(w, id) then (w, []) else (UseSegment(w, id), [])
    case Rename(id, newName) =>
      if !Present(w, id) then (w, [])
      else
        var (registry', reply) := SingleStep(w.registry, Name(id, newName));
        (UseSegment(w.(registry := registry'), id), reply.deliveries)
    case TellUser(id, target, text) =>
      if !Present(w, id) then (w, []) else (UseSegment(w, id), SingleStep(w.registry, Tell(id, target, text)).1.deliveries)
    case YellAll(id, text) =>
      if !Present(w, id) then (w, []) else (UseSegment(w, id), SingleStep(w.registry, Yell(id, text)).1.deliveries)
    case Execute(id, cs, _, _, _, _) =>
      if !Present(w, id) || !ValidInput(i) then (w, [])
      else if IsShellBuiltin(cs) then (UseSegment(w, id), [])
      else Tie(w, id, i)
  }

  // A `<N` that fails is answered with /dev/null, which the first command with arguments closes; it is then closed
  // again. A `<N` that succeeds is closed by nobody unless the first command has arguments.
  predicate Tidy(w: World, i: Input) {
    i.Execute? && Present(w, i.id) && ValidInput(i) && !IsShellBuiltin(i.cs) && i.from >= 0
    ==> (SingleReceive(w.registry, i.id, i.from, i.line).1.accepted <==> i.cs[0].argv != [])
  }

  // "cat <5" from the only client, with nobody at number 5, is no tidy line.
  lemma FailedReceiveUntidy(made: nat)
    ensures var cat := Command(["cat"], Nothing, 0, false, "");
      !Tidy(After(made, [Connect("", 0, 0)]), Execute(1, [cat], 5, -1, "cat <5", [true]))
  {
    var inputs := [Connect("", 0, 0)];
    assert inputs[..0] == [] && LeastUnused({}, 1) == Some(1);
    assert After(made, inputs) == Step(Birth(made), inputs[0]).0;
  }

  function After(made: nat, inputs: seq<Input>): World {
    if inputs == [] then Birth(made) else Step(After(made, inputs[..|inputs| - 1]), inputs[|inputs| - 1]).0
  }

  function Heard(made: nat, inputs: seq<Input>): seq<Delivery> {
    if inputs == [] then []
    else Heard(made, inputs[..|inputs| - 1]) + Step(After(made, inputs[..|inputs| - 1]), inputs[|inputs| - 1]).1
  }

  // The commands a line starts. If pipes are kept apart they must hold no end of a pipe between users, and none of a pipe
  // of their own shell, but as standard descriptors.
  function LineRuns(w: World, id: int, cs: seq<Command>, cfg: Config, openOk: seq<bool>, apart: bool): seq<Beginning>
    requires id in w.shells && |openOk| == |cs|
  {
    var before, after := w.shells[id], RunCommands(w, id, cs, cfg, openOk).shells[id];
    if |before.log| <= |after.log|
    then Begun(Runs(after.log[|before.log|..]), if apart then w.serials.Values + after.owned else {})
    else []
  }

  // Every run keeps its pipes apart, as RunKeeps says.
  ghost function RunsAt(w: World, i: Input): seq<Beginning> {
    if !i.Execute? || !Present(w, i.id) || !ValidInput(i) || IsShellBuiltin(i.cs) then []
    else
      var (w', input, output, _) := Lend(w, i.id, i.from, i.to, i.line);
      LineRuns(w', i.id, i.cs, ConfigFor(w.sockets[i.id], input, output), i.openOk, Sane(w) && Apart(w))
  }

  // The commands a whole run starts.
  ghost function Started(made: nat, inputs: seq<Input>): seq<Beginning> {
    if inputs == [] then []
    else Started(made, inputs[..|inputs| - 1]) + RunsAt(After(made, inputs[..|inputs| - 1]), inputs[|inputs| - 1])
  }

  // ----- what every run keeps -----

  ghost predicate Sane(w: World) {
    && PipesLinkClients(w.registry)
    && w.serials.Keys == w.registry.pipes
    && w.sockets.Keys == w.shells.Keys == w.registry.clients.Keys
    && (forall id :: id in w.sockets ==> w.sockets[id].Socket?)
    && (forall id :: id in w.shells ==> w.shells[id].next <= w.made)
  }

  // Every pipe serves one purpose: it is between two users, or one shell's own, numbered or not.
  ghost predicate Apart(w: World) {
    && (forall id, p :: id in w.shells && p in w.shells[id].owned ==> p < w.made)
    && (forall id, t :: id in w.shells && t in w.shells[id].pipes ==> w.shells[id].pipes[t] in w.shells[id].owned)
    && (forall i, j :: i in w.shells && j in w.shells && i != j ==> w.shells[i].owned !! w.shells[j].owned)
    && (forall p :: p in w.serials ==> w.serials[p] < w.made)
    && (forall p, id :: p in w.serials && id in w.shells ==> w.serials[p] !in w.shells[id].owned)
    && (forall p, q :: p in w.serials && q in w.serials && p != q ==> w.serials[p] != w.serials[q])
  }

  lemma RunCommandsKeeps(w: World, id: int, cs: seq<Command>, cfg: Config, openOk: seq<bool>)
    requires Sane(w) && id in w.shells && |openOk| == |cs|
    ensures w.made <= RunCommands(w, id, cs, cfg, openOk).made && Sane(RunCommands(w, id, cs, cfg, openOk))
  {
    ExecCounts(Start(w.shells[id], External(cs, cfg, openOk, w.made)), cs, |cs|, w.shells[id].executed, cfg, openOk);
  }

  lemma {:induction false} ExecCounts(e: Engine, cs: seq<Command>, n: nat, base: int, cfg: Config, openOk: seq<bool>)
    requires n <= |cs| == |openOk|
    ensures e.next <= Exec(e, cs, n, base, cfg, openOk).next
  {
    if n > 0 { ExecCounts(e, cs, n - 1, base, cfg, openOk); }
  }

  lemma TakeKeeps(w: World, id: int, from: int, line: string)
    requires Sane(w) && Apart(w) && id in w.registry.clients
    ensures var (w', input, _) := TakeFrom(w, id, from, line);
      && Sane(w') && Apart(w')
      && w'.shells == w.shells && w'.sockets == w.sockets && w'.made == w.made && w'.registry.clients == w.registry.clients
      && (input.Some? ==> Foreign(input.value, w'.shells[id].owned, w'.made))
      && (input.Some? && IsPipe(input.value) ==> input.value.pipe !in w'.serials.Values)
  {
  }

  lemma SendKeeps(w: World, id: int, to: int, line: string)
    requires Sane(w) && Apart(w) && id in w.registry.clients
    ensures var (w', output, _) := SendInto(w, id, to, line);
      && Sane(w') && Apart(w')
      && w'.shells == w.shells && w'.sockets == w.sockets && w.made <= w'.made && w'.registry.clients == w.registry.clients
      && (output.Some? ==> Foreign(output.value, w'.shells[id].owned, w'.made))
  {
    hide Apart, Sane;
    SendSane(w, id, to, line);
    SendApart(w, id, to, line);
  }

  lemma SendApart(w: World, id: int, to: int, line: string)
    requires Apart(w) && id in w.registry.clients && id in w.shells
    ensures var (w', output, _) := SendInto(w, id, to, line);
      Apart(w') && (output.Some? ==> Foreign(output.value, w'.shells[id].owned, w'.made))
  {
    assert forall i :: i in w.shells ==> w.made !in w.shells[i].owned;
  }

  lemma SendSane(w: World, id: int, to: int, line: string)
    requires Sane(w) && id in w.registry.clients
    ensures Sane(SendInto(w, id, to, line).0) && id in w.shells
  {
  }

  // The pipes a line puts into the map are new.
  lemma {:induction false} ExecPipes(e: Engine, cs: seq<Command>, n: nat, base: int, cfg: Config, openOk: seq<bool>, owned: set<nat>)
    requires n <= |cs| == |openOk| && forall t :: t in e.pipes ==> e.pipes[t] in owned
    ensures var e' := Exec(e, cs, n, base, cfg, openOk);
      e.next <= e'.next && forall t :: t in e'.pipes ==> e'.pipes[t] in owned || e.next <= e'.pipes[t] < e'.next
  {
    hide Routing.Step;
    if n > 0 {
      ExecPipes(e, cs, n - 1, base, cfg, openOk, owned);
      StepPipes(Exec(e, cs, n - 1, base, cfg, openOk), cs, n - 1, base, cfg, openOk[n - 1]);
    }
  }

  lemma StepPipes(e: Engine, cs: seq<Command>, i: nat, base: int, cfg: Config, openOk: bool)
    requires i < |cs|
    ensures var e' := Routing.Step(e, cs, i, base, cfg, openOk);
      e.next <= e'.next && forall t :: t in e'.pipes ==> (t in e.pipes && e'.pipes[t] == e.pipes[t]) || e.next <= e'.pipes[t] < e'.next
  {
  }

  lemma RunApart(w: World, id: int, cs: seq<Command>, cfg: Config, openOk: seq<bool>)
    requires Sane(w) && Apart(w) && id in w.shells && |openOk| == |cs|
    ensures Apart(RunCommands(w, id, cs, cfg, openOk))
  {
    hide Exec, PipesLinkClients;
    var w' := RunCommands(w, id, cs, cfg, openOk);
    ExecPipes(Start(w.shells[id], External(cs, cfg, openOk, w.made)), cs, |cs|, w.shells[id].executed, cfg, openOk, w.shells[id].owned);
    assert w'.shells[id].owned == Grown(w.shells[id].owned, w.made, w'.made);
  }

  // Both user pipes of a line, once taken and made, are foreign to the shell that runs it.
  lemma LendKeeps(w: World, id: int, from: int, to: int, line: string)
    requires Sane(w) && Apart(w) && Present(w, id)
    ensures var (w', input, output, _) := Lend(w, id, from, to, line);
      && Sane(w') && Apart(w') && w'.shells == w.shells
      && ForeignConfig(ConfigFor(w.sockets[id], input, output), w'.shells[id].owned, w'.made)
      && (input.Some? && IsPipe(input.value) ==> input.value.pipe !in w'.serials.Values)
  {
    var (w1, input, _) := TakeFrom(w, id, from, line);
    TakeKeeps(w, id, from, line);
    SendKeeps(w1, id, to, line);
  }

  lemma TieKeeps(w: World, id: int, i: Input)
    requires Sane(w) && Apart(w) && i.Execute? && ValidInput(i) && Present(w, id)
    ensures Sane(Tie(w, id, i).0) && Apart(Tie(w, id, i).0)
    ensures SoundShell(w.shells[id]) && WellFormed(i.cs, i.to >= 0) ==> SoundShell(Tie(w, id, i).0.shells[id])
  {
    hide Sane, Apart;
    var (w', input, output, _) := Lend(w, id, i.from, i.to, i.line);
    LendKeeps(w, id, i.from, i.to, i.line);
    var cfg := ConfigFor(w.sockets[id], input, output);
    RunCommandsKeeps(w', id, i.cs, cfg, i.openOk);
    RunApart(w', id, i.cs, cfg, i.openOk);
    if SoundShell(w.shells[id]) && WellFormed(i.cs, i.to >= 0) {
      RunLineSound(w'.shells[id], External(i.cs, cfg, i.openOk, w'.made));
    }
  }

  lemma SegmentKeeps(w: World, id: int)
    requires Sane(w) && Apart(w) && id in w.shells
    ensures Sane(UseSegment(w, id)) && Apart(UseSegment(w, id))
    ensures SoundShell(w.shells[id]) ==> SoundShell(UseSegment(w, id).shells[id])
  {
    if SoundShell(w.shells[id]) { BuiltinSound(w.shells[id]); }
  }

  lemma ConnectKeeps(w: World, i: Input)
    requires Sane(w) && Apart(w) && i.Connect?
    ensures Sane(Step(w, i).0) && Apart(Step(w, i).0)
  {
    StepKeepsLinks(w.registry, Login(i.ip, i.port));
  }

  lemma HangupKeeps(w: World, i: Input)
    requires Sane(w) && Apart(w) && i.Hangup?
    ensures Sane(Step(w, i).0) && Apart(Step(w, i).0)
  {
    StepKeepsLinks(w.registry, Logout(i.id));
  }

  lemma StepKeeps(w: World, i: Input)
    requires Sane(w) && Apart(w)
    ensures Sane(Step(w, i).0) && Apart(Step(w, i).0)
  {
    hide Accept;
    match i
    case Connect(_, _, _) => ConnectKeeps(w, i);
    case Hangup(_) => HangupKeeps(w, i);
    case Execute(id, cs, _, _, _, _) =>
      if Present(w, id) && ValidInput(i) {
        if IsShellBuiltin(cs) { SegmentKeeps(w, id); } else { TieKeeps(w, id, i); }
      }
    case Rename(id, newName) =>
      if Present(w, id) {
        StepKeepsLinks(w.registry, Name(id, newName));
        SegmentKeeps(w.(registry := SingleStep(w.registry, Name(id, newName)).0), id);
      }
    case _ => if Present(w, i.id) { SegmentKeeps(w, i.id); }
  }

  // In every run clients, sockets, shells and pipes stay in step, and no pipe serves two purposes.
  lemma {:induction false} RunKeeps(made: nat, inputs: seq<Input>)
    ensures Sane(After(made, inputs)) && Apart(After(made, inputs))
  {
    if inputs != [] {
      var n := |inputs| - 1;
      RunKeeps(made, inputs[..n]);
      StepKeeps(After(made, inputs[..n]), inputs[n]);
    }
  }

  // The log of a shell only grows.
  lemma {:induction false} LogKept(e: Engine, cs: seq<Command>, n: nat, base: int, cfg: Config, openOk: seq<bool>)
    requires n <= |cs| == |openOk|
    ensures e.log <= Exec(e, cs, n, base, cfg, openOk).log
  {
    if n > 0 { LogKept(e, cs, n - 1, base, cfg, openOk); }
  }

  // These are the commands a client's shell notes as run from one moment to another, and each of them is barred from
  // every pipe between users at the end, and from every numbered pipe of the shell before and after.
  ghost predicate Noted(w: World, w': World, id: int, starts: seq<Beginning>) {
    && id in w.shells && id in w'.shells && w.shells[id].log <= w'.shells[id].log
    && var noted := Runs(w'.shells[id].log[|w.shells[id].log|..]);
       |starts| == |noted| && forall n :: 0 <= n < |starts| ==>
         && starts[n].outcome == noted[n] && w'.serials.Values <= starts[n].barred
         && (forall t :: t in w.shells[id].pipes ==> w.shells[id].pipes[t] in starts[n].barred)
         && (forall t :: t in w'.shells[id].pipes ==> w'.shells[id].pipes[t] in starts[n].barred)
  }

  // What an input starts, its client's shell notes.
  lemma StartsAreNoted(w: World, i: Input)
    requires Sane(w) && Apart(w)
    ensures if i.Execute? && i.id in w.shells then Noted(w, Step(w, i).0, i.id, RunsAt(w, i)) else RunsAt(w, i) == []
  {
    hide Apart, Exec, PipesLinkClients;
    StepKeeps(w, i);
    if i.Execute? && Present(w, i.id) && ValidInput(i) && !IsShellBuiltin(i.cs) {
      TieNotes(w, i);
    }
  }

  lemma OwnPipes(w: World, id: int)
    requires Apart(w) && id in w.shells
    ensures forall t :: t in w.shells[id].pipes ==> w.shells[id].pipes[t] in w.shells[id].owned
  {
  }

  lemma TieNotes(w: World, i: Input)
    requires Sane(w) && Apart(w) && i.Execute? && Present(w, i.id) && ValidInput(i) && !IsShellBuiltin(i.cs)
    requires Apart(Step(w, i).0)
    ensures Noted(w, Step(w, i).0, i.id, RunsAt(w, i))
  {
    hide Exec, PipesLinkClients, Apart;
    var (lent, input, output, _) := Lend(w, i.id, i.from, i.to, i.line);
    LendKeeps(w, i.id, i.from, i.to, i.line);
    var cfg := ConfigFor(w.sockets[i.id], input, output);
    LogKept(Start(lent.shells[i.id], External(i.cs, cfg, i.openOk, lent.made)), i.cs, |i.cs|, lent.shells[i.id].executed, cfg, i.openOk);
    OwnPipes(w, i.id);
    OwnPipes(Step(w, i).0, i.id);
  }

  // What this input makes the shell of the client run, if anything, is well formed.
  predicate WritesWell(i: Input, id: int) {
    i.Execute? && i.id == id && ValidInput(i) && !IsShellBuiltin(i.cs) ==> WellFormed(i.cs, i.to >= 0)
  }

  // Since it came, the client has written well-formed lines only.
  predicate Behaves(made: nat, inputs: seq<Input>, id: int) {
    inputs == [] || id !in After(made, inputs[..|inputs| - 1]).shells
    || (Behaves(made, inputs[..|inputs| - 1], id) && WritesWell(inputs[|inputs| - 1], id))
  }

  lemma StepSoundFor(w: World, i: Input, id: int)
    requires Sane(w) && Apart(w) && WritesWell(i, id)
    requires id in w.shells ==> SoundShell(w.shells[id])
    ensures id in Step(w, i).0.shells ==> SoundShell(Step(w, i).0.shells[id])
  {
    if i.Connect? || i.Hangup? {
      assert SoundShell(FRESH_SHELL);
    } else if Present(w, i.id) && ValidInput(i) {
      StepShell(w, i, id);
      if i.id == id {
        if i.Execute? && !IsShellBuiltin(i.cs) { TieKeeps(w, id, i); } else { SegmentKeeps(w, id); }
      }
    }
  }

  // Only the shell of the client whose input it is changes.
  lemma StepShell(w: World, i: Input, id: int)
    requires Sane(w) && !i.Connect? && !i.Hangup? && Present(w, i.id) && ValidInput(i)
    ensures i.id != id && id in Step(w, i).0.shells ==> id in w.shells && Step(w, i).0.shells[id] == w.shells[id]
    ensures i.Execute? && !IsShellBuiltin(i.cs) ==> Step(w, i).0.shells == Tie(w, i.id, i).0.shells
    ensures !(i.Execute? && !IsShellBuiltin(i.cs)) ==> Step(w, i).0.shells == UseSegment(w, i.id).shells
  {
  }

  lemma {:induction false} SoundFor(made: nat, inputs: seq<Input>, id: int)
    requires Behaves(made, inputs, id)
    ensures id in After(made, inputs).shells ==> SoundShell(After(made, inputs).shells[id])
  {
    if inputs != [] {
      var past, i := inputs[..|inputs| - 1], inputs[|inputs| - 1];
      RunKeeps(made, past);
      if id in After(made, past).shells {
        SoundFor(made, past, id);
        StepSoundFor(After(made, past), i, id);
      } else {
        NewcomerSound(After(made, past), i, id);
      }
    }
  }

  lemma NewcomerSound(w: World, i: Input, id: int)
    requires Sane(w) && Apart(w) && id !in w.shells
    ensures id in Step(w, i).0.shells ==> SoundShell(Step(w, i).0.shells[id])
  {
    hide PipesLinkClients, Blank, Apart, Sane;
    assert SoundShell(FRESH_SHELL);
  }

  // Whatever the other clients write and whatever pipes they hand each other, the commands of a client whose own lines
  // are well formed are routed as promised.
  lemma EveryClientRouted(made: nat, inputs: seq<Input>, id: int)
    requires Behaves(made, inputs, id) && id in After(made, inputs).shells
    ensures var s := After(made, inputs).shells[id];
      && (forall i :: 0 <= i < |s.log| ==> Routed(s.log, i))
      && (forall t :: t in s.pipes <==> t > s.executed && Sender(s.log, t))
      && (forall t :: t in s.pipes ==> Collects(s.log, s.pipes[t], t) && Unread(s.log, s.pipes[t]))
  {
    SoundFor(made, inputs, id);
    var s := After(made, inputs).shells[id];
    assert SoundShell(s);
    forall t | t > s.executed && Sender(s.log, t) ensures t in s.pipes {
      assert Kept(s.log, s.pipes, s.executed);
    }
  }

  lemma StepKeepsUnique(w: World, i: Input)
    requires UniqueNames(w.registry) && (i.Rename? ==> Token(i.newName))
    ensures UniqueNames(Step(w, i).0.registry)
  {
    hide Blank, Dispatch;
    match i
    case Connect(ip, port, _) => StepKeepsNames(w.registry, Login(ip, port));
    case Hangup(id) => StepKeepsNames(w.registry, Logout(id));
    case Rename(id, newName) => StepKeepsNames(w.registry, Name(id, newName));
    case _ =>
  }

  // In every run two clients share a name only if neither has chosen one.
  lemma {:induction false} NamesStayUnique(made: nat, inputs: seq<Input>)
    requires forall k :: 0 <= k < |inputs| && inputs[k].Rename? ==> Token(inputs[k].newName)
    ensures UniqueNames(After(made, inputs).registry)
  {
    if inputs != [] {
      var n := |inputs| - 1;
      NamesStayUnique(made, inputs[..n]);
      StepKeepsUnique(After(made, inputs[..n]), inputs[n]);
    }
  }

  // ----- the registry of a run -----

  // The registry events of one input, in order.
  function EventsAt(w: World, i: Input): seq<Event> {
    match i
    case Connect(ip, port, _) => [Login(ip, port)]
    case Hangup(id) => if Present(w, id) then [Logout(id)] else []
    case Who(_) => []
    case Rename(id, newName) => if Present(w, id) then [Name(id, newName)] else []
    case TellUser(id, target, text) => if Present(w, id) then [Tell(id, target, text)] else []
    case YellAll(id, text) => if Present(w, id) then [Yell(id, text)] else []
    case Execute(id, cs, _, _, _, _) =>
      if !Present(w, id) || !ValidInput(i) || IsShellBuiltin(cs) then []
      else TakeEvents(i) + SendEvents(i)
  }

  function Trace(made: nat, inputs: seq<Input>): seq<Event> {
    if inputs == [] then []
    else Trace(made, inputs[..|inputs| - 1]) + EventsAt(After(made, inputs[..|inputs| - 1]), inputs[|inputs| - 1])
  }

  lemma OneMoreEvent(events: seq<Event>, e: Event)
    ensures SingleAfter(events + [e]) == SingleNext(SingleAfter(events), e).0
  {
    assert (events + [e])[..|events|] == events;
  }

  function TakeEvents(i: Input): seq<Event>
    requires i.Execute?
  {
    if i.from >= 0 then [Receive(i.id, i.from, i.line)] else []
  }

  function SendEvents(i: Input): seq<Event>
    requires i.Execute?
  {
    if i.to >= 0 then [Send(i.id, i.to, i.line)] else []
  }

  lemma TakenEvents(w: World, i: Input, events: seq<Event>)
    requires Sane(w) && SingleAfter(events) == w.registry && i.Execute? && i.id in w.registry.clients
    ensures SingleAfter(events + TakeEvents(i)) == TakeFrom(w, i.id, i.from, i.line).0.registry
  {
    if i.from >= 0 { OneMoreEvent(events, Receive(i.id, i.from, i.line)); } else { assert events + [] == events; }
  }

  lemma SentEvents(w: World, i: Input, events: seq<Event>)
    requires SingleAfter(events) == w.registry && i.Execute? && i.id in w.registry.clients
    ensures SingleAfter(events + SendEvents(i)) == SendInto(w, i.id, i.to, i.line).0.registry
  {
    if i.to >= 0 { OneMoreEvent(events, Send(i.id, i.to, i.line)); } else { assert events + [] == events; }
  }

  lemma TiedEvents(w: World, i: Input, events: seq<Event>)
    requires Sane(w) && Apart(w) && SingleAfter(events) == w.registry
    requires i.Execute? && ValidInput(i) && Present(w, i.id)
    ensures SingleAfter(events + (TakeEvents(i) + SendEvents(i))) == Tie(w, i.id, i).0.registry
  {
    var (w1, _, _) := TakeFrom(w, i.id, i.from, i.line);
    TakeKeeps(w, i.id, i.from, i.line);
    TakenEvents(w, i, events);
    SentEvents(w1, i, events + TakeEvents(i));
    assert events + (TakeEvents(i) + SendEvents(i)) == events + TakeEvents(i) + SendEvents(i);
  }

  lemma StepEvents(w: World, i: Input, events: seq<Event>)
    requires Sane(w) && Apart(w) && SingleAfter(events) == w.registry
    ensures SingleAfter(events + EventsAt(w, i)) == Step(w, i).0.registry
  {
    if i.Execute? && Present(w, i.id) && ValidInput(i) && !IsShellBuiltin(i.cs) {
      TiedEvents(w, i, events);
    } else if |EventsAt(w, i)| == 1 {
      assert EventsAt(w, i) == [EventsAt(w, i)[0]];
      OneMoreEvent(events, EventsAt(w, i)[0]);
    } else {
      assert events + EventsAt(w, i) == events;
    }
  }

  // The registry of a run of the server is that of its events: what RegistryRuns says of every sequence of events, such
  // as which send each receive consumes, holds of every run.
  lemma {:induction false} RegistryIsTraced(made: nat, inputs: seq<Input>)
    ensures After(made, inputs).registry == SingleAfter(Trace(made, inputs))
  {
    if inputs != [] {
      var n := |inputs| - 1;
      RegistryIsTraced(made, inputs[..n]);
      RunKeeps(made, inputs[..n]);
      StepEvents(After(made, inputs[..n]), inputs[n], Trace(made, inputs[..n]));
    }
  }

  // ----- a user pipe from end to end -----

  // The line of a sends to b and is accepted.
  predicate SendsTo(w: World, i: Input, a: int, b: int) {
    && i.Execute? && ValidInput(i) && i.id == a && i.to == b && Present(w, a) && !IsShellBuiltin(i.cs) && b >= 0
    && SingleSend(TakeFrom(w, a, i.from, i.line).0.registry, a, b, i.line).1.accepted
  }

  predicate ReceivesFrom(w: World, i: Input, a: int, b: int) {
    && i.Execute? && ValidInput(i) && i.id == b && i.from == a && Present(w, b) && !IsShellBuiltin(i.cs) && a >= 0
    && SingleReceive(w.registry, b, a, i.line).1.accepted
  }

  // The input neither receives the pipe from a to b nor ends a login of either.
  predicate LetsPipeBe(i: Input, a: int, b: int) {
    && (i.Hangup? ==> i.id != a && i.id != b)
    && (i.Execute? ==> i.id != b || i.from != a)
  }

  lemma {:induction false} LogGrows(e: Engine, cs: seq<Command>, n: nat, base: int, cfg: Config, openOk: seq<bool>)
    requires n <= |cs| == |openOk|
    ensures |Exec(e, cs, n, base, cfg, openOk).log| == |e.log| + n
  {
    if n > 0 { LogGrows(e, cs, n - 1, base, cfg, openOk); }
  }

  lemma {:induction false} FirstReads(e: Engine, cs: seq<Command>, n: nat, base: int, cfg: Config, openOk: seq<bool>)
    requires 1 <= n <= |cs| == |openOk| && cfg.input.Some?
    ensures |Exec(e, cs, n, base, cfg, openOk).log| == |e.log| + n
    ensures var r := Exec(e, cs, n, base, cfg, openOk).log[|e.log|]; r.command == cs[0] && (r.ran ==> r.stdin == cfg.input)
  {
    if n == 1 {
      assert Exec(e, cs, 0, base, cfg, openOk) == e;
    } else {
      FirstReads(e, cs, n - 1, base, cfg, openOk);
      var m := Exec(e, cs, n - 1, base, cfg, openOk);
      assert Routing.Step(m, cs, n - 1, base, cfg, openOk[n - 1]).log[|e.log|] == m.log[|e.log|];
    }
  }

  lemma LastWrites(e: Engine, cs: seq<Command>, base: int, cfg: Config, openOk: seq<bool>)
    requires cs != [] && |cs| == |openOk| && cfg.forceLastOutput && cs[|cs| - 1].argv != []
    ensures var log := Exec(e, cs, |cs|, base, cfg, openOk).log;
      && |log| == |e.log| + |cs|
      && var r := log[|log| - 1]; r.command == cs[|cs| - 1] && r.ran && r.stdout == cfg.output
  {
    LogGrows(e, cs, |cs|, base, cfg, openOk);
    LogGrows(e, cs, |cs| - 1, base, cfg, openOk);
  }

  lemma TieStays(w: World, i: Input, a: int, b: int)
    requires i.Execute? && ValidInput(i) && Present(w, i.id) && (i.id != b || i.from != a) && w.serials.Keys == w.registry.pipes
    requires (a, b) in w.serials
    ensures var w' := Tie(w, i.id, i).0; (a, b) in w'.serials && w'.serials[(a, b)] == w.serials[(a, b)]
  {
    hide RunLine;
  }

  lemma StaysOpen(w: World, i: Input, a: int, b: int)
    requires Sane(w) && (a, b) in w.serials && LetsPipeBe(i, a, b)
    ensures (a, b) in Step(w, i).0.serials && Step(w, i).0.serials[(a, b)] == w.serials[(a, b)]
  {
    hide Tie, RunLine, PipesLinkClients;
    if i.Execute? && Present(w, i.id) && ValidInput(i) {
      TieStays(w, i, a, b);
    }
  }

  lemma AfterSnoc(made: nat, inputs: seq<Input>, k: nat)
    requires k < |inputs|
    ensures After(made, inputs[..k + 1]) == Step(After(made, inputs[..k]), inputs[k]).0
    ensures Heard(made, inputs[..k + 1]) == Heard(made, inputs[..k]) + Step(After(made, inputs[..k]), inputs[k]).1
    ensures Started(made, inputs[..k + 1]) == Started(made, inputs[..k]) + RunsAt(After(made, inputs[..k]), inputs[k])
  {
    assert inputs[..k + 1][..k] == inputs[..k];
  }

  // What a run starts at each of its inputs: the commands noted by the shell of the client, none of which may hold an end
  // of a pipe that is then between users or one of the shell's numbered pipes.
  lemma StartedAreNoted(made: nat, inputs: seq<Input>, k: nat)
    requires k < |inputs|
    ensures var w, w', i := After(made, inputs[..k]), After(made, inputs[..k + 1]), inputs[k];
      var before, after := Started(made, inputs[..k]), Started(made, inputs[..k + 1]);
      before <= after
      && if i.Execute? && i.id in w.shells then Noted(w, w', i.id, after[|before|..]) else after == before
  {
    hide Noted, Apart, Sane, Step, RunsAt;
    RunKeeps(made, inputs[..k]);
    StartsAreNoted(After(made, inputs[..k]), inputs[k]);
    AfterSnoc(made, inputs, k);
    assert (Started(made, inputs[..k]) + RunsAt(After(made, inputs[..k]), inputs[k]))[|Started(made, inputs[..k])|..]
           == RunsAt(After(made, inputs[..k]), inputs[k]);
  }

  lemma SendOpens(w: World, i: Input, a: int, b: int)
    requires SendsTo(w, i, a, b)
    ensures (a, b) in Step(w, i).0.serials && Step(w, i).0.serials[(a, b)] == TakeFrom(w, a, i.from, i.line).0.made
  {
  }

  lemma {:induction false} PipeWaits(made: nat, inputs: seq<Input>, j: nat, k: nat, a: int, b: int, pipe: nat)
    requires j <= k <= |inputs|
    requires (a, b) in After(made, inputs[..j]).serials && After(made, inputs[..j]).serials[(a, b)] == pipe
    requires forall i :: j <= i < k ==> LetsPipeBe(inputs[i], a, b)
    ensures (a, b) in After(made, inputs[..k]).serials && After(made, inputs[..k]).serials[(a, b)] == pipe
  {
    hide Step, Apart, Sane;
    if k > j {
      PipeWaits(made, inputs, j, k - 1, a, b, pipe);
      RunKeeps(made, inputs[..k - 1]);
      StaysOpen(After(made, inputs[..k - 1]), inputs[k - 1], a, b);
      AfterSnoc(made, inputs, k - 1);
    }
  }

  // The last command a client ran is this, and wrote the pipe.
  predicate WroteLast(w: World, a: int, pipe: nat, c: Command) {
    && a in w.shells && |w.shells[a].log| > 0
    && var r := w.shells[a].log[|w.shells[a].log| - 1]; r.command == c && r.ran && r.stdout == PipeWrite(pipe)
  }

  // The first command of the line just run is this and read the pipe, unless its redirection failed and it did not run.
  predicate ReadFirst(w: World, w': World, b: int, pipe: nat, c: Command) {
    && b in w.shells && b in w'.shells
    && var before, after := w.shells[b].log, w'.shells[b].log;
       |before| < |after| && var r := after[|before|]; r.command == c && (r.ran ==> r.stdin == Some(PipeRead(pipe)))
  }

  // Line j of a sends to b, and line k of b is the next to receive from a within the same logins: the last command of
  // line j writes the very pipe that the first command of line k reads.
  lemma UserPipeEndToEnd(made: nat, inputs: seq<Input>, j: nat, k: nat, a: int, b: int) returns (pipe: nat)
    requires j < k < |inputs|
    requires SendsTo(After(made, inputs[..j]), inputs[j], a, b) && inputs[j].cs[|inputs[j].cs| - 1].argv != []
    requires ReceivesFrom(After(made, inputs[..k]), inputs[k], a, b)
    requires forall i :: j < i < k ==> LetsPipeBe(inputs[i], a, b)
    ensures WroteLast(After(made, inputs[..j + 1]), a, pipe, inputs[j].cs[|inputs[j].cs| - 1])
    ensures ReadFirst(After(made, inputs[..k]), After(made, inputs[..k + 1]), b, pipe, inputs[k].cs[0])
  {
    AfterSnoc(made, inputs, j);
    AfterSnoc(made, inputs, k);
    SendOpens(After(made, inputs[..j]), inputs[j], a, b);
    pipe := SentThrough(After(made, inputs[..j]), inputs[j], a, b);
    PipeWaits(made, inputs, j + 1, k, a, b, pipe);
    ReadFrom(After(made, inputs[..k]), inputs[k], a, b, pipe);
  }

  lemma SentThrough(w: World, i: Input, a: int, b: int) returns (pipe: nat)
    requires SendsTo(w, i, a, b) && i.cs[|i.cs| - 1].argv != []
    ensures pipe == TakeFrom(w, a, i.from, i.line).0.made
    ensures WroteLast(Step(w, i).0, a, pipe, i.cs[|i.cs| - 1])
  {
    var (w1, input, _) := TakeFrom(w, a, i.from, i.line);
    var (w2, output, _) := SendInto(w1, a, i.to, i.line);
    pipe := w1.made;
    var cfg := ConfigFor(w.sockets[a], input, output);
    LastWrites(Start(w2.shells[a], External(i.cs, cfg, i.openOk, w2.made)), i.cs, w2.shells[a].executed, cfg, i.openOk);
  }

  lemma ReadFrom(w: World, i: Input, a: int, b: int, pipe: nat)
    requires ReceivesFrom(w, i, a, b) && (a, b) in w.serials && w.serials[(a, b)] == pipe
    ensures ReadFirst(w, Step(w, i).0, b, pipe, i.cs[0])
  {
    var (w1, input, _) := TakeFrom(w, b, i.from, i.line);
    var (w2, output, _) := SendInto(w1, b, i.to, i.line);
    var cfg := ConfigFor(w.sockets[b], input, output);
    FirstReads(Start(w2.shells[b], External(i.cs, cfg, i.openOk, w2.made)), i.cs, |i.cs|, w2.shells[b].executed, cfg, i.openOk);
  }

  // ----- what clients hear of user pipes, and what they get when there is none -----

  // Everybody hears of a pipe that is made, last of all that the line says.
  lemma SendHeard(w: World, i: Input, a: int, b: int)
    requires SendsTo(w, i, a, b)
    ensures var clients, said := w.registry.clients, Step(w, i).1;
      && b in clients && said != []
      && said[|said| - 1] == Delivery(clients.Keys, Piped(clients[a].name, a, i.line, clients[b].name, b))
  {
  }

  // Everybody hears of a pipe that is taken, first of all that the line says.
  lemma ReceiveHeard(w: World, i: Input, a: int, b: int)
    requires ReceivesFrom(w, i, a, b)
    ensures var clients, said := w.registry.clients, Step(w, i).1;
      && a in clients && said != []
      && said[0] == Delivery(clients.Keys, Received(clients[b].name, b, clients[a].name, a, i.line))
  {
  }

  // Commands of a client that are not one environment builtin.
  predicate RunsLine(w: World, i: Input) {
    i.Execute? && ValidInput(i) && Present(w, i.id) && !IsShellBuiltin(i.cs)
  }

  // `<N` without a pipe: the writer alone hears why, and the first command reads nothing.
  lemma ReceiveRefused(w: World, i: Input)
    requires RunsLine(w, i) && i.from >= 0 && (i.from !in w.registry.clients || (i.from, i.id) !in w.registry.pipes)
    ensures var said := Step(w, i).1;
      said != [] && said[0] == Delivery({i.id}, if i.from in w.registry.clients then NoPipe(i.from, i.id) else NoUser(i.from))
    ensures i.id in Step(w, i).0.shells
    ensures var before, after := w.shells[i.id].log, Step(w, i).0.shells[i.id].log;
      |before| < |after| && var r := after[|before|]; r.command == i.cs[0] && (r.ran ==> r.stdin == Some(DevNull))
  {
    var (w1, input, _) := TakeFrom(w, i.id, i.from, i.line);
    var (w2, output, _) := SendInto(w1, i.id, i.to, i.line);
    var cfg := ConfigFor(w.sockets[i.id], input, output);
    FirstReads(Start(w2.shells[i.id], External(i.cs, cfg, i.openOk, w2.made)), i.cs, |i.cs|, w2.shells[i.id].executed, cfg, i.openOk);
  }

  // `>N` that cannot be: the writer alone hears why, and what the last command writes goes nowhere.
  lemma SendRefused(w: World, i: Input)
    requires RunsLine(w, i) && i.to >= 0 && i.cs[|i.cs| - 1].argv != []
    requires i.to !in w.registry.clients || ((i.id, i.to) in w.registry.pipes && (i.from, i.id) != (i.id, i.to))
    ensures var said := Step(w, i).1;
      && said != []
      && said[|said| - 1] == Delivery({i.id}, if i.to in w.registry.clients then PipeExists(i.id, i.to) else NoUser(i.to))
    ensures i.id in Step(w, i).0.shells
    ensures var log := Step(w, i).0.shells[i.id].log;
      |log| > 0 && var r := log[|log| - 1]; r.command == i.cs[|i.cs| - 1] && r.ran && r.stdout == DevNull
  {
    hide Exec;
    var (w1, input, _) := TakeFrom(w, i.id, i.from, i.line);
    var (w2, output, _) := SendInto(w1, i.id, i.to, i.line);
    var cfg := ConfigFor(w.sockets[i.id], input, output);
    LastWrites(Start(w2.shells[i.id], External(i.cs, cfg, i.openOk, w2.made)), i.cs, w2.shells[i.id].executed, cfg, i.openOk);
  }

  // What a line is lent: the pipe it receives, the client's socket unless it sends, and the socket for its errors.
  predicate LentTo(w: World, i: Input, cfg: Config)
    requires i.Execute? && Present(w, i.id)
  {
    && cfg.error == w.sockets[i.id]
    && (i.from < 0 ==> cfg.input == None)
    && (i.from >= 0 ==> cfg.input == Some(
          if i.from in w.registry.clients && (i.from, i.id) in w.serials then PipeRead(w.serials[(i.from, i.id)]) else DevNull))
    && (i.to < 0 ==> !cfg.forceLastOutput && cfg.output == w.sockets[i.id])
    && (i.to >= 0 ==> cfg.forceLastOutput && (cfg.output == DevNull || cfg.output == PipeWrite(w.made)))
  }

  // What becomes of each command of a line follows from the line and what it is lent.
  lemma LineRecorded(w: World, i: Input) returns (cfg: Config)
    requires RunsLine(w, i) && w.serials.Keys == w.registry.pipes
    ensures LentTo(w, i, cfg) && i.id in Step(w, i).0.shells
    ensures Recorded(w.shells[i.id].log, Step(w, i).0.shells[i.id].log, i.cs, |i.cs|, w.shells[i.id].executed, cfg, i.openOk)
  {
    hide Exec, Recorded;
    var (w1, input, _) := TakeFrom(w, i.id, i.from, i.line);
    var (w2, output, _) := SendInto(w1, i.id, i.to, i.line);
    cfg := ConfigFor(w.sockets[i.id], input, output);
    LineRecords(Start(w2.shells[i.id], External(i.cs, cfg, i.openOk, w2.made)), i.cs, |i.cs|, w2.shells[i.id].executed, cfg, i.openOk);
  }
}
