/** The web console: any number of remote shells feeding one browser connection, in any order of completions. */
module ConsoleModel {
  import opened Prompts

  // What is sent to the browser: a whole page, or the script that shows a piece of text in the column of a session.
  datatype Output = Page(html: string) | Script(id: nat, content: string, command: bool)

  // ----- the browser connection -----

  // open and inFlight describe the socket; written and history are everything it has carried and everything it was
  // given; overlaps counts writes begun while another was in flight.
  datatype Http = Http(
    pending: seq<Output>, active: nat, closing: bool, open: bool, inFlight: bool, failed: bool,
    written: seq<Output>, history: seq<Output>, closes: nat, overlaps: nat)

  const FRESH_HTTP := Http([], 0, false, true, false, false, [], [], 0, 0)

  function DoWrite(h: Http): Http {
    if h.pending == [] then
      if h.closing then h.(open := false, closes := h.closes + 1) else h
    else h.(inFlight := true, overlaps := h.overlaps + if h.inFlight then 1 else 0)
  }

  function Enqueue(h: Http, output: Output): Http {
    var h' := h.(pending := h.pending + [output], history := h.history + [output]);
    if h.pending == [] then DoWrite(h') else h'
  }

  function CloseWhenDrained(h: Http): Http {
    var h' := h.(closing := true);
    if h.pending == [] then DoWrite(h') else h'
  }

  function RemoteDone(h: Http): Http {
    var h' := h.(active := if h.active > 0 then h.active - 1 else 0);
    if h'.active == 0 then CloseWhenDrained(h') else h'
  }

  // A write completes, with or without an error.
  function WriteEnds(h: Http, ok: bool): Http
    requires h.pending != []
  {
    if !ok then h.(open := false, inFlight := false, failed := true)
    else DoWrite(h.(inFlight := false, pending := h.pending[1..], written := h.written + [h.pending[0]]))
  }

  function EnqueueAll(h: Http, outputs: seq<Output>): Http {
    if outputs == [] then h else Enqueue(EnqueueAll(h, outputs[..|outputs| - 1]), outputs[|outputs| - 1])
  }

  function Absorb(h: Http, outputs: seq<Output>, done: bool): Http {
    var h' := EnqueueAll(h, outputs);
    if done then RemoteDone(h') else h'
  }

  // ----- a remote session -----

  // The asynchronous operation a session waits for.
  datatype Wait = Idle | Resolve | Connect | Read | Write

  // sent and received are what has gone to the remote shell and what has come from it, complaint why it could not be
  // reached; dones counts its farewells.
  datatype Remote = Remote(
    id: nat, commands: seq<string>, nextCommand: nat, lastCharWasPercent: bool, finished: bool, waiting: Wait,
    sent: seq<string>, received: seq<string>, complaint: string, dones: nat)

  datatype Completion =
    | Resolved(ok: bool, message: string)
    | Connected(ok: bool, message: string)
    | ReadSome(ok: bool, content: string)
    | Wrote(ok: bool)

  predicate Expected(r: Remote, c: Completion) {
    match c
    case Resolved(_, _) => r.waiting == Resolve
    case Connected(_, _) => r.waiting == Connect
    case ReadSome(ok, content) => r.waiting == Read && (ok ==> content != "")
    case Wrote(_) => r.waiting == Write
  }

  function Finish(r: Remote): Remote {
    r.(finished := true, waiting := Idle, dones := r.dones + 1)
  }

  function Complain(r: Remote, message: string): (Remote, seq<Output>, bool) {
    (Finish(r.(complaint := message + "\n")), [Script(r.id, message + "\n", false)], true)
  }

  function NewRemote(id: nat): Remote {
    Remote(id, [], 0, false, false, Idle, [], [], "", 0)
  }

  // The commands of a file, or the reason it cannot be read.
  datatype Load = Loaded(commands: seq<string>) | Missing(message: string)

  function StartRemote(id: nat, load: Load): (Remote, seq<Output>, bool) {
    match load
    case Missing(message) => Complain(NewRemote(id), message)
    case Loaded(commands) => (NewRemote(id).(commands := commands, waiting := Resolve), [], false)
  }

  function SendNext(r: Remote): (Remote, seq<Output>, bool) {
    if r.nextCommand >= |r.commands| then (Finish(r), [], true)
    else
      var command := r.commands[r.nextCommand];
      (r.(nextCommand := r.nextCommand + 1, waiting := Write, sent := r.sent + [command]), [Script(r.id, command, true)], false)
  }

  // One callback: the new session, what it shows in the browser, and whether it says goodbye.
  ghost function Callback(r: Remote, c: Completion): (Remote, seq<Output>, bool) {
    match c
    case Resolved(ok, message) =>
      if ok then (r.(waiting := Connect), [], false) else Complain(r, message)
    case Connected(ok, message) =>
      if ok then (r.(waiting := Read), [], false) else Complain(r, message)
    case ReadSome(ok, content) =>
      if !ok then (Finish(r), [], true)
      else
        var shown := Script(r.id, content, false);
        var r' := r.(lastCharWasPercent := EndsInPercent(content), received := r.received + [content]);
        if Prompted(r.lastCharWasPercent, content) then
          var (r'', outputs, done) := SendNext(r');
          (r'', [shown] + outputs, done)
        else (r'.(waiting := Read), [shown], false)
    case Wrote(ok) => if ok then (r.(waiting := Read), [], false) else (Finish(r), [], true)
  }

  // ----- both together -----

  datatype Console = Console(http: Http, remotes: seq<Remote>)

  datatype Event = Remotely(i: nat, completion: Completion) | WriteEnded(ok: bool)

  // The first n sessions started, one after the other, before anything can complete.
  function StartAll(h: Http, loads: seq<Load>, n: nat): (c: Console)
    requires n <= |loads|
    ensures |c.remotes| == n
  {
    if n == 0 then Console(h, [])
    else
      var c := StartAll(h, loads, n - 1);
      var (r, outputs, done) := StartRemote(n - 1, loads[n - 1]);
      Console(Absorb(c.http, outputs, done), c.remotes + [r])
  }

  // A request for the console page: the page, then the sessions.
  function Begin(page: string, loads: seq<Load>): Console {
    var h := Enqueue(FRESH_HTTP, Page(page));
    if |loads| == 0 then Console(CloseWhenDrained(h), [])
    else StartAll(h.(active := |loads|), loads, |loads|)
  }

  // The io_context picks any operation that can complete.
  ghost function Next(c: Console, e: Event): Console {
    match e
    case WriteEnded(ok) => if c.http.inFlight && c.http.pending != [] then c.(http := WriteEnds(c.http, ok)) else c
    case Remotely(i, completion) =>
      if i < |c.remotes| && Expected(c.remotes[i], completion) then
        var (r, outputs, done) := Callback(c.remotes[i], completion);
        Console(Absorb(c.http, outputs, done), c.remotes[i := r])
      else c
  }

  ghost function Reach(page: string, loads: seq<Load>, events: seq<Event>): Console {
    if events == [] then Begin(page, loads)
    else Next(Reach(page, loads, events[..|events| - 1]), events[|events| - 1])
  }

  lemma ReachSnoc(page: string, loads: seq<Load>, events: seq<Event>, n: nat)
    requires n < |events|
    ensures Reach(page, loads, events[..n + 1]) == Next(Reach(page, loads, events[..n]), events[n])
  {
    assert events[..n + 1][..n] == events[..n];
  }

  // ----- invariants -----

  function Unfinished(remotes: seq<Remote>): nat {
    if remotes == [] then 0
    else Unfinished(remotes[..|remotes| - 1]) + if remotes[|remotes| - 1].finished then 0 else 1
  }

  // The queue, while remotes may still be waiting for it.
  predicate Queued(h: Http) {
    && h.overlaps == 0
    && (!h.failed ==>
          && (h.inFlight <==> h.pending != [])
          && h.written + h.pending == h.history
          && (h.open <==> !h.closing || h.pending != [])
          && h.closes == if h.open then 0 else 1)
    && (h.failed ==> !h.open && !h.inFlight && h.pending != [] && h.written <= h.history)
  }

  predicate Behaves(r: Remote) {
    && (forall k :: 0 <= k < |r.received| ==> r.received[k] != "")
    && r.lastCharWasPercent == FlagBefore(r.received, |r.received|)
    && r.nextCommand <= |r.commands| && r.sent == r.commands[..r.nextCommand]
    && r.nextCommand == (if Attempts(r.received) < |r.commands| then Attempts(r.received) else |r.commands|)
    && (Attempts(r.received) > |r.commands| ==> r.finished)
    && r.dones == (if r.finished then 1 else 0) && (r.finished <==> r.waiting == Idle)
  }

  // Before the last session has been started, the count runs ahead of the sessions there are.
  ghost predicate Inv(c: Console, toStart: nat) {
    && Queued(c.http)
    && (forall i :: 0 <= i < |c.remotes| ==> Behaves(c.remotes[i]) && c.remotes[i].id == i)
    && c.http.active == Unfinished(c.remotes) + toStart
    && (c.http.closing <==> c.http.active == 0)
  }

  lemma {:induction false} EnqueueAllKeeps(h: Http, outputs: seq<Output>)
    requires Queued(h) && (outputs == [] || !h.closing)
    ensures var h' := EnqueueAll(h, outputs); Queued(h') && h'.active == h.active && h'.closing == h.closing
    ensures EnqueueAll(h, outputs).history == h.history + outputs
  {
    if outputs != [] {
      EnqueueAllKeeps(h, outputs[..|outputs| - 1]);
      assert outputs == outputs[..|outputs| - 1] + [outputs[|outputs| - 1]];
    }
  }

  lemma AbsorbKeeps(h: Http, outputs: seq<Output>, done: bool)
    requires Queued(h) && !h.closing && h.active > 0
    ensures var h' := Absorb(h, outputs, done);
      Queued(h') && h'.active == (if done then h.active - 1 else h.active) && (h'.closing <==> h'.active == 0)
    ensures Absorb(h, outputs, done).history == h.history + outputs
  {
    EnqueueAllKeeps(h, outputs);
  }

  lemma WriteEndsKeeps(h: Http, ok: bool)
    requires Queued(h) && h.inFlight && h.pending != []
    ensures Queued(WriteEnds(h, ok))
    ensures WriteEnds(h, ok).active == h.active && WriteEnds(h, ok).closing == h.closing
  {
  }

  lemma {:induction false} FinishOne(remotes: seq<Remote>, i: nat, r: Remote)
    requires i < |remotes| && !remotes[i].finished
    ensures Unfinished(remotes) > 0
    ensures Unfinished(remotes[i := r]) == Unfinished(remotes) - if r.finished then 1 else 0
  {
    var n := |remotes| - 1;
    if i < n {
      FinishOne(remotes[..n], i, r);
      assert remotes[i := r][..n] == remotes[..n][i := r];
    } else {
      assert remotes[i := r][..n] == remotes[..n];
    }
  }

  lemma SendKeeps(r: Remote)
    requires !r.finished && r.dones == 0 && r.nextCommand <= |r.commands| && r.sent == r.commands[..r.nextCommand]
    ensures var (r', outputs, done) := SendNext(r);
      && r'.id == r.id && r'.commands == r.commands && r'.received == r.received && r'.lastCharWasPercent == r.lastCharWasPercent
      && done == r'.finished && r'.dones == (if r'.finished then 1 else 0) && (r'.finished <==> r'.waiting == Idle)
      && r'.sent == r'.commands[..r'.nextCommand]
      && (if r.nextCommand < |r.commands| then r'.nextCommand == r.nextCommand + 1 && !r'.finished
          else r'.nextCommand == r.nextCommand && r'.finished)
  {
  }

  lemma AttemptsSnoc(received: seq<string>, content: string)
    requires content != ""
    ensures var all := received + [content]; var percent := FlagBefore(received, |received|);
      && FlagBefore(all, |all|) == EndsInPercent(content)
      && Attempts(all) == Attempts(received) + (if Completed(percent, content) > 0 then 1 else 0)
      && (Prompted(percent, content) <==> Completed(percent, content) > 0)
  {
    var all := received + [content];
    assert all[..|received|] == received;
    CompletedPositive(FlagBefore(received, |received|), content);
  }

  lemma CallbackKeeps(r: Remote, c: Completion)
    requires Behaves(r) && Expected(r, c)
    ensures var (r', outputs, done) := Callback(r, c); Behaves(r') && r'.id == r.id && done == r'.finished && !r.finished
  {
    if c.ReadSome? && c.ok {
      AttemptsSnoc(r.received, c.content);
      var r1 := r.(lastCharWasPercent := EndsInPercent(c.content), received := r.received + [c.content]);
      SendKeeps(r1);
    }
  }

  lemma NextKeeps(c: Console, e: Event)
    requires Inv(c, 0)
    ensures Inv(Next(c, e), 0)
  {
    match e
    case WriteEnded(ok) =>
      if c.http.inFlight && c.http.pending != [] { WriteEndsKeeps(c.http, ok); }
    case Remotely(i, completion) =>
      if i < |c.remotes| && Expected(c.remotes[i], completion) {
        var (r, outputs, done) := Callback(c.remotes[i], completion);
        CallbackKeeps(c.remotes[i], completion);
        FinishOne(c.remotes, i, r);
        AbsorbKeeps(c.http, outputs, done);
      }
  }

  lemma StartRemoteBehaves(id: nat, load: Load)
    ensures var (r, outputs, done) := StartRemote(id, load); Behaves(r) && r.id == id && done == r.finished
  {
  }

  lemma StartOneKeeps(c: Console, toStart: nat, load: Load)
    requires Inv(c, toStart) && toStart > 0
    ensures var (r, outputs, done) := StartRemote(|c.remotes|, load);
      Inv(Console(Absorb(c.http, outputs, done), c.remotes + [r]), toStart - 1)
  {
    var (r, outputs, done) := StartRemote(|c.remotes|, load);
    StartRemoteBehaves(|c.remotes|, load);
    AbsorbKeeps(c.http, outputs, done);
    assert (c.remotes + [r])[..|c.remotes|] == c.remotes;
  }

  lemma {:induction false} StartAllKeeps(h: Http, loads: seq<Load>, n: nat)
    requires n <= |loads| && Queued(h) && !h.closing && h.active == |loads| > 0
    ensures Inv(StartAll(h, loads, n), |loads| - n)
  {
    if n > 0 {
      StartAllKeeps(h, loads, n - 1);
      StartOneKeeps(StartAll(h, loads, n - 1), |loads| - (n - 1), loads[n - 1]);
    }
  }

  lemma {:induction false} ReachInv(page: string, loads: seq<Load>, events: seq<Event>)
    ensures Inv(Reach(page, loads, events), 0)
  {
    if events == [] {
      var h := Enqueue(FRESH_HTTP, Page(page));
      if |loads| > 0 { StartAllKeeps(h.(active := |loads|), loads, |loads|); }
    } else {
      ReachInv(page, loads, events[..|events| - 1]);
      NextKeeps(Reach(page, loads, events[..|events| - 1]), events[|events| - 1]);
    }
  }

  // ----- what each column of the page shows -----

  // What an output adds to the text, and to the commands, in the column of a session.
  function TextIn(o: Output, i: nat): string {
    if o.Script? && o.id == i && !o.command then o.content else ""
  }

  function CommandsIn(o: Output, i: nat): seq<string> {
    if o.Script? && o.id == i && o.command then [o.content] else []
  }

  function TextOf(outputs: seq<Output>, i: nat): string {
    if outputs == [] then "" else TextOf(outputs[..|outputs| - 1], i) + TextIn(outputs[|outputs| - 1], i)
  }

  function CommandsOf(outputs: seq<Output>, i: nat): seq<string> {
    if outputs == [] then [] else CommandsOf(outputs[..|outputs| - 1], i) + CommandsIn(outputs[|outputs| - 1], i)
  }

  lemma {:induction false} TextConcat(a: seq<Output>, b: seq<Output>, i: nat)
    ensures TextOf(a + b, i) == TextOf(a, i) + TextOf(b, i)
  {
    if b == [] {
      assert a + b == a;
    } else {
      var init, last := b[..|b| - 1], b[|b| - 1];
      var all := a + b;
      assert all[..|all| - 1] == a + init && all[|all| - 1] == last;
      TextConcat(a, init, i);
      calc {
        TextOf(all, i);
        TextOf(a + init, i) + TextIn(last, i);
        TextOf(a, i) + TextOf(init, i) + TextIn(last, i);
        TextOf(a, i) + (TextOf(init, i) + TextIn(last, i));
      }
    }
  }

  lemma {:induction false} CommandsConcat(a: seq<Output>, b: seq<Output>, i: nat)
    ensures CommandsOf(a + b, i) == CommandsOf(a, i) + CommandsOf(b, i)
  {
    hide CommandsIn;
    if b == [] {
      assert a + b == a;
    } else {
      var init, last := b[..|b| - 1], b[|b| - 1];
      var all := a + b;
      assert all[..|all| - 1] == a + init && all[|all| - 1] == last;
      CommandsConcat(a, init, i);
      calc {
        CommandsOf(all, i);
        CommandsOf(a + init, i) + CommandsIn(last, i);
        CommandsOf(a, i) + CommandsOf(init, i) + CommandsIn(last, i);
        CommandsOf(a, i) + (CommandsOf(init, i) + CommandsIn(last, i));
      }
    }
  }

  ghost predicate ColumnIs(history: seq<Output>, i: nat, text: string, commands: seq<string>) {
    TextOf(history, i) == text && CommandsOf(history, i) == commands
  }

  ghost predicate ColumnOf(history: seq<Output>, r: Remote) {
    ColumnIs(history, r.id, Joined(r.received) + r.complaint, r.sent)
  }

  // Every column shows its own session; those not yet started show nothing.
  ghost predicate Displayed(history: seq<Output>, remotes: seq<Remote>) {
    && (forall i :: 0 <= i < |remotes| ==> remotes[i].id == i && ColumnOf(history, remotes[i]))
    && (forall i :: i >= |remotes| ==> ColumnIs(history, i, "", []))
  }

  // The outputs of one callback, in the column of its session and in the others.
  ghost predicate Adds(r: Remote, r': Remote, outputs: seq<Output>) {
    && r'.id == r.id
    && Joined(r.received) + r.complaint + TextOf(outputs, r.id) == Joined(r'.received) + r'.complaint
    && r.sent + CommandsOf(outputs, r.id) == r'.sent
    && forall i :: i != r.id ==> ColumnIs(outputs, i, "", [])
  }

  lemma OneOutput(id: nat, content: string, command: bool, i: nat)
    ensures ColumnIs([Script(id, content, command)], i,
                     if command || i != id then "" else content, if command && i == id then [content] else [])
  {
    var outputs := [Script(id, content, command)];
    assert outputs[..0] == [];
    assert TextOf(outputs, i) == TextOf([], i) + TextIn(outputs[0], i);
    assert CommandsOf(outputs, i) == CommandsOf([], i) + CommandsIn(outputs[0], i);
  }

  lemma TwoOutputs(id: nat, content: string, command: string, i: nat)
    ensures ColumnIs([Script(id, content, false), Script(id, command, true)], i,
                     if i == id then content else "", if i == id then [command] else [])
  {
    var a, b := [Script(id, content, false)], [Script(id, command, true)];
    OneOutput(id, content, false, i);
    OneOutput(id, command, true, i);
    assert a + b == [Script(id, content, false), Script(id, command, true)];
    TextConcat(a, b, i);
    CommandsConcat(a, b, i);
  }

  // The three shapes a callback's outputs take.
  lemma OutputsShape(outputs: seq<Output>, id: nat, i: nat)
    requires outputs == []
      || (|outputs| == 1 && outputs[0].Script? && outputs[0].id == id && !outputs[0].command)
      || (|outputs| == 2 && outputs[0].Script? && outputs[0].id == id && !outputs[0].command
          && outputs[1].Script? && outputs[1].id == id && outputs[1].command)
    ensures ColumnIs(outputs, i, if outputs != [] && i == id then outputs[0].content else "",
                     if |outputs| == 2 && i == id then [outputs[1].content] else [])
  {
    if |outputs| == 1 {
      assert outputs == [Script(id, outputs[0].content, false)];
      OneOutput(id, outputs[0].content, false, i);
    } else if |outputs| == 2 {
      assert outputs == [Script(id, outputs[0].content, false), Script(id, outputs[1].content, true)];
      TwoOutputs(id, outputs[0].content, outputs[1].content, i);
    }
  }

  lemma JoinedOneMore(received: seq<string>, content: string)
    ensures Joined(received + [content]) == Joined(received) + content
  {
    assert (received + [content])[..|received|] == received;
  }

  // What a read changes, by the shape of what it shows.
  lemma ReadShapes(r: Remote, content: string)
    requires Expected(r, ReadSome(true, content)) && r.complaint == ""
    ensures var (r', outputs, done) := Callback(r, ReadSome(true, content));
      && r'.id == r.id && r'.received == r.received + [content] && r'.complaint == ""
      && 1 <= |outputs| <= 2 && outputs[0] == Script(r.id, content, false)
      && (|outputs| == 1 ==> r'.sent == r.sent)
      && (|outputs| == 2 ==> outputs[1].Script? && outputs[1].id == r.id && outputs[1].command && r'.sent == r.sent + [outputs[1].content])
  {
  }

  lemma ReadAdds(r: Remote, content: string)
    requires Expected(r, ReadSome(true, content)) && r.complaint == ""
    ensures var (r', outputs, done) := Callback(r, ReadSome(true, content)); Adds(r, r', outputs)
  {
    var (r', outputs, done) := Callback(r, ReadSome(true, content));
    ReadShapes(r, content);
    JoinedOneMore(r.received, content);
    ShapeAdds(r, r', outputs, content);
  }

  lemma ShapeAdds(r: Remote, r': Remote, outputs: seq<Output>, content: string)
    requires r'.id == r.id && r.complaint == r'.complaint == "" && Joined(r'.received) == Joined(r.received) + content
    requires 1 <= |outputs| <= 2 && outputs[0] == Script(r.id, content, false)
    requires |outputs| == 1 ==> r'.sent == r.sent
    requires |outputs| == 2 ==> outputs[1].Script? && outputs[1].id == r.id && outputs[1].command && r'.sent == r.sent + [outputs[1].content]
    ensures Adds(r, r', outputs)
  {
    forall i: nat | i != r.id ensures ColumnIs(outputs, i, "", []) { OutputsShape(outputs, r.id, i); }
    OutputsShape(outputs, r.id, r.id);
    assert Joined(r.received) + "" == Joined(r.received) && Joined(r'.received) + "" == Joined(r'.received);
    assert r.sent + [] == r.sent;
  }

  lemma CallbackAdds(r: Remote, c: Completion)
    requires Expected(r, c) && r.complaint == "" && (r.waiting == Resolve || r.waiting == Connect ==> r.received == [])
    ensures var (r', outputs, done) := Callback(r, c); Adds(r, r', outputs)
  {
    if c.ReadSome? && c.ok {
      ReadAdds(r, c.content);
    } else {
      var (r', outputs, done) := Callback(r, c);
      forall i: nat | i != r.id ensures ColumnIs(outputs, i, "", []) { OutputsShape(outputs, r.id, i); }
      OutputsShape(outputs, r.id, r.id);
    }
  }

  lemma ColumnAdd(history: seq<Output>, remotes: seq<Remote>, i: nat, r': Remote, outputs: seq<Output>)
    requires Displayed(history, remotes) && i < |remotes| && Adds(remotes[i], r', outputs)
    ensures Displayed(history + outputs, remotes[i := r'])
  {
    var remotes' := remotes[i := r'];
    forall k ensures TextOf(history + outputs, k) == TextOf(history, k) + TextOf(outputs, k)
              && CommandsOf(history + outputs, k) == CommandsOf(history, k) + CommandsOf(outputs, k) {
      TextConcat(history, outputs, k);
      CommandsConcat(history, outputs, k);
    }
    forall k: nat | k < |remotes| ensures ColumnOf(history + outputs, remotes'[k]) && remotes'[k].id == k {
      assert ColumnOf(history, remotes[k]);
      if k != i { assert ColumnIs(outputs, k, "", []); }
    }
    forall k: nat | k >= |remotes| ensures ColumnIs(history + outputs, k, "", []) {
      assert ColumnIs(history, k, "", []) && ColumnIs(outputs, k, "", []);
    }
  }
  // What Displayed needs to know of the sessions.
  ghost predicate Quiet(remotes: seq<Remote>) {
    forall i :: 0 <= i < |remotes| && !remotes[i].finished ==> Waits(remotes[i])
  }

  predicate Waits(r: Remote) {
    r.complaint == "" && (r.waiting == Resolve || r.waiting == Connect ==> r.received == [])
  }

  lemma StartAdds(id: nat, load: Load)
    ensures var (r, outputs, done) := StartRemote(id, load); Adds(NewRemote(id), r, outputs) && (!r.finished ==> Waits(r))
  {
    var (r, outputs, done) := StartRemote(id, load);
    forall i: nat | i != id ensures ColumnIs(outputs, i, "", []) { OutputsShape(outputs, id, i); }
    OutputsShape(outputs, id, id);
  }

  lemma ColumnStart(history: seq<Output>, remotes: seq<Remote>, load: Load)
    requires Displayed(history, remotes)
    ensures var (r, outputs, done) := StartRemote(|remotes|, load); Displayed(history + outputs, remotes + [r])
  {
    var (r, outputs, done) := StartRemote(|remotes|, load);
    var fresh' := NewRemote(|remotes|);
    StartAdds(|remotes|, load);
    assert ColumnIs(history, |remotes|, "", []);
    assert Displayed(history, remotes + [fresh']);
    ColumnAdd(history, remotes + [fresh'], |remotes|, r, outputs);
    assert (remotes + [fresh'])[|remotes| := r] == remotes + [r];
  }

  lemma StartOneDisplays(h: Http, remotes: seq<Remote>, load: Load)
    requires Queued(h) && !h.closing && h.active > 0 && Displayed(h.history, remotes) && Quiet(remotes)
    ensures var (r, outputs, done) := StartRemote(|remotes|, load);
      Displayed(Absorb(h, outputs, done).history, remotes + [r]) && Quiet(remotes + [r])
  {
    hide Displayed, StartRemote;
    var (r, outputs, done) := StartRemote(|remotes|, load);
    AbsorbKeeps(h, outputs, done);
    ColumnStart(h.history, remotes, load);
    StartAdds(|remotes|, load);
  }

  lemma {:induction false} StartAllDisplays(h: Http, loads: seq<Load>, n: nat)
    requires n <= |loads| && Queued(h) && !h.closing && h.active == |loads| > 0 && Displayed(h.history, [])
    ensures var c := StartAll(h, loads, n); Displayed(c.http.history, c.remotes) && Quiet(c.remotes)
  {
    hide Displayed, StartRemote, Absorb, Quiet;
    if n == 0 {
      assert Quiet([]) by { NobodyWaits(); }
    } else {
      StartAllDisplays(h, loads, n - 1);
      StartAllKeeps(h, loads, n - 1);
      var c := StartAll(h, loads, n - 1);
      StartOneDisplays(c.http, c.remotes, loads[n - 1]);
    }
  }

  lemma NobodyWaits()
    ensures Quiet([])
  {
  }

  lemma RemoteDisplays(c: Console, i: nat, completion: Completion)
    requires Inv(c, 0) && Displayed(c.http.history, c.remotes) && Quiet(c.remotes)
    requires i < |c.remotes| && Expected(c.remotes[i], completion)
    ensures var (r, outputs, done) := Callback(c.remotes[i], completion); var remotes := c.remotes[i := r];
      && Absorb(c.http, outputs, done).history == c.http.history + outputs
      && Displayed(c.http.history + outputs, remotes) && Quiet(remotes)
  {
    hide Callback, Inv, Displayed, Absorb, Expected;
    var (r, outputs, done) := Callback(c.remotes[i], completion);
    CallbackGoesOn(c, i, completion);
    ExpectedWaits(c, i, completion);
    CallbackAdds(c.remotes[i], completion);
    CallbackWaits(c.remotes[i], completion);
    ColumnAdd(c.http.history, c.remotes, i, r, outputs);
  }

  lemma ExpectedWaits(c: Console, i: nat, completion: Completion)
    requires Inv(c, 0) && Quiet(c.remotes) && i < |c.remotes| && Expected(c.remotes[i], completion)
    ensures Waits(c.remotes[i])
  {
  }

  lemma CallbackWaits(r: Remote, completion: Completion)
    requires Expected(r, completion) && Waits(r)
    ensures !Callback(r, completion).0.finished ==> Waits(Callback(r, completion).0)
  {
  }

  lemma CallbackGoesOn(c: Console, i: nat, completion: Completion)
    requires Inv(c, 0) && i < |c.remotes| && Expected(c.remotes[i], completion)
    ensures var (r, outputs, done) := Callback(c.remotes[i], completion);
      Absorb(c.http, outputs, done).history == c.http.history + outputs
  {
    var (r, outputs, done) := Callback(c.remotes[i], completion);
    CallbackKeeps(c.remotes[i], completion);
    FinishOne(c.remotes, i, r);
    AbsorbKeeps(c.http, outputs, done);
  }

  lemma NextDisplays(c: Console, e: Event)
    requires Inv(c, 0) && Displayed(c.http.history, c.remotes) && Quiet(c.remotes)
    ensures var c' := Next(c, e); Displayed(c'.http.history, c'.remotes) && Quiet(c'.remotes)
  {
    hide Displayed, Callback, Quiet;
    match e
    case WriteEnded(ok) =>
    case Remotely(i, completion) =>
      if i < |c.remotes| && Expected(c.remotes[i], completion) { RemoteDisplays(c, i, completion); }
  }

  lemma {:induction false} ReachDisplays(page: string, loads: seq<Load>, events: seq<Event>)
    ensures var c := Reach(page, loads, events); Displayed(c.http.history, c.remotes) && Quiet(c.remotes)
  {
    if events == [] {
      var h := Enqueue(FRESH_HTTP, Page(page));
      assert h.history == [Page(page)];
      forall i: nat ensures ColumnIs([Page(page)], i, "", []) {
        assert [Page(page)][..0] == [];
      }
      if |loads| > 0 { StartAllDisplays(h.(active := |loads|), loads, |loads|); }
    } else {
      var before := events[..|events| - 1];
      ReachDisplays(page, loads, before);
      ReachInv(page, loads, before);
      NextDisplays(Reach(page, loads, before), events[|events| - 1]);
    }
  }

  // ----- what a reader of the page can rely on -----

  // Never two writes at once; as long as no write has failed, what is written and then what is pending is everything
  // that was ever enqueued, in order.
  lemma OrderedDrain(page: string, loads: seq<Load>, events: seq<Event>)
    ensures var h := Reach(page, loads, events).http;
      && h.overlaps == 0
      && (!h.failed ==> h.written + h.pending == h.history)
      && (h.failed ==> !h.inFlight && h.written <= h.history)
  {
    ReachInv(page, loads, events);
  }

  // A connection whose last write failed, with what it could not write.
  predicate Stuck(h: Http) {
    !h.open && !h.inFlight && h.pending != []
  }

  lemma {:induction false} StuckStays(h: Http, outputs: seq<Output>)
    requires Stuck(h)
    ensures Stuck(EnqueueAll(h, outputs)) && EnqueueAll(h, outputs).written == h.written
  {
    if outputs != [] { StuckStays(h, outputs[..|outputs| - 1]); }
  }

  // After a write error the connection is closed and nothing more is written, whatever the sessions still show.
  lemma {:induction false} FailedWriteEnds(page: string, loads: seq<Load>, events: seq<Event>, k: nat)
    requires k < |events| && events[k] == WriteEnded(false) && Reach(page, loads, events[..k]).http.inFlight
    ensures var before, h := Reach(page, loads, events[..k]).http, Reach(page, loads, events).http;
      Stuck(h) && h.written == before.written
  {
    hide Callback;
    var past := events[..|events| - 1];
    if k < |past| {
      assert past[..k] == events[..k];
      FailedWriteEnds(page, loads, past, k);
      var c, e := Reach(page, loads, past), events[|events| - 1];
      if e.Remotely? && e.i < |c.remotes| && Expected(c.remotes[e.i], e.completion) {
        StuckStays(c.http, Callback(c.remotes[e.i], e.completion).1);
      }
    } else {
      assert past == events[..k];
      ReachInv(page, loads, past);
    }
  }

  lemma {:induction false} NoneUnfinished(remotes: seq<Remote>)
    ensures Unfinished(remotes) == 0 <==> forall i :: 0 <= i < |remotes| ==> remotes[i].finished
  {
    if remotes != [] {
      var n := |remotes| - 1;
      NoneUnfinished(remotes[..n]);
      assert forall i :: 0 <= i < n ==> remotes[..n][i] == remotes[i];
    }
  }

  // Without a write error the connection is closed exactly when every session has said goodbye, once, and everything
  // enqueued has been written; and it is closed once.
  lemma ClosedExactlyWhenDone(page: string, loads: seq<Load>, events: seq<Event>)
    requires !Reach(page, loads, events).http.failed
    ensures var c := Reach(page, loads, events);
      && (!c.http.open <==> (forall i :: 0 <= i < |c.remotes| ==> c.remotes[i].dones == 1) && c.http.written == c.http.history)
      && c.http.closes <= 1
      && (forall i :: 0 <= i < |c.remotes| ==> c.remotes[i].dones <= 1)
  {
    ReachInv(page, loads, events);
    var c := Reach(page, loads, events);
    NoneUnfinished(c.remotes);
    assert forall i :: 0 <= i < |c.remotes| ==> Behaves(c.remotes[i]);
    assert c.http.written == c.http.history <==> c.http.pending == [];
  }

  // However its stream is cut into chunks: the commands a session has sent are the first of its file, in order; one for
  // every chunk that completed a prompt, as far as the file goes; never more than there were prompts.
  lemma CommandsFollowPrompts(page: string, loads: seq<Load>, events: seq<Event>, i: nat)
    requires i < |Reach(page, loads, events).remotes|
    ensures var r := Reach(page, loads, events).remotes[i];
      && |r.sent| <= |r.commands| && r.sent == r.commands[..|r.sent|]
      && |r.sent| == (if Attempts(r.received) < |r.commands| then Attempts(r.received) else |r.commands|)
      && |r.sent| <= PromptCount(Joined(r.received))
      && (OneAtATime(r.received) ==> Attempts(r.received) == PromptCount(Joined(r.received)))
  {
    ReachInv(page, loads, events);
    var r := Reach(page, loads, events).remotes[i];
    assert Behaves(r);
    AttemptsBounded(r.received);
    AttemptsArePrompts(r.received);
  }

  // A session that has finished neither changes nor shows anything any more.
  lemma FinishedIsSilent(page: string, loads: seq<Load>, events: seq<Event>, i: nat, completion: Completion)
    requires i < |Reach(page, loads, events).remotes| && Reach(page, loads, events).remotes[i].finished
    ensures Next(Reach(page, loads, events), Remotely(i, completion)) == Reach(page, loads, events)
  {
    ReachInv(page, loads, events);
    assert Behaves(Reach(page, loads, events).remotes[i]);
  }

  // Whatever the sessions do to each other's timing: what is enqueued for the column of a session is the stream it has
  // received, in order and nothing else but the reason it could not be reached, and the commands it has sent.
  lemma ColumnsAreStreams(page: string, loads: seq<Load>, events: seq<Event>, i: nat)
    requires i < |Reach(page, loads, events).remotes|
    ensures var c := Reach(page, loads, events); var r := c.remotes[i];
      && TextOf(c.http.history, i) == Joined(r.received) + r.complaint
      && CommandsOf(c.http.history, i) == r.sent
      && (!r.finished ==> r.complaint == "")
  {
    ReachDisplays(page, loads, events);
    var c := Reach(page, loads, events);
    assert c.remotes[i].id == i && ColumnOf(c.http.history, c.remotes[i]);
  }
}
