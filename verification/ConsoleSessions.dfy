/** What a session of the console waits for and has received, told from what its sockets have answered. */
module ConsoleSessions {
  import opened Prompts
  import opened ConsoleModel

  // ----- told from the answers alone -----

  // The pieces of output read so far.
  function Chunks(answers: seq<Completion>): seq<string> {
    if answers == [] then []
    else
      var last := answers[|answers| - 1];
      Chunks(answers[..|answers| - 1]) + if last.ReadSome? && last.ok then [last.content] else []
  }

  // The operation that comes after these answers: resolve, connect, read; after a piece of output that completes a
  // prompt the next command is written, if there is one left; after a write, read again; after a failure, nothing.
  function Due(commands: seq<string>, answers: seq<Completion>): Wait {
    if answers == [] then Resolve
    else
      match answers[|answers| - 1]
      case Resolved(ok, _) => if ok then Connect else Idle
      case Connected(ok, _) => if ok then Read else Idle
      case Wrote(ok) => if ok then Read else Idle
      case ReadSome(ok, _) =>
        if !ok then Idle
        else
          var chunks := Chunks(answers);
          var j := |chunks| - 1;
          if j < 0 || Completed(FlagBefore(chunks, j), chunks[j]) == 0 then Read
          else if Attempts(chunks) <= |commands| then Write
          else Idle
  }

  predicate Answers(wait: Wait, c: Completion) {
    match c
    case Resolved(_, _) => wait == Resolve
    case Connected(_, _) => wait == Connect
    case ReadSome(ok, content) => wait == Read && (ok ==> content != "")
    case Wrote(_) => wait == Write
  }

  // Every answer is one to the operation under way, as sockets give them.
  predicate InOrder(commands: seq<string>, answers: seq<Completion>) {
    forall k :: 0 <= k < |answers| ==> Answers(Due(commands, answers[..k]), answers[k])
  }

  function WritesDone(answers: seq<Completion>): nat {
    if answers == [] then 0
    else WritesDone(answers[..|answers| - 1]) + if answers[|answers| - 1] == Wrote(true) then 1 else 0
  }

  predicate WasConnected(answers: seq<Completion>) {
    exists k :: 0 <= k < |answers| && answers[k].Connected? && answers[k].ok
  }

  // Why the shell could not be reached, if it could not.
  function Reason(load: Load, answers: seq<Completion>): string {
    if load.Missing? then load.message + "\n"
    else if answers == [] then ""
    else
      match answers[|answers| - 1]
      case Resolved(false, message) => message + "\n"
      case Connected(false, message) => message + "\n"
      case _ => ""
  }

  // ----- what the sessions do -----

  // The answers a session has been given while it waited for them.
  ghost function Given(page: string, loads: seq<Load>, events: seq<Event>, i: nat): seq<Completion> {
    if events == [] then []
    else
      var past, e := events[..|events| - 1], events[|events| - 1];
      var c := Reach(page, loads, past);
      Given(page, loads, past, i) +
      if e.Remotely? && e.i == i && i < |c.remotes| && Expected(c.remotes[i], e.completion) then [e.completion] else []
  }

  // The state of a session is what its answers say.
  ghost predicate Told(r: Remote, load: Load, answers: seq<Completion>) {
    && r.complaint == Reason(load, answers)
    && match load
       case Missing(_) => answers == [] && r.finished && r.received == [] && r.sent == []
       case Loaded(commands) =>
         && r.commands == commands && r.received == Chunks(answers) && r.waiting == Due(commands, answers)
         && (r.finished <==> r.waiting == Idle)
         && Behaves(r)
  }

  lemma StartTold(id: nat, load: Load)
    ensures Told(StartRemote(id, load).0, load, [])
  {
  }

  lemma ChunksSnoc(answers: seq<Completion>, c: Completion)
    ensures Chunks(answers + [c]) == Chunks(answers) + if c.ReadSome? && c.ok then [c.content] else []
  {
    assert (answers + [c])[..|answers|] == answers;
  }

  // After one more piece of output.
  lemma DueAfterRead(commands: seq<string>, answers: seq<Completion>, content: string)
    requires content != ""
    ensures var chunks := Chunks(answers);
      Due(commands, answers + [ReadSome(true, content)]) ==
      if !Prompted(FlagBefore(chunks, |chunks|), content) then Read
      else if Attempts(chunks) < |commands| then Write else Idle
  {
    var all := answers + [ReadSome(true, content)];
    ChunksSnoc(answers, ReadSome(true, content));
    AttemptsSnoc(Chunks(answers), content);
    assert Chunks(all)[..|Chunks(answers)|] == Chunks(answers);
  }

  lemma CallbackTold(r: Remote, load: Load, answers: seq<Completion>, c: Completion)
    requires Told(r, load, answers) && !r.finished && Expected(r, c)
    ensures Told(Callback(r, c).0, load, answers + [c])
  {
    CallbackKeeps(r, c);
    ChunksSnoc(answers, c);
    if c.ReadSome? && c.ok { DueAfterRead(load.commands, answers, c.content); }
  }

  lemma {:induction false} StartAllTold(h: Http, loads: seq<Load>, n: nat, i: nat)
    requires i < n <= |loads|
    ensures Told(StartAll(h, loads, n).remotes[i], loads[i], []) && StartAll(h, loads, n).remotes[i] == StartRemote(i, loads[i]).0
  {
    if i == n - 1 { StartTold(i, loads[i]); } else { StartAllTold(h, loads, n - 1, i); }
  }

  // In every reachable state and under every order of completions, a session has exactly received what was read from
  // its socket, waits for exactly the operation that is due after its answers, and has said why if it was not reached.
  lemma {:induction false} SessionsTold(page: string, loads: seq<Load>, events: seq<Event>, i: nat)
    requires i < |loads|
    ensures var c := Reach(page, loads, events);
      |c.remotes| == |loads| && Told(c.remotes[i], loads[i], Given(page, loads, events, i))
  {
    hide Told, Callback;
    if events == [] {
      StartAllTold(Enqueue(FRESH_HTTP, Page(page)).(active := |loads|), loads, |loads|, i);
    } else {
      var past, e := events[..|events| - 1], events[|events| - 1];
      SessionsTold(page, loads, past, i);
      var c := Reach(page, loads, past);
      ReachInv(page, loads, past);
      if e.Remotely? && e.i == i && Expected(c.remotes[i], e.completion) {
        ExpectedUnfinished(c, i, e.completion);
        CallbackTold(c.remotes[i], loads[i], Given(page, loads, past, i), e.completion);
      } else {
        assert Given(page, loads, past, i) + [] == Given(page, loads, past, i);
      }
    }
  }

  lemma ExpectedUnfinished(c: Console, i: nat, completion: Completion)
    requires Inv(c, 0) && i < |c.remotes| && Expected(c.remotes[i], completion)
    ensures !c.remotes[i].finished
  {
  }

  // ----- when the answers come as sockets give them -----

  // All the completions that name the session.
  function Named(events: seq<Event>, i: nat): seq<Completion> {
    if events == [] then []
    else
      var e := events[|events| - 1];
      Named(events[..|events| - 1], i) + if e.Remotely? && e.i == i then [e.completion] else []
  }

  lemma InOrderPrefix(commands: seq<string>, answers: seq<Completion>, c: Completion)
    requires InOrder(commands, answers + [c])
    ensures InOrder(commands, answers) && Answers(Due(commands, answers), c)
  {
    var all := answers + [c];
    forall k | 0 <= k < |answers| ensures Answers(Due(commands, answers[..k]), answers[k]) { assert all[..k] == answers[..k] && all[k] == answers[k]; }
    assert all[..|answers|] == answers;
  }

  // Nothing is lost: if every completion answers the operation under way, each of them reaches the session, which so
  // receives exactly the pieces its socket delivered until it ends.
  lemma {:induction false} NothingLost(page: string, loads: seq<Load>, events: seq<Event>, i: nat)
    requires i < |loads| && loads[i].Loaded? && InOrder(loads[i].commands, Named(events, i))
    ensures Given(page, loads, events, i) == Named(events, i)
    ensures |Reach(page, loads, events).remotes| == |loads|
    ensures Reach(page, loads, events).remotes[i].received == Chunks(Named(events, i))
  {
    if events != [] {
      var past, e := events[..|events| - 1], events[|events| - 1];
      SessionsTold(page, loads, past, i);
      if e.Remotely? && e.i == i {
        InOrderPrefix(loads[i].commands, Named(past, i), e.completion);
        NothingLost(page, loads, past, i);
        assert Expected(Reach(page, loads, past).remotes[i], e.completion);
      } else {
        assert Named(past, i) + [] == Named(past, i);
        NothingLost(page, loads, past, i);
      }
    }
    SessionsTold(page, loads, events, i);
  }

  lemma InOrderSnoc(commands: seq<string>, answers: seq<Completion>, c: Completion)
    requires InOrder(commands, answers) && Answers(Due(commands, answers), c)
    ensures InOrder(commands, answers + [c])
  {
    var all := answers + [c];
    forall k | 0 <= k < |all| ensures Answers(Due(commands, all[..k]), all[k]) {
      if k < |answers| { assert all[..k] == answers[..k]; } else { assert all[..k] == answers; }
    }
  }

  // What a session has been given is always in order.
  lemma {:induction false} GivenInOrder(page: string, loads: seq<Load>, events: seq<Event>, i: nat)
    requires i < |loads| && loads[i].Loaded?
    ensures InOrder(loads[i].commands, Given(page, loads, events, i))
  {
    if events != [] {
      var past, e := events[..|events| - 1], events[|events| - 1];
      GivenInOrder(page, loads, past, i);
      SessionsTold(page, loads, past, i);
      var c, given := Reach(page, loads, past), Given(page, loads, past, i);
      if e.Remotely? && e.i == i && Expected(c.remotes[i], e.completion) {
        InOrderSnoc(loads[i].commands, given, e.completion);
      } else {
        assert given + [] == given;
      }
    }
  }

  // ----- what waiting means -----

  function SentSoFar(commands: seq<string>, answers: seq<Completion>): nat {
    var n := Attempts(Chunks(answers));
    if n < |commands| then n else |commands|
  }

  ghost predicate Settled(commands: seq<string>, answers: seq<Completion>) {
    var due, sent := Due(commands, answers), SentSoFar(commands, answers);
    && (due == Resolve || due == Connect ==> !WasConnected(answers) && sent == 0 && WritesDone(answers) == 0)
    && (due == Read ==> WasConnected(answers) && WritesDone(answers) == sent)
    && (due == Write ==> WasConnected(answers) && WritesDone(answers) + 1 == sent)
  }

  lemma {:induction false} WaitingMeans(commands: seq<string>, answers: seq<Completion>)
    requires InOrder(commands, answers)
    ensures Settled(commands, answers)
  {
    hide Settled, InOrder;
    if answers == [] {
      NothingSettled(commands);
    } else {
      var past, c := answers[..|answers| - 1], answers[|answers| - 1];
      assert answers == past + [c];
      InOrderPrefix(commands, past, c);
      WaitingMeans(commands, past);
      if c.ReadSome? && c.ok { ReadSettles(commands, past, c.content); } else { OtherSettles(commands, past, c); }
    }
  }

  lemma NothingSettled(commands: seq<string>)
    ensures Settled(commands, [])
  {
  }

  lemma ReadSettles(commands: seq<string>, past: seq<Completion>, content: string)
    requires Settled(commands, past) && Answers(Due(commands, past), ReadSome(true, content))
    ensures Settled(commands, past + [ReadSome(true, content)])
  {
    hide Due, Attempts;
    var c := ReadSome(true, content);
    ChunksSnoc(past, c);
    ConnectedSnoc(past, c);
    DueAfterRead(commands, past, content);
    AttemptsSnoc(Chunks(past), content);
    assert (past + [c])[..|past|] == past;
  }

  lemma OtherSettles(commands: seq<string>, past: seq<Completion>, c: Completion)
    requires Settled(commands, past) && Answers(Due(commands, past), c) && !(c.ReadSome? && c.ok)
    ensures Settled(commands, past + [c])
  {
    ChunksSnoc(past, c);
    ConnectedSnoc(past, c);
    var all := past + [c];
    assert all[..|past|] == past && all[|all| - 1] == c && Chunks(all) == Chunks(past);
    assert SentSoFar(commands, all) == SentSoFar(commands, past);
    assert WritesDone(all) == WritesDone(past) + if c == Wrote(true) then 1 else 0;
  }

  lemma ConnectedSnoc(answers: seq<Completion>, c: Completion)
    ensures WasConnected(answers + [c]) <==> WasConnected(answers) || (c.Connected? && c.ok)
  {
    var all := answers + [c];
    if WasConnected(answers) {
      var k :| 0 <= k < |answers| && answers[k].Connected? && answers[k].ok;
      assert all[k].Connected? && all[k].ok;
    }
    assert all[|answers|] == c;
  }

  // An unfinished session waits for output exactly when it is connected and every command it has begun to send has been
  // written.
  lemma ReadsExactlyWhen(page: string, loads: seq<Load>, events: seq<Event>, i: nat)
    requires i < |loads| && loads[i].Loaded?
    ensures |Reach(page, loads, events).remotes| == |loads|
    ensures var r, given := Reach(page, loads, events).remotes[i], Given(page, loads, events, i);
      r.waiting == Read <==> !r.finished && WasConnected(given) && WritesDone(given) == |r.sent|
  {
    SessionsTold(page, loads, events, i);
    GivenInOrder(page, loads, events, i);
    WaitingMeans(loads[i].commands, Given(page, loads, events, i));
  }

  // ----- the column of a session, in order -----

  // What the last answer shows: a piece of output and then the command it prompts, or why the shell was not reached.
  function Shows(id: nat, commands: seq<string>, answers: seq<Completion>): seq<Output>
    requires answers != []
  {
    match answers[|answers| - 1]
    case Resolved(ok, message) => if ok then [] else [Script(id, message + "\n", false)]
    case Connected(ok, message) => if ok then [] else [Script(id, message + "\n", false)]
    case Wrote(_) => []
    case ReadSome(ok, content) =>
      var n := Attempts(Chunks(answers));
      if !ok then []
      else [Script(id, content, false)] +
           if Due(commands, answers) == Write && 1 <= n <= |commands| then [Script(id, commands[n - 1], true)] else []
  }

  function Transcript(id: nat, load: Load, answers: seq<Completion>): seq<Output> {
    match load
    case Missing(message) => [Script(id, message + "\n", false)]
    case Loaded(commands) =>
      if answers == [] then [] else Transcript(id, load, answers[..|answers| - 1]) + Shows(id, commands, answers)
  }

  function OutputsFor(outputs: seq<Output>, i: nat): seq<Output> {
    if outputs == [] then []
    else
      var o := outputs[|outputs| - 1];
      OutputsFor(outputs[..|outputs| - 1], i) + if o.Script? && o.id == i then [o] else []
  }

  lemma {:induction false} OutputsForConcat(a: seq<Output>, b: seq<Output>, i: nat)
    ensures OutputsFor(a + b, i) == OutputsFor(a, i) + OutputsFor(b, i)
  {
    if b == [] {
      assert a + b == a;
    } else {
      var init := b[..|b| - 1];
      OutputsForConcat(a, init, i);
      assert (a + b)[..|a + b| - 1] == a + init;
    }
  }

  lemma CallbackShows(r: Remote, load: Load, answers: seq<Completion>, c: Completion)
    requires Told(r, load, answers) && !r.finished && Expected(r, c)
    ensures Callback(r, c).1 == Shows(r.id, r.commands, answers + [c])
  {
    ChunksSnoc(answers, c);
    if c.ReadSome? && c.ok {
      DueAfterRead(load.commands, answers, c.content);
      AttemptsSnoc(Chunks(answers), c.content);
    }
  }

  lemma {:induction false} NoneFor(outputs: seq<Output>, i: nat)
    requires forall k :: 0 <= k < |outputs| ==> outputs[k].Script? && outputs[k].id != i
    ensures OutputsFor(outputs, i) == []
  {
    if outputs != [] { NoneFor(outputs[..|outputs| - 1], i); }
  }

  lemma {:induction false} AllFor(outputs: seq<Output>, i: nat)
    requires forall k :: 0 <= k < |outputs| ==> outputs[k].Script? && outputs[k].id == i
    ensures OutputsFor(outputs, i) == outputs
  {
    if outputs != [] {
      var n := |outputs| - 1;
      AllFor(outputs[..n], i);
      assert outputs == outputs[..n] + [outputs[n]];
    }
  }

  lemma CallbackSigned(r: Remote, c: Completion)
    ensures var outputs := Callback(r, c).1; forall k :: 0 <= k < |outputs| ==> outputs[k].Script? && outputs[k].id == r.id
  {
  }

  lemma StartSigned(id: nat, load: Load)
    ensures var outputs := StartRemote(id, load).1; forall k :: 0 <= k < |outputs| ==> outputs[k].Script? && outputs[k].id == id
    ensures StartRemote(id, load).1 == Transcript(id, load, [])
  {
  }

  // What one session shows is in its own column, and nobody else's.
  lemma OwnColumn(history: seq<Output>, outputs: seq<Output>, id: nat, i: nat)
    requires forall k :: 0 <= k < |outputs| ==> outputs[k].Script? && outputs[k].id == id
    ensures OutputsFor(history + outputs, i) == OutputsFor(history, i) + if id == i then outputs else []
  {
    OutputsForConcat(history, outputs, i);
    if id == i { AllFor(outputs, i); } else { NoneFor(outputs, i); }
  }

  lemma {:induction false} StartAllShows(h: Http, loads: seq<Load>, n: nat, i: nat)
    requires n <= |loads| && Queued(h) && !h.closing && h.active == |loads| > 0 && OutputsFor(h.history, i) == []
    ensures OutputsFor(StartAll(h, loads, n).http.history, i) == if i < n then Transcript(i, loads[i], []) else []
  {
    hide Absorb, StartRemote, Transcript;
    if n > 0 {
      StartAllShows(h, loads, n - 1, i);
      StartAllKeeps(h, loads, n - 1);
      var c := StartAll(h, loads, n - 1);
      var (r, outputs, done) := StartRemote(n - 1, loads[n - 1]);
      AbsorbKeeps(c.http, outputs, done);
      StartSigned(n - 1, loads[n - 1]);
      OwnColumn(c.http.history, outputs, n - 1, i);
    }
  }

  lemma PageEnqueued(page: string, n: nat)
    ensures var h := Enqueue(FRESH_HTTP, Page(page)).(active := n);
      h.history == [Page(page)] && Queued(h) && !h.closing && forall i: nat :: OutputsFor(h.history, i) == []
  {
    assert [Page(page)][..0] == [];
  }

  lemma BeginShows(page: string, loads: seq<Load>, i: nat)
    requires i < |loads|
    ensures OutputsFor(Begin(page, loads).http.history, i) == Transcript(i, loads[i], [])
  {
    hide Enqueue, Queued, StartAll, OutputsFor;
    PageEnqueued(page, |loads|);
    StartAllShows(Enqueue(FRESH_HTTP, Page(page)).(active := |loads|), loads, |loads|, i);
  }

  lemma CallbackWrites(c: Console, j: nat, completion: Completion)
    requires Inv(c, 0) && j < |c.remotes| && Expected(c.remotes[j], completion)
    ensures var outputs := Callback(c.remotes[j], completion).1;
      && Next(c, Remotely(j, completion)).http.history == c.http.history + outputs
      && forall k :: 0 <= k < |outputs| ==> outputs[k].Script? && outputs[k].id == j
  {
    CallbackGoesOn(c, j, completion);
    CallbackSigned(c.remotes[j], completion);
  }

  // What has been enqueued for the column of a session, scripts of text and of commands in one order, is exactly what
  // its answers show, whatever the other sessions do meanwhile.
  lemma {:induction false} ColumnInOrder(page: string, loads: seq<Load>, events: seq<Event>, i: nat)
    requires i < |loads|
    ensures OutputsFor(Reach(page, loads, events).http.history, i) == Transcript(i, loads[i], Given(page, loads, events, i))
  {
    hide Callback, Told, Shows, Begin, Absorb;
    if events == [] {
      BeginShows(page, loads, i);
    } else {
      var past, e := events[..|events| - 1], events[|events| - 1];
      ColumnInOrder(page, loads, past, i);
      SessionsTold(page, loads, past, i);
      ReachInv(page, loads, past);
      var c, given := Reach(page, loads, past), Given(page, loads, past, i);
      if e.Remotely? && e.i < |c.remotes| && Expected(c.remotes[e.i], e.completion) {
        CallbackWrites(c, e.i, e.completion);
        OwnColumn(c.http.history, Callback(c.remotes[e.i], e.completion).1, e.i, i);
        if e.i == i { OneMoreAnswer(c, i, loads[i], given, e.completion); } else { assert given + [] == given; }
      } else {
        assert given + [] == given;
      }
    }
  }

  lemma OneMoreAnswer(c: Console, i: nat, load: Load, given: seq<Completion>, completion: Completion)
    requires Inv(c, 0) && i < |c.remotes| && Told(c.remotes[i], load, given) && Expected(c.remotes[i], completion)
    ensures Transcript(i, load, given + [completion]) == Transcript(i, load, given) + Callback(c.remotes[i], completion).1
  {
    ExpectedUnfinished(c, i, completion);
    CallbackShows(c.remotes[i], load, given, completion);
    assert (given + [completion])[..|given|] == given;
  }

  // ----- the page comes first -----

  // The page, and behind it nothing but scripts.
  predicate PageThenScripts(outputs: seq<Output>, page: string) {
    outputs != [] && outputs[0] == Page(page) && forall n :: 0 < n < |outputs| ==> outputs[n].Script?
  }

  lemma {:induction false} StartAllKeepsFirst(h: Http, loads: seq<Load>, n: nat, page: string)
    requires n <= |loads| && Queued(h) && !h.closing && h.active == |loads| > 0 && PageThenScripts(h.history, page)
    ensures PageThenScripts(StartAll(h, loads, n).http.history, page)
  {
    hide Absorb;
    if n > 0 {
      StartAllKeepsFirst(h, loads, n - 1, page);
      StartAllKeeps(h, loads, n - 1);
      var (r, outputs, done) := StartRemote(n - 1, loads[n - 1]);
      AbsorbKeeps(StartAll(h, loads, n - 1).http, outputs, done);
    }
  }

  // The browser is given the page before anything else, and only once.
  lemma {:induction false} PageFirst(page: string, loads: seq<Load>, events: seq<Event>)
    ensures PageThenScripts(Reach(page, loads, events).http.history, page)
  {
    hide Callback, Absorb;
    if events == [] {
      var h := Enqueue(FRESH_HTTP, Page(page)).(active := |loads|);
      assert h.history == [Page(page)];
      if |loads| > 0 { StartAllKeepsFirst(h, loads, |loads|, page); }
    } else {
      var past, e := events[..|events| - 1], events[|events| - 1];
      PageFirst(page, loads, past);
      ReachInv(page, loads, past);
      var c := Reach(page, loads, past);
      if e.Remotely? && e.i < |c.remotes| && Expected(c.remotes[e.i], e.completion) { CallbackWrites(c, e.i, e.completion); }
    }
  }
}
