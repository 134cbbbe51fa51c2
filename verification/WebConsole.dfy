/** The objects of the web console: the browser connection and the remote sessions that call back into it. */
module WebConsole {
  import opened ConsoleModel
  import opened Prompts

  class CgiHttpSession {
    var pending: seq<Output>
    var activeRemotes: nat
    var closing: bool
    // The socket: whether it is open and whether a write is under way.
    var open: bool
    var inFlight: bool
    ghost var failed: bool
    ghost var written: seq<Output>
    ghost var history: seq<Output>
    ghost var closes: nat
    ghost var overlaps: nat

    ghost function State(): Http
      reads this
    {
      Http(pending, activeRemotes, closing, open, inFlight, failed, written, history, closes, overlaps)
    }

    constructor ()
      ensures State() == FRESH_HTTP
    {
      pending, activeRemotes, closing, open, inFlight := [], 0, false, true, false;
      failed, written, history, closes, overlaps := false, [], [], 0, 0;
    }

    method BeginWrite()
      modifies this
      ensures State() == old(State()).(inFlight := true, overlaps := old(overlaps) + if old(inFlight) then 1 else 0)
    {
      overlaps := overlaps + if inFlight then 1 else 0;
      inFlight := true;
    }

    method Close()
      modifies this
      ensures State() == old(State()).(open := false, closes := old(closes) + 1)
    {
      open := false;
      closes := closes + 1;
    }

    method DoWrite()
      modifies this
      ensures State() == ConsoleModel.DoWrite(old(State()))
    {
      if pending == [] {
        if closing {
          Close();
        }
        return;
      }
      BeginWrite();
    }

    // The completion handler of the write of the front of the queue.
    method OnWritten(ok: bool)
      requires pending != []
      modifies this
      ensures State() == WriteEnds(old(State()), ok)
    {
      inFlight := false;
      if !ok {
        open := false;
        failed := true;
        return;
      }
      written := written + [pending[0]];
      pending := pending[1..];
      DoWrite();
    }

    method Enqueue(output: Output)
      modifies this
      ensures State() == ConsoleModel.Enqueue(old(State()), output)
    {
      var writing := pending != [];
      pending := pending + [output];
      history := history + [output];
      if !writing {
        DoWrite();
      }
    }

    method CloseWhenDrained()
      modifies this
      ensures State() == ConsoleModel.CloseWhenDrained(old(State()))
    {
      closing := true;
      if pending == [] {
        DoWrite();
      }
    }

    method RemoteDone()
      modifies this
      ensures State() == ConsoleModel.RemoteDone(old(State()))
    {
      if activeRemotes > 0 {
        activeRemotes := activeRemotes - 1;
      }
      if activeRemotes == 0 {
        CloseWhenDrained();
      }
    }
  }

  class RemoteBatchSession {
    const http: CgiHttpSession
    const id: nat
    var commands: seq<string>
    var nextCommand: nat
    var lastCharWasPercent: bool
    var finished: bool
    var waiting: Wait
    ghost var sent: seq<string>
    ghost var received: seq<string>
    ghost var complaint: string
    ghost var dones: nat

    ghost function State(): Remote
      reads this
    {
      Remote(id, commands, nextCommand, lastCharWasPercent, finished, waiting, sent, received, complaint, dones)
    }

    constructor (http: CgiHttpSession, id: nat)
      ensures this.http == http && State() == NewRemote(id)
    {
      this.http, this.id := http, id;
      commands, nextCommand, lastCharWasPercent, finished, waiting := [], 0, false, false, Idle;
      sent, received, complaint, dones := [], [], "", 0;
    }

    // Both ends of the callbacks: this session and the browser connection.
    twostate predicate Answered(after: Remote, outputs: seq<Output>, done: bool)
      reads this, http
    {
      State() == after && http.State() == Absorb(old(http.State()), outputs, done)
    }

    method Finish()
      modifies this, http
      ensures !old(finished) ==> Answered(ConsoleModel.Finish(old(State())), [], true)
      ensures old(finished) ==> State() == old(State()) && http.State() == old(http.State())
    {
      if finished {
        return;
      }
      finished := true;
      waiting := Idle;
      dones := dones + 1;
      http.RemoteDone();
    }

    method Show(content: string, command: bool)
      modifies http
      ensures http.State() == Absorb(old(http.State()), [Script(id, content, command)], false)
    {
      var script := Script(id, content, command);
      EnqueueOne(http.State(), script);
      http.Enqueue(script);
    }

    method ShowAndFinish(message: string)
      requires !finished
      modifies this, http
      ensures var (after, outputs, done) := Complain(old(State()), message); Answered(after, outputs, done)
    {
      complaint := message + "\n";
      Show(message + "\n", false);
      Finish();
    }

    // load is what reading the command file gave.
    method Start(load: Load)
      requires State() == NewRemote(id)
      modifies this, http
      ensures var (after, outputs, done) := StartRemote(id, load); Answered(after, outputs, done)
    {
      match load {
        case Missing(message) => ShowAndFinish(message);
        case Loaded(cs) =>
          commands := cs;
          waiting := Resolve;
      }
    }

    method OnResolved(ok: bool, message: string)
      requires waiting == Resolve && !finished
      modifies this, http
      ensures var (after, outputs, done) := Callback(old(State()), Resolved(ok, message)); Answered(after, outputs, done)
    {
      if !ok {
        ShowAndFinish(message);
        return;
      }
      waiting := Connect;
    }

    method OnConnected(ok: bool, message: string)
      requires waiting == Connect && !finished
      modifies this, http
      ensures var (after, outputs, done) := Callback(old(State()), Connected(ok, message)); Answered(after, outputs, done)
    {
      if !ok {
        ShowAndFinish(message);
        return;
      }
      waiting := Read;
    }

    method SendNextCommand()
      requires !finished
      modifies this, http
      ensures var (after, outputs, done) := SendNext(old(State())); Answered(after, outputs, done)
    {
      if nextCommand >= |commands| {
        Finish();
        return;
      }
      var command := commands[nextCommand];
      nextCommand := nextCommand + 1;
      Show(command, true);
      sent := sent + [command];
      waiting := Write;
    }

    method OnRead(ok: bool, content: string)
      requires waiting == Read && !finished
      modifies this, http
      ensures var (after, outputs, done) := Callback(old(State()), ReadSome(ok, content)); Answered(after, outputs, done)
    {
      if !ok {
        Finish();
        return;
      }
      Show(content, false);
      received := received + [content];
      var found := FindPrompt(content);
      var hasPrompt := found || (lastCharWasPercent && content != "" && content[0] == SPACE);
      lastCharWasPercent := content != "" && content[|content| - 1] == PERCENT;
      if hasPrompt {
        ghost var shown, between := Script(id, content, false), old(http.State());
        SendNextCommand();
        AbsorbInTurn(between, [shown], SendNext(old(State()).(lastCharWasPercent := EndsInPercent(content), received := received)).1,
                     finished);
      } else {
        waiting := Read;
      }
    }

    method Accept(c: Completion)
      requires Expected(State(), c) ==> !finished
      modifies this, http
      ensures Expected(old(State()), c) ==> var (after, outputs, done) := Callback(old(State()), c); Answered(after, outputs, done)
      ensures !Expected(old(State()), c) ==> State() == old(State()) && http.State() == old(http.State())
    {
      match c {
        case Resolved(ok, message) => if waiting == Resolve { OnResolved(ok, message); }
        case Connected(ok, message) => if waiting == Connect { OnConnected(ok, message); }
        case ReadSome(ok, content) => if waiting == Read && (!ok || content != "") { OnRead(ok, content); }
        case Wrote(ok) => if waiting == Write { OnSent(ok); }
      }
    }

    method OnSent(ok: bool)
      requires waiting == Write && !finished
      modifies this, http
      ensures var (after, outputs, done) := Callback(old(State()), Wrote(ok)); Answered(after, outputs, done)
    {
      if !ok {
        Finish();
        return;
      }
      waiting := Read;
    }
  }

  // The connection together with the sessions it has started.
  class ConsoleRequest {
    const http: CgiHttpSession
    var remotes: seq<RemoteBatchSession>

    constructor ()
      ensures fresh(http) && http.State() == FRESH_HTTP && remotes == []
    {
      http := new CgiHttpSession();
      remotes := [];
    }

    // The sessions all report to the connection, and no two are one.
    ghost predicate Together()
      reads this, remotes
    {
      && (forall i :: 0 <= i < |remotes| ==> remotes[i].http == http)
      && (forall i, j :: 0 <= i < j < |remotes| ==> remotes[i] != remotes[j])
    }

    ghost function Remotes(): (states: seq<Remote>)
      reads this, remotes
      ensures |states| == |remotes| && forall i :: 0 <= i < |remotes| ==> states[i] == remotes[i].State()
    {
      seq(|remotes|, i requires 0 <= i < |remotes| reads this, remotes => remotes[i].State())
    }

    ghost function Both(): Console
      reads this, http, remotes
    {
      Console(http.State(), Remotes())
    }

    method StartOne(i: nat, load: Load)
      requires Together() && |remotes| == i
      modifies this, http
      ensures Together() && |remotes| == i + 1 && remotes[..i] == old(remotes) && fresh(remotes[i])
      ensures var (r, outputs, done) := StartRemote(i, load);
        Both() == Console(Absorb(old(http.State()), outputs, done), old(Remotes()) + [r])
    {
      var remote := new RemoteBatchSession(http, i);
      remotes := remotes + [remote];
      remote.Start(load);
      assert Remotes()[..i] == old(Remotes());
    }

    // loads are the command files, opened when a session starts.
    method StartRemoteSessions(loads: seq<Load>)
      requires remotes == []
      modifies this, http
      ensures Together() && fresh(remotes)
      ensures |loads| == 0 ==> Both() == Console(ConsoleModel.CloseWhenDrained(old(http.State()).(active := 0)), [])
      ensures |loads| > 0 ==> Both() == StartAll(old(http.State()).(active := |loads|), loads, |loads|)
    {
      http.activeRemotes := |loads|;
      if http.activeRemotes == 0 {
        http.CloseWhenDrained();
        return;
      }
      ghost var h := http.State();
      var i := 0;
      while i < |loads|
        invariant 0 <= i <= |loads| && Together() && fresh(remotes)
        invariant Both() == StartAll(h, loads, i)
      {
        StartOne(i, loads[i]);
        i := i + 1;
      }
    }

    // A request for the console page.
    method ServeConsole(page: string, loads: seq<Load>)
      requires http.State() == FRESH_HTTP && remotes == []
      modifies this, http
      ensures Together() && fresh(remotes) && Both() == Begin(page, loads)
    {
      http.Enqueue(Page(page));
      StartRemoteSessions(loads);
    }

    // The callback of whatever completes next.
    method Complete(e: Event)
      requires Together() && Inv(Both(), 0)
      modifies http, remotes
      ensures Both() == Next(old(Both()), e)
    {
      hide Unfinished;
      match e {
        case WriteEnded(ok) =>
          if http.inFlight && http.pending != [] {
            http.OnWritten(ok);
          }
        case Remotely(i, completion) =>
          if i < |remotes| {
            assert Behaves(Remotes()[i]);
            remotes[i].Accept(completion);
          }
      }
      assert Remotes() == Next(old(Both()), e).remotes;
    }

    // The io_context runs: completions in any order.
    method Run(page: string, loads: seq<Load>, events: seq<Event>)
      requires http.State() == FRESH_HTTP && remotes == []
      modifies this, http
      ensures Both() == Reach(page, loads, events)
    {
      ServeConsole(page, loads);
      var n := 0;
      assert events[..0] == [];
      while n < |events|
        invariant 0 <= n <= |events| && Together() && fresh(remotes)
        invariant Both() == Reach(page, loads, events[..n])
      {
        ReachInv(page, loads, events[..n]);
        ReachSnoc(page, loads, events, n);
        Complete(events[n]);
        n := n + 1;
      }
      assert events[..n] == events;
    }
  }

  lemma EnqueueOne(h: Http, output: Output)
    ensures EnqueueAll(h, [output]) == ConsoleModel.Enqueue(h, output)
  {
    assert [output][..|[output]| - 1] == [] && EnqueueAll(h, []) == h;
  }

  // Outputs given one after the other are outputs given together.
  lemma {:induction false} EnqueueInTurn(h: Http, a: seq<Output>, b: seq<Output>)
    ensures EnqueueAll(EnqueueAll(h, a), b) == EnqueueAll(h, a + b)
  {
    if b == [] {
      assert a + b == a;
    } else {
      EnqueueInTurn(h, a, b[..|b| - 1]);
      assert (a + b)[..|a + b| - 1] == a + b[..|b| - 1];
    }
  }

  lemma AbsorbInTurn(h: Http, a: seq<Output>, b: seq<Output>, done: bool)
    ensures Absorb(Absorb(h, a, false), b, done) == Absorb(h, a + b, done)
  {
    EnqueueInTurn(h, a, b);
  }
}
