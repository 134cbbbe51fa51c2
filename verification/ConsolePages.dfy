/** The bytes behind the console's outputs, and what the browser makes of a column. */
module ConsolePages {
  import opened ConsoleModel
  import opened ConsoleSessions
  import opened Decimals
  import opened Escapes
  import opened Prompts

  // What is written to the browser for an output.
  function Rendered(o: Output): string {
    match o
    case Page(html) => html
    case Script(id, content, command) => MakeConsoleScript(id, content, command)
  }

  // The text scripts of a column append this to it, one after the other.
  function ColumnHtml(outputs: seq<Output>, i: nat): string {
    if outputs == [] then ""
    else ColumnHtml(outputs[..|outputs| - 1], i) + Html(TextIn(outputs[|outputs| - 1], i))
  }

  // Each script really carries what it appends: a browser reading it appends exactly that, to the element of its session.
  lemma RenderedCarries(o: Output)
    requires o.Script? && !o.command
    ensures ReadScript(Rendered(o)) == Appends("s" + Decimal(o.id), Html(TextIn(o, o.id)))
  {
    ScriptAdds(o.id, o.content, false);
  }

  // What a browser has in an element once it has read everything after the page.
  function ElementHtml(outputs: seq<Output>, element: string): string {
    if outputs == [] then ""
    else
      var change := ReadScript(Rendered(outputs[|outputs| - 1]));
      ElementHtml(outputs[..|outputs| - 1], element) + if change.Appends? && change.element == element then change.text else ""
  }

  // The outputs of one session, in order, commands in bold.
  function Shown(outputs: seq<Output>): string {
    if outputs == [] then ""
    else
      var o := outputs[|outputs| - 1];
      Shown(outputs[..|outputs| - 1]) +
      if o.Page? then "" else if o.command then "<b>" + Html(o.content) + "</b>" else Html(o.content)
  }

  predicate Scripts(outputs: seq<Output>) {
    forall n :: 0 <= n < |outputs| ==> outputs[n].Script?
  }

  // The element of a session holds what that session put out, in its order, and nothing of the others.
  lemma {:induction false} ElementShowsSession(outputs: seq<Output>, i: nat)
    requires Scripts(outputs)
    ensures ElementHtml(outputs, "s" + Decimal(i)) == Shown(OutputsFor(outputs, i))
  {
    if outputs != [] {
      var past, o := outputs[..|outputs| - 1], outputs[|outputs| - 1];
      ElementShowsSession(past, i);
      ScriptAdds(o.id, o.content, o.command);
      ElementsDiffer(o.id, i);
      var mine := OutputsFor(past, i);
      assert (mine + [o])[..|mine|] == mine && mine + [] == mine;
    }
  }

  // The browser's page, from the bytes: whatever the sessions' sockets have answered and however that interleaved, the
  // element of a session holds exactly what its own answers show, text and commands in one order.
  lemma ElementInOrder(page: string, loads: seq<Load>, events: seq<Event>, i: nat)
    requires i < |loads|
    ensures var history := Reach(page, loads, events).http.history;
      && history != [] && history[0] == Page(page)
      && ElementHtml(history[1..], "s" + Decimal(i)) == Shown(Transcript(i, loads[i], Given(page, loads, events, i)))
  {
    hide Reach, Transcript, Given, ElementHtml, Shown, OutputsFor;
    var history := Reach(page, loads, events).http.history;
    PageFirst(page, loads, events);
    ColumnInOrder(page, loads, events, i);
    ElementShowsSession(history[1..], i);
    BehindPage(history, page, i);
  }

  lemma BehindPage(history: seq<Output>, page: string, i: nat)
    requires PageThenScripts(history, page)
    ensures OutputsFor(history[1..], i) == OutputsFor(history, i)
  {
    assert history == [Page(page)] + history[1..] && [Page(page)][..0] == [];
    OutputsForConcat([Page(page)], history[1..], i);
  }

  lemma {:induction false} ColumnHtmlIsEscapedText(outputs: seq<Output>, i: nat)
    ensures ColumnHtml(outputs, i) == Html(TextOf(outputs, i))
  {
    if outputs != [] {
      var n := |outputs| - 1;
      ColumnHtmlIsEscapedText(outputs[..n], i);
      EscapedConcat(HtmlChar, TextOf(outputs[..n], i), TextIn(outputs[n], i));
    }
  }

  // From the remote shell to the eye: in every reachable state the column of a session shows the stream received, and
  // the complaint if it could not be reached, without carriage returns, however it was cut and interleaved.
  lemma ColumnShowsStream(page: string, loads: seq<Load>, events: seq<Event>, i: nat)
    requires i < |Reach(page, loads, events).remotes|
    ensures var c := Reach(page, loads, events);
      DecodeHtml(ColumnHtml(c.http.history, i)) == WithoutReturns(Joined(c.remotes[i].received) + c.remotes[i].complaint)
  {
    var c := Reach(page, loads, events);
    ColumnsAreStreams(page, loads, events, i);
    ColumnHtmlIsEscapedText(c.http.history, i);
    HtmlShows(TextOf(c.http.history, i));
  }
}
