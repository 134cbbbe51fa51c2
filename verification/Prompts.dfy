/** Finding the shell prompt "% " in a stream that arrives in pieces, as both consoles do. */
module Prompts {
  const PERCENT := '%'
  const SPACE := ' '

  // A prompt of the text ends at position i.
  predicate PromptEndsAt(text: string, i: int) {
    1 <= i < |text| && text[i - 1] == PERCENT && text[i] == SPACE
  }

  ghost predicate HasPrompt(text: string) {
    exists i :: PromptEndsAt(text, i)
  }

  // string::find for the two-character prompt.
  method FindPrompt(text: string) returns (found: bool)
    ensures found <==> HasPrompt(text)
  {
    var i := 1;
    while i < |text|
      invariant 1 <= i && forall j :: PromptEndsAt(text, j) ==> j >= i
    {
      if text[i - 1] == PERCENT && text[i] == SPACE {
        assert PromptEndsAt(text, i);
        return true;
      }
      i := i + 1;
    }
    return false;
  }

  function Joined(chunks: seq<string>): string {
    if chunks == [] then "" else Joined(chunks[..|chunks| - 1]) + chunks[|chunks| - 1]
  }

  predicate EndsInPercent(text: string) {
    text != "" && text[|text| - 1] == PERCENT
  }

  lemma JoinedSnoc(chunks: seq<string>, j: nat)
    requires j < |chunks|
    ensures Joined(chunks[..j + 1]) == Joined(chunks[..j]) + chunks[j]
  {
    assert chunks[..j + 1][..j] == chunks[..j];
  }

  // ----- the console that remembers one flag -----

  // What the read callback computes from the flag and the new chunk.
  ghost predicate Prompted(percent: bool, chunk: string) {
    HasPrompt(chunk) || (percent && chunk != "" && chunk[0] == SPACE)
  }

  // The flag when chunk j arrives.
  predicate FlagBefore(chunks: seq<string>, j: nat)
    requires j <= |chunks|
  {
    j > 0 && EndsInPercent(chunks[j - 1])
  }

  lemma FlagIsLastCharacter(chunks: seq<string>, j: nat)
    requires j <= |chunks| && forall k :: 0 <= k < |chunks| ==> chunks[k] != ""
    ensures FlagBefore(chunks, j) == EndsInPercent(Joined(chunks[..j]))
  {
    if j > 0 { JoinedSnoc(chunks, j - 1); }
  }

  // A piece added to a text completes a prompt exactly if it holds one, or begins with the space of one.
  lemma AddedPrompt(text: string, chunk: string)
    ensures (exists i :: |text| <= i && PromptEndsAt(text + chunk, i)) <==> Prompted(EndsInPercent(text), chunk)
  {
    var all := text + chunk;
    if Prompted(EndsInPercent(text), chunk) {
      if i :| PromptEndsAt(chunk, i) {
        assert PromptEndsAt(all, |text| + i);
      } else {
        assert PromptEndsAt(all, |text|);
      }
    }
    if i :| |text| <= i && PromptEndsAt(all, i) {
      if i > |text| { assert PromptEndsAt(chunk, i - |text|); }
    }
  }

  // However the stream is cut into chunks, chunk j triggers exactly when a prompt of the whole stream has its space in
  // that chunk.
  lemma ChunkTriggersExactly(chunks: seq<string>, j: nat)
    requires j < |chunks| && forall k :: 0 <= k < |chunks| ==> chunks[k] != ""
    ensures Prompted(FlagBefore(chunks, j), chunks[j]) <==>
      exists i :: |Joined(chunks[..j])| <= i < |Joined(chunks[..j + 1])| && PromptEndsAt(Joined(chunks), i)
  {
    var before, upTo := Joined(chunks[..j]), Joined(chunks[..j + 1]);
    FlagIsLastCharacter(chunks, j);
    JoinedSnoc(chunks, j);
    AddedPrompt(before, chunks[j]);
    JoinedPrefix(chunks, j + 1);
    if Prompted(FlagBefore(chunks, j), chunks[j]) {
      var i :| |before| <= i && PromptEndsAt(upTo, i);
      assert PromptEndsAt(Joined(chunks), i);
    }
    if i :| |before| <= i < |upTo| && PromptEndsAt(Joined(chunks), i) {
      assert PromptEndsAt(upTo, i);
    }
  }

  lemma {:induction false} JoinedPrefix(chunks: seq<string>, j: nat)
    requires j <= |chunks|
    ensures Joined(chunks[..j]) <= Joined(chunks)
    decreases |chunks| - j
  {
    if j == |chunks| {
      assert chunks[..j] == chunks;
    } else {
      JoinedPrefix(chunks, j + 1);
      JoinedSnoc(chunks, j);
    }
  }

  // ----- counting -----

  // The prompts of a text.
  function PromptCount(text: string): nat {
    if text == "" then 0
    else PromptCount(text[..|text| - 1]) + if PromptEndsAt(text, |text| - 1) then 1 else 0
  }

  // The prompts that a chunk completes.
  function Completed(percent: bool, chunk: string): nat {
    if chunk == "" then 0
    else
      Completed(percent, chunk[..|chunk| - 1]) +
      if chunk[|chunk| - 1] == SPACE && (if |chunk| == 1 then percent else chunk[|chunk| - 2] == PERCENT) then 1 else 0
  }

  lemma {:induction false} PromptsAdd(text: string, chunk: string)
    ensures PromptCount(text + chunk) == PromptCount(text) + Completed(EndsInPercent(text), chunk)
  {
    if chunk == "" {
      assert text + chunk == text;
    } else {
      var init := chunk[..|chunk| - 1];
      PromptsAdd(text, init);
      assert (text + chunk)[..|text + chunk| - 1] == text + init;
    }
  }

  lemma {:induction false} CompletedPositive(percent: bool, chunk: string)
    ensures Completed(percent, chunk) > 0 <==> Prompted(percent, chunk)
  {
    if chunk != "" {
      var init, n := chunk[..|chunk| - 1], |chunk|;
      CompletedPositive(percent, init);
      if i :| PromptEndsAt(chunk, i) && i < n - 1 { assert PromptEndsAt(init, i); }
      if i :| PromptEndsAt(init, i) { assert PromptEndsAt(chunk, i); }
      if n > 1 && PromptEndsAt(chunk, n - 1) {}
    }
  }

  // How many of the chunks trigger.
  function Attempts(chunks: seq<string>): nat {
    if chunks == [] then 0
    else
      var j := |chunks| - 1;
      Attempts(chunks[..j]) + if Completed(FlagBefore(chunks, j), chunks[j]) > 0 then 1 else 0
  }

  // Never more attempts than prompts.
  lemma {:induction false} AttemptsBounded(chunks: seq<string>)
    requires forall k :: 0 <= k < |chunks| ==> chunks[k] != ""
    ensures Attempts(chunks) <= PromptCount(Joined(chunks))
  {
    if chunks != [] {
      var j := |chunks| - 1;
      AttemptsBounded(chunks[..j]);
      FlagIsLastCharacter(chunks, j);
      PromptsAdd(Joined(chunks[..j]), chunks[j]);
    }
  }

  ghost predicate OneAtATime(chunks: seq<string>) {
    forall j :: 0 <= j < |chunks| ==> Completed(FlagBefore(chunks, j), chunks[j]) <= 1
  }

  lemma OneAtATimeSnoc(chunks: seq<string>)
    requires chunks != []
    ensures var j := |chunks| - 1;
      OneAtATime(chunks) <==> OneAtATime(chunks[..j]) && Completed(FlagBefore(chunks, j), chunks[j]) <= 1
  {
    var j := |chunks| - 1;
    forall i | 0 <= i < j ensures FlagBefore(chunks[..j], i) == FlagBefore(chunks, i) && chunks[..j][i] == chunks[i] {}
  }

  // Every prompt gets its attempt exactly if no chunk completes two.
  lemma {:induction false} AttemptsArePrompts(chunks: seq<string>)
    requires forall k :: 0 <= k < |chunks| ==> chunks[k] != ""
    ensures Attempts(chunks) == PromptCount(Joined(chunks)) <==> OneAtATime(chunks)
  {
    if chunks != [] {
      var j := |chunks| - 1;
      AttemptsArePrompts(chunks[..j]);
      AttemptsBounded(chunks[..j]);
      OneAtATimeSnoc(chunks);
      FlagIsLastCharacter(chunks, j);
      PromptsAdd(Joined(chunks[..j]), chunks[j]);
    }
  }

  // If no chunk completes two prompts, the number of attempts does not depend on where the stream was cut.
  lemma SplitDoesNotMatter(a: seq<string>, b: seq<string>)
    requires forall k :: 0 <= k < |a| ==> a[k] != ""
    requires forall k :: 0 <= k < |b| ==> b[k] != ""
    requires OneAtATime(a) && OneAtATime(b) && Joined(a) == Joined(b)
    ensures Attempts(a) == Attempts(b)
  {
    AttemptsArePrompts(a);
    AttemptsArePrompts(b);
  }

  // One stream, cut in two ways: read at once, two prompts get one attempt; read one by one, each gets its own.
  lemma TwoAtOnceLoseOne()
    ensures Joined(["% % "]) == Joined(["% ", "% "]) && PromptCount(Joined(["% % "])) == 2
    ensures Attempts(["% % "]) == 1 && Attempts(["% ", "% "]) == 2
  {
    var whole, cut := ["% % "], ["% ", "% "];
    JoinedOne("% % ");
    JoinedOne("% ");
    assert cut[..1] == ["% "] && Joined(cut) == "% " + "% ";
    AttemptsArePrompts(cut);
    CompletedTwo();
    PromptsAdd("", "% % ");
    assert "" + "% % " == "% % ";
    assert whole[..0] == [] && Attempts(whole) == Attempts([]) + 1;
    assert forall j :: 0 <= j < |cut| ==> cut[j] == "% ";
    assert OneAtATime(cut) by {
      forall j | 0 <= j < |cut| ensures Completed(FlagBefore(cut, j), cut[j]) <= 1 { CompletedOne(FlagBefore(cut, j)); }
    }
  }

  lemma JoinedOne(chunk: string)
    ensures Joined([chunk]) == chunk
  {
    assert [chunk][..0] == [] && Joined([]) + chunk == chunk;
  }

  lemma CompletedOne(percent: bool)
    ensures Completed(percent, "% ") == 1
  {
    assert "%"[..0] == "" && Completed(percent, "") == 0;
    assert Completed(percent, "%") == 0;
    assert "% "[..1] == "%";
  }

  lemma CompletedTwo()
    ensures Completed(false, "% % ") == 2
  {
    var c := "% % ";
    assert c[..3] == "% %" && "% %"[..2] == "% ";
    CompletedOne(false);
  }

  // ----- the console that remembers one character -----

  class PromptTail {
    var promptTail: string
    // Everything received since the last prompt.
    ghost var unanswered: string

    ghost predicate Valid()
      reads this
    {
      && !HasPrompt(unanswered)
      && promptTail == if unanswered == "" then "" else [unanswered[|unanswered| - 1]]
    }

    constructor ()
      ensures Valid() && unanswered == ""
    {
      promptTail, unanswered := "", "";
    }

    // True exactly when what was received since the last prompt, with this chunk, holds one; chunks may be empty.
    method ReceivedPrompt(data: string) returns (prompted: bool)
      requires Valid()
      modifies this
      ensures Valid()
      ensures prompted <==> HasPrompt(old(unanswered) + data)
      ensures unanswered == if prompted then "" else old(unanswered) + data
    {
      var combined := promptTail + data;
      TailSuffices(unanswered, data);
      prompted := FindPrompt(combined);
      if prompted {
        promptTail, unanswered := "", "";
        return;
      }
      promptTail := if combined == "" then "" else combined[|combined| - 1..];
      unanswered := unanswered + data;
    }
  }

  // One character of the past is enough.
  lemma TailSuffices(text: string, chunk: string)
    requires !HasPrompt(text)
    ensures var tail := if text == "" then "" else [text[|text| - 1]];
      HasPrompt(tail + chunk) <==> HasPrompt(text + chunk)
  {
    var tail := if text == "" then "" else [text[|text| - 1]];
    var shift := |text| - |tail|;
    if i :| PromptEndsAt(tail + chunk, i) { assert PromptEndsAt(text + chunk, i + shift); }
    if i :| PromptEndsAt(text + chunk, i) {
      assert i < |text| ==> PromptEndsAt(text, i);
      assert PromptEndsAt(tail + chunk, i - shift);
    }
  }

  // ----- when the two consoles decide alike -----

  // What the second console has received since its last prompt when chunk j arrives.
  ghost function Unanswered(chunks: seq<string>, j: nat): string
    requires j <= |chunks|
  {
    if j == 0 then ""
    else
      var text := Unanswered(chunks, j - 1) + chunks[j - 1];
      if HasPrompt(text) then "" else text
  }

  ghost predicate TailFires(chunks: seq<string>, j: nat)
    requires j < |chunks|
  {
    HasPrompt(Unanswered(chunks, j) + chunks[j])
  }

  // The detector, fed chunk by chunk.
  method Detect(tail: PromptTail, chunks: seq<string>) returns (fires: seq<bool>)
    requires tail.Valid() && tail.unanswered == ""
    modifies tail
    ensures |fires| == |chunks| && forall j :: 0 <= j < |chunks| ==> fires[j] == TailFires(chunks, j)
  {
    fires := [];
    for j := 0 to |chunks|
      invariant tail.Valid() && tail.unanswered == Unanswered(chunks, j)
      invariant |fires| == j && forall k :: 0 <= k < j ==> fires[k] == TailFires(chunks, k)
    {
      var prompted := tail.ReceivedPrompt(chunks[j]);
      fires := fires + [prompted];
    }
  }

  // The prompt that begins with the last character of a chunk already answered and ends with the next chunk.
  ghost predicate Lost(chunks: seq<string>, j: nat)
    requires j < |chunks|
  {
    j > 0 && FlagBefore(chunks, j) && TailFires(chunks, j - 1) && chunks[j] != "" && chunks[j][0] == SPACE && !HasPrompt(chunks[j])
  }

  lemma {:induction false} UnansweredHolds(chunks: seq<string>, j: nat)
    requires j <= |chunks| && forall k :: 0 <= k < |chunks| ==> chunks[k] != ""
    ensures !HasPrompt(Unanswered(chunks, j))
    ensures EndsInPercent(Unanswered(chunks, j)) <==> FlagBefore(chunks, j) && !(j > 0 && TailFires(chunks, j - 1))
  {
  }

  // At every chunk the second console finds a prompt if the first one does, except exactly at a prompt whose two
  // characters a chunk it has already answered and the next one share; it never finds one the first does not.
  lemma DetectorsAgreeExactly(chunks: seq<string>, j: nat)
    requires j < |chunks| && forall k :: 0 <= k < |chunks| ==> chunks[k] != ""
    ensures TailFires(chunks, j) <==> Prompted(FlagBefore(chunks, j), chunks[j]) && !Lost(chunks, j)
    ensures Lost(chunks, j) ==> Prompted(FlagBefore(chunks, j), chunks[j])
  {
    var text := Unanswered(chunks, j);
    UnansweredHolds(chunks, j);
    AddedPrompt(text, chunks[j]);
    assert HasPrompt(text + chunks[j]) <==> Prompted(EndsInPercent(text), chunks[j]) by {
      if i :| PromptEndsAt(text + chunks[j], i) && i < |text| { assert PromptEndsAt(text, i); }
    }
  }

  // "% %" and then " ": the second console misses the second prompt.
  lemma SharedPromptIsLost()
    ensures Lost(["% %", " "], 1) && !TailFires(["% %", " "], 1)
  {
    var chunks := ["% %", " "];
    assert Unanswered(chunks, 0) + chunks[0] == "% %";
    assert PromptEndsAt("% %", 1);
    DetectorsAgreeExactly(chunks, 1);
  }
}
