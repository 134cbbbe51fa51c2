/** Parsed commands, the segments of a line and the two loops that plan them. */
module Commands {

  datatype Option<+T> = None | Some(value: T) {
    function GetOr(default: T): T {
      match this
      case Some(v) => v
      case None => default
    }
  }

  datatype NextType = Nothing | OrdinaryPipe | NumberPipeOut | NumberPipeBoth

  datatype Command = Command(
    argv: seq<string>,
    nextType: NextType,
    nextCount: int,
    redirectStdout: bool,
    redirectFile: string)

  predicate IsNumberPipe(t: NextType) {
    t.NumberPipeOut? || t.NumberPipeBoth?
  }

  // A command opens a segment unless an ordinary pipe leads into it.
  predicate StartsSegment(cs: seq<Command>, i: nat)
    requires i < |cs|
  {
    i == 0 || cs[i - 1].nextType != OrdinaryPipe
  }

  // How many segments the first n commands of a line open.
  function SegmentsOpened(cs: seq<Command>, n: nat): nat
    requires n <= |cs|
  {
    if n == 0 then 0
    else SegmentsOpened(cs, n - 1) + if StartsSegment(cs, n - 1) then 1 else 0
  }

  // The index, counted from 1, of the segment of command i within its line.
  function SegmentOf(cs: seq<Command>, i: nat): nat
    requires i < |cs|
  {
    SegmentsOpened(cs, i + 1)
  }

  // The last command of the segment of command i: follow ordinary pipes to the right.
  function SegmentEnd(cs: seq<Command>, i: nat): (e: nat)
    requires i < |cs|
    ensures i <= e < |cs|
    ensures cs[e].nextType == OrdinaryPipe ==> e + 1 == |cs|
    ensures forall j :: i <= j < e ==> cs[j].nextType == OrdinaryPipe
    decreases |cs| - i
  {
    if i + 1 < |cs| && cs[i].nextType == OrdinaryPipe then SegmentEnd(cs, i + 1) else i
  }

  datatype LinePlan = LinePlan(commandSegments: seq<int>, segmentStarts: seq<bool>, segmentCount: int)

  method BuildLinePlan(cs: seq<Command>, executedSegments: int) returns (plan: LinePlan)
    ensures |plan.commandSegments| == |plan.segmentStarts| == |cs|
    ensures plan.segmentCount == SegmentsOpened(cs, |cs|)
    ensures forall i :: 0 <= i < |cs| ==> plan.segmentStarts[i] == StartsSegment(cs, i)
    ensures forall i :: 0 <= i < |cs| ==> plan.commandSegments[i] == executedSegments + SegmentOf(cs, i)
  {
    var segments: seq<int> := [];
    var starts: seq<bool> := [];
    var cursor := executedSegments;
    for i := 0 to |cs|
      invariant |segments| == |starts| == i
      invariant cursor == executedSegments + SegmentsOpened(cs, i)
      invariant forall j :: 0 <= j < i ==> starts[j] == StartsSegment(cs, j)
      invariant forall j :: 0 <= j < i ==> segments[j] == executedSegments + SegmentOf(cs, j)
    {
      if i == 0 || cs[i - 1].nextType != OrdinaryPipe {
        cursor := cursor + 1;
        starts := starts + [true];
      } else {
        starts := starts + [false];
      }
      segments := segments + [cursor];
    }
    plan := LinePlan(segments, starts, cursor - executedSegments);
  }

  // What the shell promises of the waiting flags: only segments that end in a numbered pipe run unwaited.
  predicate Waits(cs: seq<Command>, i: nat)
    requires i < |cs|
  {
    !IsNumberPipe(cs[SegmentEnd(cs, i)].nextType)
  }

  lemma {:induction false} SegmentEndShared(cs: seq<Command>, i: nat, j: nat)
    requires i < |cs|
    requires i <= j <= SegmentEnd(cs, i)
    ensures SegmentEnd(cs, j) == SegmentEnd(cs, i)
    decreases j - i
  {
    if i < j { SegmentEndShared(cs, i + 1, j); }
  }

  // A command runs unwaited exactly if ordinary pipes lead from it to one that ends in a numbered pipe.
  lemma WaitsExactly(cs: seq<Command>, i: nat)
    requires i < |cs|
    ensures Waits(cs, i) <==>
      !exists j :: i <= j < |cs| && cs[j].nextType in {NumberPipeOut, NumberPipeBoth}
        && forall k :: i <= k < j ==> cs[k].nextType == OrdinaryPipe
  {
    var e := SegmentEnd(cs, i);
    forall j | i <= j < |cs| && cs[j].nextType in {NumberPipeOut, NumberPipeBoth} && (forall k :: i <= k < j ==> cs[k].nextType == OrdinaryPipe)
      ensures j == e
    {
    }
  }

  method BuildWaitability(cs: seq<Command>) returns (waitable: seq<bool>)
    ensures |waitable| == |cs|
    ensures forall i :: 0 <= i < |cs| ==> waitable[i] == Waits(cs, i)
  {
    waitable := seq(|cs|, _ => true);
    var segmentStart := 0;
    while segmentStart < |cs|
      invariant 0 <= segmentStart <= |cs| == |waitable|
      invariant forall i :: 0 <= i < segmentStart ==> waitable[i] == Waits(cs, i)
      invariant forall i :: segmentStart <= i < |cs| ==> waitable[i]
    {
      var segmentEnd := segmentStart;
      while segmentEnd + 1 < |cs| && cs[segmentEnd].nextType == OrdinaryPipe
        invariant segmentStart <= segmentEnd < |cs|
        invariant SegmentEnd(cs, segmentEnd) == SegmentEnd(cs, segmentStart)
      {
        segmentEnd := segmentEnd + 1;
      }
      forall i | segmentStart <= i <= segmentEnd ensures SegmentEnd(cs, i) == segmentEnd {
        SegmentEndShared(cs, segmentStart, i);
      }
      if IsNumberPipe(cs[segmentEnd].nextType) {
        for i := segmentStart to segmentEnd + 1
          invariant |waitable| == |cs|
          invariant forall j :: 0 <= j < segmentStart ==> waitable[j] == Waits(cs, j)
          invariant forall j :: segmentStart <= j < i ==> !waitable[j]
          invariant forall j :: i <= j < |cs| ==> waitable[j]
        {
          waitable := waitable[i := false];
        }
      }
      segmentStart := segmentEnd + 1;
    }
  }

  // Segment numbers never decrease along a line and grow by at most one.
  lemma {:induction false} SegmentsMonotone(cs: seq<Command>, i: nat, j: nat)
    requires i <= j <= |cs|
    ensures SegmentsOpened(cs, i) <= SegmentsOpened(cs, j) <= SegmentsOpened(cs, i) + (j - i)
    decreases j
  {
    if i < j { SegmentsMonotone(cs, i, j - 1); }
  }

  lemma {:induction false} SameSegmentUpTo(cs: seq<Command>, i: nat, j: nat)
    requires i <= j < |cs|
    requires forall m :: i <= m < j ==> cs[m].nextType == OrdinaryPipe
    ensures SegmentOf(cs, i) == SegmentOf(cs, j)
    decreases j
  {
    if i < j { SameSegmentUpTo(cs, i, j - 1); }
  }

  lemma SegmentEndSharesSegment(cs: seq<Command>, i: nat)
    requires i < |cs|
    ensures SegmentOf(cs, i) == SegmentOf(cs, SegmentEnd(cs, i))
    ensures forall j :: SegmentEnd(cs, i) < j < |cs| ==> SegmentOf(cs, i) < SegmentOf(cs, j)
  {
    var e := SegmentEnd(cs, i);
    SameSegmentUpTo(cs, i, e);
    forall j | e < j < |cs| ensures SegmentOf(cs, i) < SegmentOf(cs, j) {
      SegmentsMonotone(cs, e + 2, j + 1);
    }
  }

  // The two loops, written independently, cut every line into the same segments: commands share a
  // plan index exactly when they share a last command, that command is the last one with the index,
  // and the waiting flag is decided by it alone.
  lemma SegmentationsAgree(cs: seq<Command>, i: nat, j: nat)
    requires i < |cs| && j < |cs|
    ensures SegmentOf(cs, i) == SegmentOf(cs, j) <==> SegmentEnd(cs, i) == SegmentEnd(cs, j)
    ensures SegmentOf(cs, i) == SegmentOf(cs, j) ==> Waits(cs, i) == Waits(cs, j)
    ensures SegmentOf(cs, i) == SegmentOf(cs, j) ==> j <= SegmentEnd(cs, i)
    ensures SegmentOf(cs, SegmentEnd(cs, i)) == SegmentOf(cs, i)
  {
    if j < i {
      SegmentationsAgree(cs, j, i);
    }
    SegmentEndSharesSegment(cs, i);
    SegmentEndSharesSegment(cs, j);
    if i <= j <= SegmentEnd(cs, i) {
      SegmentEndShared(cs, i, j);
    }
  }

  // The plan's indices are consecutive, start at 1 and use every number up to the segment count.
  lemma {:induction false} SegmentNumbersConsecutive(cs: seq<Command>, s: nat)
    requires 1 <= s <= SegmentsOpened(cs, |cs|)
    ensures exists i :: 0 <= i < |cs| && SegmentOf(cs, i) == s && StartsSegment(cs, i)
  {
    SegmentNumbersConsecutiveUpTo(cs, |cs|, s);
  }

  lemma {:induction false} SegmentNumbersConsecutiveUpTo(cs: seq<Command>, n: nat, s: nat)
    requires n <= |cs|
    requires 1 <= s <= SegmentsOpened(cs, n)
    ensures exists i :: 0 <= i < n && SegmentOf(cs, i) == s && StartsSegment(cs, i)
  {
    if s <= SegmentsOpened(cs, n - 1) {
      SegmentNumbersConsecutiveUpTo(cs, n - 1, s);
    } else {
      assert SegmentOf(cs, n - 1) == s;
    }
  }
}
