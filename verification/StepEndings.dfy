/** How the steps of a reply end: what a stop marks as failed, and the text a commentary keeps. */
module StepEndings {
  import opened Options
  import opened Text
  import opened TextFacts
  import opened StreamSteps

  // ---- the end of a reply ----

  /** A step that is still running ends now: as failed when the run was stopped and it is a call of a tool or a sub-agent, as done otherwise. */
  lemma {:induction false} EndedSteps(steps: seq<Step>, at: int, stopped: bool, i: nat)
    requires i < |steps|
    ensures |Finished(steps, at, stopped)| == |steps|
            && var s, f := steps[i], Finished(steps, at, stopped)[i];
               (s.status != Running ==> f == s)
               && (s.status == Running ==>
                     f.endedAt == Some(at) && f == s.(endedAt := f.endedAt, status := f.status)
                     && (f.status == Error <==> stopped && (s.kind == Tool || s.kind == Task)) && (f.status == Done <==> f.status != Error))
  {
    FinishedFacts(steps, at, stopped);
    if i > 0 {
      EndedSteps(steps[1..], at, stopped, i - 1);
    }
  }

  /** A reply ends once: a later end, stopped or not, changes nothing. */
  lemma {:induction false} EndsOnce(steps: seq<Step>, at: int, stopped: bool, later: int, stoppedLater: bool)
    ensures Finished(Finished(steps, at, stopped), later, stoppedLater) == Finished(steps, at, stopped)
  {
    if steps != [] {
      EndsOnce(steps[1..], at, stopped, later, stoppedLater);
      assert Finished(steps, at, stopped)[1..] == Finished(steps[1..], at, stopped);
    }
  }

  // ---- the text a commentary keeps ----

  predicate Ends(text: string, end: string) {
    |end| <= |text| && text[|text| - |end|..] == end
  }

  /** A text within the bound is kept; a longer one keeps its end behind an ellipsis and fills the bound. */
  lemma KeptText(text: string)
    ensures |text| <= MAX_TEXT ==> Shortened(text) == text
    ensures |text| > MAX_TEXT ==>
              |Shortened(text)| == MAX_TEXT && Shortened(text)[0] == '\U{2026}'
              && Ends(text, Shortened(text)[1..])
  {
  }

  /** The text is the part without the spaces around it, or its end. */
  ghost predicate KeepsOf(part: string, kept: string) {
    exists a, t, b :: part == a + t + b && AllSpaces(a) && AllSpaces(b) && Tight(t)
                      && (if |t| <= 2_000 then kept == t
                          else |kept| == 2_000 && kept[0] == '\U{2026}' && Ends(t, kept[1..]))
  }

  lemma KeptIsShortened(part: string)
    ensures KeepsOf(part, Shortened(Trim(part)))
  {
    TrimRemovesSpaces(part);
    var a, b :| part == a + Trim(part) + b && AllSpaces(a) && AllSpaces(b);
    KeptText(Trim(part));
    assert part == a + Trim(part) + b && Tight(Trim(part));
  }

  /** Closing ends every open text step with its part of the reply and leaves every other step alone. */
  lemma ClosedSteps(steps: seq<Step>, at: int, whole: string, base: int, i: nat)
    requires i < |steps|
    ensures |Closed(steps, at, whole, base)| == |steps|
            && var s, f := steps[i], Closed(steps, at, whole, base)[i];
               (!(s.kind == Reply && s.status == Running) ==> f == s)
               && (s.kind == Reply && s.status == Running ==>
                     f.status == Done && f.endedAt == Some(at) && f.text.Some?
                     && KeepsOf(PartOf(s, NextOpen(steps[i + 1..]), whole, base), f.text.value)
                     && f == s.(status := f.status, endedAt := f.endedAt, text := f.text))
  {
    ClosedAt(steps, at, whole, base, i);
    KeptIsShortened(PartOf(steps[i], NextOpen(steps[i + 1..]), whole, base));
  }

  /** The part of an open step runs from its own start to the start of the next open one, or to the end of the reply. */
  lemma PartRuns(s: Step, next: Option<Step>, whole: string, base: int)
    requires s.from.Some? && next.Some? ==> next.value.from.Some? && next.value.from.value >= s.from.value
    requires s.from.Some? && base <= s.from.value && (next.Some? ==> next.value.from.value - base <= |whole|) && s.from.value - base <= |whole|
    ensures PartOf(s, next, whole, base) == whole[s.from.value - base..if next.Some? then next.value.from.value - base else |whole|]
  {
  }

  lemma {:induction false} NothingOpenAfterwards(steps: seq<Step>, at: int, whole: string, base: int)
    ensures NextOpen(Closed(steps, at, whole, base)) == None
  {
    if steps != [] {
      NothingOpenAfterwards(steps[1..], at, whole, base);
      assert Closed(steps, at, whole, base)[1..] == Closed(steps[1..], at, whole, base);
    }
  }

  /** Closing again, with whatever text, changes nothing. */
  lemma {:induction false} ClosedOnce(steps: seq<Step>, at: int, whole: string, base: int, later: int, text: string, from: int)
    ensures Closed(Closed(steps, at, whole, base), later, text, from) == Closed(steps, at, whole, base)
  {
    if steps != [] {
      ClosedOnce(steps[1..], at, whole, base, later, text, from);
      assert Closed(steps, at, whole, base)[1..] == Closed(steps[1..], at, whole, base);
    }
  }

  // ---- over a run of operations ----

  /** What the last operation of a run makes of the list. */
  predicate TakesEffect(a: StepList, op: Op, b: StepList) {
    match op
    case Add(s) => b.steps != [] && RunningOf(b.steps) == RunningOf(a.steps + [s]) && b.dropped + |b.steps| == a.dropped + |a.steps| + 1
    case Patch(n, s) =>
      b.dropped == a.dropped && |b.steps| == |a.steps|
      && forall i | 0 <= i < |a.steps| :: b.steps[i] == if i == n then s else a.steps[i]
    case CloseOpen(at, whole, base) =>
      b.dropped == a.dropped && |b.steps| == |a.steps| && NextOpen(b.steps) == None
      && forall i | 0 <= i < |a.steps| ::
           b.steps[i] == if IsOpenText(a.steps[i]) then Closing(a.steps, i, at, whole, base) else a.steps[i]
    case Finish(at, stopped) =>
      b.dropped == a.dropped && |b.steps| == |a.steps| && RunningOf(b.steps) == []
      && forall i | 0 <= i < |a.steps| :: b.steps[i] == FinishStep(a.steps[i], at, stopped)
  }

  lemma FinishedIs(steps: seq<Step>, at: int, stopped: bool, i: nat)
    requires i < |steps|
    ensures |Finished(steps, at, stopped)| == |steps| && Finished(steps, at, stopped)[i] == FinishStep(steps[i], at, stopped)
  {
    EndedSteps(steps, at, stopped, i);
  }

  /** Every operation of a run takes effect on what the run before it left. */
  lemma LastTakesEffect(list: StepList, ops: seq<Op>, op: Op)
    ensures TakesEffect(Run(list, ops), op, Run(list, ops + [op]))
  {
    assert (ops + [op])[..|ops + [op]| - 1] == ops;
    var a := Run(list, ops);
    match op
    case Add(s) =>
      CappedFacts(a.steps + [s]);
    case Patch(_, _) =>
    case CloseOpen(at, whole, base) =>
      ClosedLength(a.steps, at, whole, base);
      NothingOpenAfterwards(a.steps, at, whole, base);
      forall i: nat | i < |a.steps|
        ensures Closed(a.steps, at, whole, base)[i] == if IsOpenText(a.steps[i]) then Closing(a.steps, i, at, whole, base) else a.steps[i]
      {
        ClosedAt(a.steps, at, whole, base, i);
      }
    case Finish(at, stopped) =>
      FinishedFacts(a.steps, at, stopped);
      forall i: nat | i < |a.steps| ensures Finished(a.steps, at, stopped)[i] == FinishStep(a.steps[i], at, stopped) {
        FinishedIs(a.steps, at, stopped, i);
      }
  }

  /** Only a step that is added or patched runs again after the end of a reply. */
  lemma {:induction false} NothingRunsAfterTheEnd(list: StepList, ops: seq<Op>, at: int, stopped: bool, after: seq<Op>)
    requires forall i | 0 <= i < |after| :: after[i].CloseOpen? || after[i].Finish?
    ensures Run(Run(list, ops + [Finish(at, stopped)]), after) == Run(list, ops + [Finish(at, stopped)])
    decreases |after|
  {
    if after != [] {
      var end := Run(list, ops + [Finish(at, stopped)]);
      NothingRunsAfterTheEnd(list, ops, at, stopped, after[..|after| - 1]);
      assert (ops + [Finish(at, stopped)])[..|ops|] == ops;
      FinishedIsStable(Run(list, ops).steps, at, stopped, after[|after| - 1]);
    }
  }

  lemma FinishedIsStable(steps: seq<Step>, at: int, stopped: bool, op: Op)
    requires op.CloseOpen? || op.Finish?
    ensures var s := Finished(steps, at, stopped);
            (op.CloseOpen? ==> Closed(s, op.at, op.whole, op.base) == s) && (op.Finish? ==> Finished(s, op.at, op.stopped) == s)
  {
    var s := Finished(steps, at, stopped);
    if op.Finish? {
      EndsOnce(steps, at, stopped, op.at, op.stopped);
    } else {
      ClosedLength(s, op.at, op.whole, op.base);
      forall i: nat | i < |s| ensures Closed(s, op.at, op.whole, op.base)[i] == s[i] {
        FinishedFacts(steps, at, stopped);
        ClosedAt(s, op.at, op.whole, op.base, i);
        EndedSteps(steps, at, stopped, i);
      }
    }
  }
}
