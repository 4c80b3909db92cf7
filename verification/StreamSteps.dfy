/**
 * The step list of a streamed reply: bounded appending, fresh ids, and the cut
 * of the reply text into commentary when a tool call follows it. Every function
 * returns a new list; the loops run over local copies.
 */
module StreamSteps {
  import opened Options
  import opened Text

  datatype Kind = Thinking | Tool | Task | Reply
  datatype Status = Running | Done | Error

  datatype Step = Step(
    id: string, kind: Kind, at: int, endedAt: Option<int>, status: Status, text: Option<string>, from: Option<int>)

  datatype StepList = StepList(steps: seq<Step>, dropped: nat)

  const MAX_STEPS := 100
  const MAX_TEXT := 2_000

  // ---- append ----

  predicate IsRunning(s: Step) {
    s.status == Running
  }

  function RunningOf(steps: seq<Step>): seq<Step> {
    if steps == [] then [] else (if IsRunning(steps[0]) then [steps[0]] else []) + RunningOf(steps[1..])
  }

  function FinishedOf(steps: seq<Step>): seq<Step> {
    if steps == [] then [] else (if IsRunning(steps[0]) then [] else [steps[0]]) + FinishedOf(steps[1..])
  }

  /** The list without its first finished step. */
  function WithoutFirstFinished(steps: seq<Step>): seq<Step> {
    if steps == [] then [] else if IsRunning(steps[0]) then [steps[0]] + WithoutFirstFinished(steps[1..]) else steps[1..]
  }

  lemma {:induction false} RemoveFirst(steps: seq<Step>, index: nat)
    requires index < |steps| && !IsRunning(steps[index]) && forall i | 0 <= i < index :: IsRunning(steps[i])
    ensures WithoutFirstFinished(steps) == steps[..index] + steps[index + 1..]
    ensures FinishedOf(steps) != []
  {
    if index > 0 {
      RemoveFirst(steps[1..], index - 1);
    }
  }

  lemma {:induction false} NothingFinished(steps: seq<Step>)
    requires forall s | s in steps :: IsRunning(s)
    ensures FinishedOf(steps) == [] && RunningOf(steps) == steps
  {
    if steps != [] {
      NothingFinished(steps[1..]);
    }
  }

  lemma {:induction false} RemovalKeepsRunning(steps: seq<Step>)
    requires FinishedOf(steps) != []
    ensures var w := WithoutFirstFinished(steps);
            |w| == |steps| - 1 && RunningOf(w) == RunningOf(steps) && FinishedOf(w) == FinishedOf(steps)[1..]
  {
    if IsRunning(steps[0]) {
      RemovalKeepsRunning(steps[1..]);
      var w := WithoutFirstFinished(steps[1..]);
      assert ([steps[0]] + w)[1..] == w;
    }
  }

  /** The list cut back to the cap, oldest finished step first. */
  function Capped(steps: seq<Step>): seq<Step>
    decreases |steps|
  {
    if |steps| > MAX_STEPS && FinishedOf(steps) != [] then
      RemovalKeepsRunning(steps);
      Capped(WithoutFirstFinished(steps))
    else steps
  }

  function Appended(list: StepList, step: Step): StepList {
    var all := list.steps + [step];
    CappedIsShorter(all);
    StepList(Capped(all), list.dropped + |all| - |Capped(all)|)
  }

  lemma {:induction false} CappedIsShorter(steps: seq<Step>)
    ensures |Capped(steps)| <= |steps|
    decreases |steps|
  {
    if |steps| > MAX_STEPS && FinishedOf(steps) != [] {
      RemovalKeepsRunning(steps);
      CappedIsShorter(WithoutFirstFinished(steps));
    }
  }

  /** What an append keeps: every running step; of the finished ones the newest; the cap, unless only running steps are left. */
  lemma {:induction false} CappedFacts(steps: seq<Step>)
    ensures var c := Capped(steps); var gone := |steps| - |c|;
            0 <= gone <= |FinishedOf(steps)|
            && RunningOf(c) == RunningOf(steps) && FinishedOf(c) == FinishedOf(steps)[gone..]
            && (|c| <= MAX_STEPS || FinishedOf(c) == [])
            && (gone > 0 ==> |c| >= MAX_STEPS)
    decreases |steps|
  {
    if |steps| > MAX_STEPS && FinishedOf(steps) != [] {
      RemovalKeepsRunning(steps);
      CappedFacts(WithoutFirstFinished(steps));
    }
  }

  /** The loop of `append`. */
  method Append(list: StepList, step: Step) returns (r: StepList)
    ensures r == Appended(list, step)
  {
    var steps := list.steps + [step];
    var dropped := list.dropped;
    ghost var all := steps;
    while |steps| > MAX_STEPS
      invariant Capped(steps) == Capped(all) && dropped == list.dropped + |all| - |steps|
      decreases |steps|
    {
      var index := FindFinished(steps);
      if index < 0 {
        NothingFinished(steps);
        break;
      }
      RemoveFirst(steps, index);
      steps := steps[..index] + steps[index + 1..];
      dropped := dropped + 1;
    }
    r := StepList(steps, dropped);
  }

  /** `findIndex` of a step that is not running. */
  method FindFinished(steps: seq<Step>) returns (index: int)
    ensures index < 0 ==> forall s | s in steps :: IsRunning(s)
    ensures index >= 0 ==> index < |steps| && !IsRunning(steps[index]) && forall i | 0 <= i < index :: IsRunning(steps[i])
  {
    for i := 0 to |steps|
      invariant forall j | 0 <= j < i :: IsRunning(steps[j])
    {
      if !IsRunning(steps[i]) { return i; }
    }
    return -1;
  }

  // ---- ids ----

  function Digits(n: nat): (d: string)
    ensures |d| >= 1 && (n < 10 <==> |d| == 1)
    decreases n
  {
    if n < 10 then ["0123456789"[n]] else Digits(n / 10) + ["0123456789"[n % 10]]
  }

  lemma {:induction false} DigitsAreInjective(m: nat, n: nat)
    requires Digits(m) == Digits(n)
    ensures m == n
    decreases m
  {
    var a, b := Digits(m), Digits(n);
    assert a[|a| - 1] == "0123456789"[m % 10] && b[|b| - 1] == "0123456789"[n % 10];
    assert m % 10 == n % 10;
    if m >= 10 {
      assert a[..|a| - 1] == Digits(m / 10) && b[..|b| - 1] == Digits(n / 10);
      DigitsAreInjective(m / 10, n / 10);
    }
  }

  function Name(prefix: string, n: nat): string {
    prefix + "-" + Digits(n)
  }

  lemma NamesAreInjective(prefix: string, m: nat, n: nat)
    requires Name(prefix, m) == Name(prefix, n)
    ensures m == n
  {
    var k := |prefix| + 1;
    assert Name(prefix, m)[k..] == Digits(m) && Name(prefix, n)[k..] == Digits(n);
    DigitsAreInjective(m, n);
  }

  predicate HasId(steps: seq<Step>, id: string) {
    exists i :: 0 <= i < |steps| && steps[i].id == id
  }

  ghost predicate NamedFrom(id: string, prefix: string, n: nat) {
    exists m: nat :: m >= n && id == Name(prefix, m)
  }

  ghost function Ahead(steps: seq<Step>, prefix: string, n: nat): set<string> {
    set s | s in steps && NamedFrom(s.id, prefix, n) :: s.id
  }

  lemma AheadShrinks(steps: seq<Step>, prefix: string, n: nat)
    requires HasId(steps, Name(prefix, n))
    ensures Ahead(steps, prefix, n + 1) < Ahead(steps, prefix, n)
  {
    var id := Name(prefix, n);
    var i :| 0 <= i < |steps| && steps[i].id == id;
    assert steps[i] in steps && NamedFrom(id, prefix, n);
    assert id in Ahead(steps, prefix, n);
    forall x | x in Ahead(steps, prefix, n + 1) ensures x in Ahead(steps, prefix, n) {
      var s :| s in steps && NamedFrom(s.id, prefix, n + 1) && s.id == x;
      var m: nat :| m >= n + 1 && x == Name(prefix, m);
      assert NamedFrom(s.id, prefix, n);
    }
    assert !NamedFrom(id, prefix, n + 1) by {
      forall m: nat | m >= n + 1 ensures id != Name(prefix, m) {
        if id == Name(prefix, m) {
          NamesAreInjective(prefix, m, n);
          assert false;
        }
      }
    }
  }

  /** The loop of `nextId` ends, with the first free number from the list's total on. */
  method NextId(list: StepList, prefix: string) returns (id: string, ghost n: nat)
    ensures !HasId(list.steps, id)
    ensures id == Name(prefix, n) && n >= list.dropped + |list.steps|
    ensures forall m: nat | list.dropped + |list.steps| <= m < n :: HasId(list.steps, Name(prefix, m))
  {
    var k := list.dropped + |list.steps|;
    while HasId(list.steps, Name(prefix, k))
      invariant k >= list.dropped + |list.steps|
      invariant forall m: nat | list.dropped + |list.steps| <= m < k :: HasId(list.steps, Name(prefix, m))
      decreases Ahead(list.steps, prefix, k)
    {
      AheadShrinks(list.steps, prefix, k);
      k := k + 1;
    }
    id, n := Name(prefix, k), k;
  }

  // ---- closing text ----

  predicate IsOpenText(s: Step) {
    s.kind == Reply && s.status == Running
  }

  /** Where an open text step starts in the reply's text. */
  function StartOf(s: Step, base: int): nat {
    var n := s.from.OrElse(0) - base;
    if n < 0 then 0 else n
  }

  /** `tail`: the end of a long text behind an ellipsis. */
  function Shortened(text: string): string {
    if |text| > MAX_TEXT then ['\U{2026}'] + text[|text| - (MAX_TEXT - 1)..] else text
  }

  /** The part of the text an open step closes with, before trimming: up to the start of the next open step, if that one has one. */
  function PartOf(s: Step, next: Option<Step>, whole: string, base: int): string {
    var start := StartOf(s, base);
    if next.Some? && next.value.from.Some? then
      Slice(whole, start, if next.value.from.value - base > start then next.value.from.value - base else start)
    else Slice(whole, start, |whole|)
  }

  function NextOpen(steps: seq<Step>): Option<Step> {
    if steps == [] then None else if IsOpenText(steps[0]) then Some(steps[0]) else NextOpen(steps[1..])
  }

  function Closed(steps: seq<Step>, at: int, whole: string, base: int): seq<Step> {
    if steps == [] then []
    else
      [if IsOpenText(steps[0]) then
         steps[0].(status := Done, endedAt := Some(at), text := Some(Shortened(Trim(PartOf(steps[0], NextOpen(steps[1..]), whole, base)))))
       else steps[0]]
      + Closed(steps[1..], at, whole, base)
  }

  /** The raw parts of the open steps, in order. */
  function Parts(steps: seq<Step>, whole: string, base: int): seq<string> {
    if steps == [] then []
    else (if IsOpenText(steps[0]) then [PartOf(steps[0], NextOpen(steps[1..]), whole, base)] else []) + Parts(steps[1..], whole, base)
  }

  function Joined(parts: seq<string>): string {
    if parts == [] then "" else parts[0] + Joined(parts[1..])
  }

  /** The starts of the open steps, clamped to the text. */
  function Starts(steps: seq<Step>, whole: string, base: int): (c: seq<nat>)
    ensures NextOpen(steps) == None ==> c == []
    ensures NextOpen(steps).Some? ==> c != [] && c[0] == Min(StartOf(NextOpen(steps).value, base), |whole|)
  {
    if steps == [] then []
    else (if IsOpenText(steps[0]) then [Min(StartOf(steps[0], base), |whole|)] else []) + Starts(steps[1..], whole, base)
  }

  predicate Sorted(s: seq<nat>) {
    forall i, j | 0 <= i < j < |s| :: s[i] <= s[j]
  }

  /** Running text steps are opened with a start. */
  predicate OpenStepsStart(steps: seq<Step>) {
    forall i | 0 <= i < |steps| && IsOpenText(steps[i]) :: steps[i].from.Some?
  }

  lemma {:induction false} FirstStart(steps: seq<Step>, whole: string, base: int)
    ensures NextOpen(steps) == None ==> Parts(steps, whole, base) == []
    ensures OpenStepsStart(steps) && NextOpen(steps).Some? ==> NextOpen(steps).value.from.Some?
  {
    if steps != [] && !IsOpenText(steps[0]) {
      FirstStart(steps[1..], whole, base);
    }
  }

  /** The parts of one open step and of those behind it. */
  lemma FirstPart(steps: seq<Step>, whole: string, base: int)
    requires OpenStepsStart(steps) && steps != [] && IsOpenText(steps[0]) && NextOpen(steps[1..]).Some?
    ensures var c := Starts(steps, whole, base); var p := PartOf(steps[0], NextOpen(steps[1..]), whole, base);
            |c| >= 2 && c == [c[0]] + Starts(steps[1..], whole, base) && c[0] <= |whole| && c[1] <= |whole|
            && p == (if c[0] <= c[1] then whole[c[0]..c[1]] else "")
            && Joined(Parts(steps, whole, base)) == p + Joined(Parts(steps[1..], whole, base))
  {
    FirstStart(steps[1..], whole, base);
    assert OpenStepsStart(steps[1..]);
    var rest := Parts(steps[1..], whole, base);
    var p := PartOf(steps[0], NextOpen(steps[1..]), whole, base);
    assert ([p] + rest)[1..] == rest;
  }

  lemma LastPart(steps: seq<Step>, whole: string, base: int)
    requires steps != [] && IsOpenText(steps[0]) && NextOpen(steps[1..]) == None
    ensures var c := Starts(steps, whole, base);
            |c| == 1 && c[0] <= |whole| && Joined(Parts(steps, whole, base)) == whole[c[0]..]
  {
    FirstStart(steps[1..], whole, base);
    assert Parts(steps, whole, base) == [PartOf(steps[0], None, whole, base)];
  }

  /** `joined` covers the text behind `c[0]` at least, and exactly for starts in order. */
  predicate Covers(joined: string, whole: string, c: seq<nat>) {
    c != [] && c[0] <= |whole| && |joined| >= |whole| - c[0] && (|joined| == |whole| - c[0] <==> Sorted(c))
    && (Sorted(c) ==> joined == whole[c[0]..])
  }

  lemma OnePartMore(p: string, rest: string, whole: string, c: seq<nat>)
    requires |c| >= 2 && c[0] <= |whole| && c[1] <= |whole| && Covers(rest, whole, c[1..])
    requires p == if c[0] <= c[1] then whole[c[0]..c[1]] else ""
    ensures Covers(p + rest, whole, c)
  {
  }

  lemma {:induction false} PartsCover(steps: seq<Step>, whole: string, base: int)
    requires OpenStepsStart(steps) && NextOpen(steps).Some?
    ensures Covers(Joined(Parts(steps, whole, base)), whole, Starts(steps, whole, base))
  {
    assert OpenStepsStart(steps[1..]);
    var c := Starts(steps, whole, base);
    if !IsOpenText(steps[0]) {
      assert c == Starts(steps[1..], whole, base) && Parts(steps, whole, base) == Parts(steps[1..], whole, base);
      PartsCover(steps[1..], whole, base);
    } else if NextOpen(steps[1..]).Some? {
      FirstPart(steps, whole, base);
      PartsCover(steps[1..], whole, base);
      assert c[1..] == Starts(steps[1..], whole, base);
      OnePartMore(PartOf(steps[0], NextOpen(steps[1..]), whole, base), Joined(Parts(steps[1..], whole, base)), whole, c);
    } else {
      LastPart(steps, whole, base);
    }
  }

  /**
   * Closing cuts the reply from the first open start to its end into
   * consecutive parts exactly when the starts (clamped to the text) do not
   * decrease.
   */
  lemma PartsCoverExactly(steps: seq<Step>, whole: string, base: int)
    requires OpenStepsStart(steps) && NextOpen(steps).Some?
    ensures Joined(Parts(steps, whole, base)) == whole[Starts(steps, whole, base)[0]..] <==> Sorted(Starts(steps, whole, base))
  {
    PartsCover(steps, whole, base);
  }

  /** Closing changes open text steps only; each takes its own part, trimmed and shortened. */
  lemma {:induction false} ClosedAt(steps: seq<Step>, at: int, whole: string, base: int, i: nat)
    requires i < |steps|
    ensures var c := Closed(steps, at, whole, base);
            |c| == |steps|
            && if IsOpenText(steps[i]) then
                 c[i] == steps[i].(status := Done, endedAt := Some(at),
                                   text := Some(Shortened(Trim(PartOf(steps[i], NextOpen(steps[i + 1..]), whole, base)))))
               else c[i] == steps[i]
  {
    ClosedLength(steps, at, whole, base);
    if i > 0 {
      ClosedAt(steps[1..], at, whole, base, i - 1);
      assert steps[1..][i..] == steps[i + 1..];
    }
  }

  lemma {:induction false} ClosedLength(steps: seq<Step>, at: int, whole: string, base: int)
    ensures |Closed(steps, at, whole, base)| == |steps|
  {
    if steps != [] {
      ClosedLength(steps[1..], at, whole, base);
    }
  }

  /** `closeTextStep`: collect the open steps, then close each one up to the start of the next. */
  method CloseText(list: StepList, at: int, whole: string, base: int) returns (r: StepList)
    ensures r == StepList(Closed(list.steps, at, whole, base), list.dropped)
  {
    var open := OpenIndexes(list.steps);
    var steps := list.steps;
    for n := 0 to |open|
      invariant |steps| == |list.steps|
      invariant forall i | 0 <= i < |steps| ::
                  steps[i] == if i in open[..n] then Closing(list.steps, i, at, whole, base) else list.steps[i]
    {
      var index := open[n];
      NextIsOpen(list.steps, open, n);
      var next := if n + 1 < |open| then Some(list.steps[open[n + 1]]) else None;
      assert index !in open[..n];
      assert open[..n + 1] == open[..n] + [index];
      steps := steps[index := steps[index].(status := Done, endedAt := Some(at),
                                            text := Some(Shortened(Trim(PartOf(steps[index], next, whole, base)))))];
    }
    assert open[..|open|] == open;
    forall i | 0 <= i < |steps| ensures |Closed(list.steps, at, whole, base)| == |steps| && steps[i] == Closed(list.steps, at, whole, base)[i] {
      ClosedAt(list.steps, at, whole, base, i);
    }
    ClosedLength(list.steps, at, whole, base);
    r := StepList(steps, list.dropped);
  }

  function Closing(steps: seq<Step>, i: nat, at: int, whole: string, base: int): Step
    requires i < |steps|
  {
    steps[i].(status := Done, endedAt := Some(at), text := Some(Shortened(Trim(PartOf(steps[i], NextOpen(steps[i + 1..]), whole, base)))))
  }

  predicate AllOpen(steps: seq<Step>, open: seq<nat>) {
    (forall n | 0 <= n < |open| :: open[n] < |steps| && IsOpenText(steps[open[n]]))
    && (forall m, n | 0 <= m < n < |open| :: open[m] < open[n])
    && forall i: nat | i < |steps| && IsOpenText(steps[i]) :: i in open
  }

  method OpenIndexes(steps: seq<Step>) returns (open: seq<nat>)
    ensures AllOpen(steps, open)
  {
    open := [];
    for i := 0 to |steps|
      invariant forall n | 0 <= n < |open| :: open[n] < i && IsOpenText(steps[open[n]])
      invariant forall m, n | 0 <= m < n < |open| :: open[m] < open[n]
      invariant forall j: nat | j < i && IsOpenText(steps[j]) :: j in open
    {
      if IsOpenText(steps[i]) {
        open := open + [i];
      }
    }
  }

  lemma {:induction false} NoOpen(steps: seq<Step>)
    requires forall s | s in steps :: !IsOpenText(s)
    ensures NextOpen(steps) == None
  {
    if steps != [] {
      NoOpen(steps[1..]);
    }
  }

  lemma {:induction false} FirstOpen(steps: seq<Step>, i: nat)
    requires i < |steps| && IsOpenText(steps[i]) && forall j | 0 <= j < i :: !IsOpenText(steps[j])
    ensures NextOpen(steps) == Some(steps[i])
  {
    if i > 0 {
      FirstOpen(steps[1..], i - 1);
    }
  }

  /** The next entry of the collected indexes is the next open step of the list. */
  lemma NextIsOpen(steps: seq<Step>, open: seq<nat>, n: nat)
    requires AllOpen(steps, open) && n < |open|
    ensures NextOpen(steps[open[n] + 1..]) == if n + 1 < |open| then Some(steps[open[n + 1]]) else None
  {
    var rest := steps[open[n] + 1..];
    var bound := if n + 1 < |open| then open[n + 1] else |steps|;
    forall j | open[n] < j < bound ensures !IsOpenText(steps[j]) {
      if IsOpenText(steps[j]) {
        var m :| 0 <= m < |open| && open[m] == j;
        assert false;
      }
    }
    if n + 1 < |open| {
      FirstOpen(rest, open[n + 1] - open[n] - 1);
    } else {
      NoOpen(rest);
    }
  }

  // ---- the end of a reply, and accounting ----

  function FinishStep(s: Step, at: int, stopped: bool): Step {
    if s.status != Running then s
    else s.(endedAt := Some(at), status := if stopped && s.kind in {Tool, Task} then Error else Done)
  }

  function Finished(steps: seq<Step>, at: int, stopped: bool): seq<Step> {
    if steps == [] then [] else [FinishStep(steps[0], at, stopped)] + Finished(steps[1..], at, stopped)
  }

  datatype Op =
    | Add(step: Step)
    | Patch(index: nat, step: Step)
    | CloseOpen(at: int, whole: string, base: int)
    | Finish(at: int, stopped: bool)

  function Apply(list: StepList, op: Op): StepList {
    match op
    case Add(s) => Appended(list, s)
    case Patch(i, s) => if i < |list.steps| then list.(steps := list.steps[i := s]) else list
    case CloseOpen(at, whole, base) => list.(steps := Closed(list.steps, at, whole, base))
    case Finish(at, stopped) => list.(steps := Finished(list.steps, at, stopped))
  }

  function Run(list: StepList, ops: seq<Op>): StepList
    decreases |ops|
  {
    if ops == [] then list else Apply(Run(list, ops[..|ops| - 1]), ops[|ops| - 1])
  }

  function Adds(ops: seq<Op>): nat {
    if ops == [] then 0 else Adds(ops[..|ops| - 1]) + if ops[|ops| - 1].Add? then 1 else 0
  }

  lemma {:induction false} FinishedFacts(steps: seq<Step>, at: int, stopped: bool)
    ensures |Finished(steps, at, stopped)| == |steps| && RunningOf(Finished(steps, at, stopped)) == []
  {
    if steps != [] {
      FinishedFacts(steps[1..], at, stopped);
      assert ([FinishStep(steps[0], at, stopped)] + Finished(steps[1..], at, stopped))[1..] == Finished(steps[1..], at, stopped);
    }
  }

  /** The dropped and the kept steps together are the appended ones, over any sequence of operations. */
  lemma {:induction false} EveryStepIsCounted(list: StepList, ops: seq<Op>)
    ensures Run(list, ops).dropped + |Run(list, ops).steps| == list.dropped + |list.steps| + Adds(ops)
    decreases |ops|
  {
    if ops != [] {
      var before := Run(list, ops[..|ops| - 1]);
      EveryStepIsCounted(list, ops[..|ops| - 1]);
      match ops[|ops| - 1]
      case Add(s) => CappedIsShorter(before.steps + [s]);
      case Patch(_, _) =>
      case CloseOpen(at, whole, base) => ClosedLength(before.steps, at, whole, base);
      case Finish(at, stopped) => FinishedFacts(before.steps, at, stopped);
    }
  }

  /** An append drops no running step, drops the oldest finished ones, and ends within the cap unless only running steps are left. */
  lemma AppendDropsOldestFinished(list: StepList, step: Step)
    ensures var r, all := Appended(list, step), list.steps + [step]; var gone := r.dropped - list.dropped;
            RunningOf(r.steps) == RunningOf(all)
            && 0 <= gone <= |FinishedOf(all)| && FinishedOf(r.steps) == FinishedOf(all)[gone..]
            && (|r.steps| <= MAX_STEPS || FinishedOf(r.steps) == [])
  {
    CappedFacts(list.steps + [step]);
  }
}
