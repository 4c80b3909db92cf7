/**
 * Inbound work of one connector: a generation fence per physical connection
 * and a single-flight registry per message. Calls of `runMessage` run from one
 * await to the next; connections come and go in between.
 */
module InboundLifecycle {
  import opened Options

  /** An abort controller is named by the generation that created it. */
  datatype Lease = Lease(generation: nat, signal: nat)

  /** A registered operation; its promise is named by the call that started it. */
  datatype Flight = Flight(generation: nat, call: nat)

  /** The fields of the lifecycle object. */
  datatype State = State(generation: nat, controller: Option<nat>, aborted: set<nat>, inFlight: map<string, Flight>)

  const FRESH := State(0, None, {}, map[])

  function Aborting(s: State): set<nat> {
    if s.controller.Some? then s.aborted + {s.controller.value} else s.aborted
  }

  function Begun(s: State): State {
    s.(generation := s.generation + 1, controller := Some(s.generation + 1), aborted := Aborting(s))
  }

  function LeaseOf(s: State): Lease {
    Lease(s.generation, s.controller.OrElse(0))
  }

  function Invalidated(s: State): State {
    s.(generation := s.generation + 1, controller := None, aborted := Aborting(s))
  }

  predicate IsCurrent(s: State, l: Lease) {
    l.generation == s.generation && s.controller == Some(l.signal) && l.signal !in s.aborted
  }

  // ---- calls ----

  /** Where a call of `runMessage` is. `Operating`: its operation was started and its promise is awaited. */
  datatype Phase = Joined(on: nat) | Behind(on: nat) | Operating | Returned | Failed

  datatype Call = Call(key: string, lease: Lease, tracked: bool, phase: Phase)

  /** A call of `markSeen`. */
  datatype Mark = Mark(key: string, call: nat)

  datatype World = World(state: State, calls: map<nat, Call>, outcome: map<nat, bool>, marks: seq<Mark>)

  /** `known`: what `isDuplicate` answers, if it is asked. It may have forgotten a mark. */
  datatype Event =
    | Begin
    | Invalidate
    | RunMessage(c: nat, key: string, lease: Lease, tracked: bool, known: bool)
    | Ends(c: nat, success: bool)
    | Resume(c: nat, known: bool)
    | Clear

  /** One turn of the registry loop: share, wait behind a predecessor, or start the operation. */
  function Admit(s: State, key: string, generation: nat, c: nat): (State, Phase) {
    if key in s.inFlight then
      (s, if s.inFlight[key].generation == generation then Joined(s.inFlight[key].call) else Behind(s.inFlight[key].call))
    else (s.(inFlight := s.inFlight[key := Flight(generation, c)]), Operating)
  }

  function Checked(s: State, key: string, lease: Lease, c: nat, duplicate: bool): (State, Phase) {
    if !IsCurrent(s, lease) then (s, Failed)
    else if duplicate then (s, Returned)
    else Admit(s, key, lease.generation, c)
  }

  /** The `finally` block: remove the registration if it is still this call's. */
  function Unregistered(s: State, key: string, c: nat): State {
    if key in s.inFlight && s.inFlight[key].call == c then s.(inFlight := s.inFlight - {key}) else s
  }

  predicate Live(c: Call) {
    !c.phase.Returned? && !c.phase.Failed?
  }

  predicate MarksSeen(w: World, c: nat) {
    c in w.calls && w.calls[c].phase == Operating && c in w.outcome && w.outcome[c] && IsCurrent(w.state, w.calls[c].lease)
  }

  function ResumeOperation(w: World, c: nat): World
    requires c in w.calls
  {
    var x := w.calls[c];
    w.(state := Unregistered(w.state, x.key, c),
       calls := w.calls[c := x.(phase := if MarksSeen(w, c) then Returned else Failed)],
       marks := if MarksSeen(w, c) then w.marks + [Mark(x.key, c)] else w.marks)
  }

  function ResumeCall(w: World, c: nat, known: bool): World
    requires c in w.calls
  {
    var x := w.calls[c];
    match x.phase
    case Joined(on) =>
      if on in w.outcome then w.(calls := w.calls[c := x.(phase := if w.outcome[on] then Returned else Failed)]) else w
    case Behind(on) =>
      if on !in w.outcome then w
      else
        var (s, p) := Checked(w.state, x.key, x.lease, c, known);
        w.(state := s, calls := w.calls[c := x.(phase := p)])
    case Operating => if c in w.outcome then ResumeOperation(w, c) else w
    case _ => w
  }

  predicate Idle(w: World) {
    forall c | c in w.calls && w.calls[c].tracked :: !Live(w.calls[c])
  }

  function Step(w: World, e: Event): World {
    match e
    case Begin => w.(state := Begun(w.state))
    case Invalidate => w.(state := Invalidated(w.state))
    case RunMessage(c, key, lease, tracked, known) =>
      if c in w.calls || c in w.outcome || lease.generation > w.state.generation then w
      else
        var (s, p) := Checked(w.state, key, lease, c, known);
        w.(state := s, calls := w.calls[c := Call(key, lease, tracked, p)])
    case Ends(c, success) =>
      if c in w.calls && w.calls[c].phase == Operating && c !in w.outcome then w.(outcome := w.outcome[c := success]) else w
    case Resume(c, known) => if c in w.calls then ResumeCall(w, c, known) else w
    case Clear => if Idle(w) then w.(state := w.state.(inFlight := map[])) else w
  }

  function Run(w: World, events: seq<Event>): World
    decreases |events|
  {
    if events == [] then w else Step(Run(w, events[..|events| - 1]), events[|events| - 1])
  }

  const INITIAL := World(FRESH, map[], map[], [])

  // ---- single flight ----

  predicate Operates(w: World, c: nat, key: string) {
    c in w.calls && w.calls[c].phase == Operating && w.calls[c].key == key
  }

  predicate CallOk(w: World, c: nat) {
    c in w.calls && w.calls[c].phase == Operating ==>
      w.calls[c].key in w.state.inFlight && w.state.inFlight[w.calls[c].key] == Flight(w.calls[c].lease.generation, c)
  }

  /** Controllers were created by generations that have begun. */
  predicate Numbered(s: State) {
    (forall a | a in s.aborted :: a <= s.generation) && (s.controller.Some? ==> s.controller.value <= s.generation)
  }

  /** A registration belongs to an operation in flight. */
  predicate RegistryOk(w: World) {
    forall key | key in w.state.inFlight :: Operates(w, w.state.inFlight[key].call, key)
  }

  ghost predicate Inv(w: World) {
    Numbered(w.state) && RegistryOk(w) && forall c :: CallOk(w, c)
  }

  /** Calls that wait behind another one may still start their operation. */
  ghost predicate WaitersTracked(w: World) {
    forall c | c in w.calls && w.calls[c].phase.Behind? :: w.calls[c].tracked
  }

  /** Settling knows of every operation in flight and of every call that may still start one. */
  ghost predicate WorkTracked(w: World) {
    WaitersTracked(w) && forall c | c in w.calls && w.calls[c].phase == Operating :: w.calls[c].tracked
  }

  /** At most one operation per message is in flight. */
  ghost predicate Single(w: World) {
    forall c, d, key | Operates(w, c, key) && Operates(w, d, key) :: c == d
  }

  lemma InvIsSingle(w: World)
    requires Inv(w)
    ensures Single(w)
  {
    forall c, d, key | Operates(w, c, key) && Operates(w, d, key) ensures c == d {
      assert CallOk(w, c) && CallOk(w, d);
    }
  }

  /** Admitting a call leaves the registration of every operation in flight alone. */
  lemma CheckedKeeps(w: World, x: Call, c: nat, duplicate: bool)
    requires Inv(w) && (c in w.calls ==> w.calls[c].phase != Operating)
    ensures var (s, p) := Checked(w.state, x.key, x.lease, c, duplicate);
            Inv(w.(state := s, calls := w.calls[c := x.(phase := p)]))
  {
    var (s, p) := Checked(w.state, x.key, x.lease, c, duplicate);
    var u := w.(state := s, calls := w.calls[c := x.(phase := p)]);
    forall d ensures CallOk(u, d) {
      assert CallOk(w, d);
    }
  }

  /** An operation that comes back removes its own registration and no other. */
  lemma ResumedKeeps(w: World, c: nat)
    requires Inv(w) && c in w.calls && w.calls[c].phase == Operating
    ensures Inv(ResumeOperation(w, c))
  {
    assert CallOk(w, c);
    forall d ensures CallOk(ResumeOperation(w, c), d) {
      assert CallOk(w, d);
    }
  }

  lemma ResumeKeeps(w: World, c: nat, known: bool)
    requires Inv(w) && c in w.calls
    ensures Inv(ResumeCall(w, c, known))
  {
    var x := w.calls[c];
    if x.phase.Behind? {
      CheckedKeeps(w, x, c, known);
    } else if x.phase == Operating {
      ResumedKeeps(w, c);
    } else {
      forall d ensures CallOk(ResumeCall(w, c, known), d) {
        assert CallOk(w, d);
      }
    }
  }

  lemma StepKeeps(w: World, e: Event)
    requires Inv(w) && (e.Clear? ==> WorkTracked(w))
    ensures Inv(Step(w, e))
  {
    var u := Step(w, e);
    match e
    case RunMessage(c, key, lease, tracked, known) =>
      if u != w {
        CheckedKeeps(w, Call(key, lease, tracked, Failed), c, known);
      }
    case Resume(c, known) =>
      if c in w.calls && u != w {
        ResumeKeeps(w, c, known);
      }
    case _ =>
      forall d ensures CallOk(u, d) {
        assert CallOk(w, d);
      }
  }

  predicate Tracks(e: Event) {
    e.RunMessage? ==> e.tracked
  }

  predicate TracksAll(events: seq<Event>) {
    forall i | 0 <= i < |events| :: Tracks(events[i])
  }

  lemma {:induction false} Always(w: World, events: seq<Event>)
    requires Inv(w) && WorkTracked(w) && TracksAll(events)
    ensures Inv(Run(w, events)) && WorkTracked(Run(w, events))
    decreases |events|
  {
    if events != [] {
      var front := events[..|events| - 1];
      Always(w, front);
      StepKeeps(Run(w, front), events[|events| - 1]);
      assert Tracks(events[|events| - 1]);
    }
  }

  /**
   * With all work tracked at most one operation per message is in flight, over
   * every interleaving of connections, redeliveries and settling, whatever the
   * deduplication answers.
   */
  lemma SingleFlight(events: seq<Event>, c: nat, d: nat, key: string)
    requires TracksAll(events) && Operates(Run(INITIAL, events), c, key) && Operates(Run(INITIAL, events), d, key)
    ensures c == d
  {
    Always(INITIAL, events);
    InvIsSingle(Run(INITIAL, events));
  }

  // ---- clearing the registry ----

  function Cleared(w: World): World {
    w.(state := w.state.(inFlight := map[]))
  }

  /** Single flight, over every continuation. */
  ghost predicate StaysSingle(w: World) {
    forall events | TracksAll(events) :: Single(Run(w, events))
  }

  lemma {:induction false} FreshCall(used: set<nat>) returns (c: nat)
    ensures c !in used
  {
    if x :| x in used && forall y | y in used :: y <= x {
      c := x + 1;
    } else {
      c := 0;
      if 0 in used {
        LargestNat(used);
      }
    }
  }

  lemma {:induction false} LargestNat(s: set<nat>)
    requires |s| != 0
    ensures exists x :: x in s && forall y | y in s :: y <= x
  {
    var a :| a in s;
    var rest := s - {a};
    if |rest| == 0 {
      assert forall y | y in s :: y == a || y in rest;
    } else {
      LargestNat(rest);
      var b :| b in rest && forall y | y in rest :: y <= b;
      var n := if b > a then b else a;
      assert n in s && forall y | y in s :: y == a || y in rest;
    }
  }

  /** A new connection and a redelivery of the message while its operation is in flight but no longer registered. */
  lemma RedeliveryRunsTwice(w: World, c: nat) returns (events: seq<Event>)
    requires Inv(w) && c in w.calls && w.calls[c].phase == Operating
    ensures TracksAll(events) && !Single(Run(Cleared(w), events))
  {
    var u, key := Cleared(w), w.calls[c].key;
    var d := FreshCall(w.calls.Keys + w.outcome.Keys);
    var redelivery := RunMessage(d, key, Lease(w.state.generation + 1, w.state.generation + 1), true, false);
    events := [Begin, redelivery];
    assert events[..1] == [Begin] && events[..1][..0] == [];
    assert Run(u, events[..1]) == Step(u, Begin);
    var v := Step(Step(u, Begin), redelivery);
    assert Run(u, events) == v;
    assert Operates(v, c, key) && Operates(v, d, key);
  }

  /**
   * `settle` clears the registry as soon as no tracked callback is active, also
   * under an operation that was not tracked. As long as every call that waits
   * behind another is tracked, single flight survives that, in every
   * continuation, exactly when no operation is in flight then.
   */
  lemma ClearIsHarmless(w: World)
    requires Inv(w) && WaitersTracked(w)
    ensures StaysSingle(Cleared(w)) <==> forall c | c in w.calls :: w.calls[c].phase != Operating
  {
    if c :| c in w.calls && w.calls[c].phase == Operating {
      var events := RedeliveryRunsTwice(w, c);
      assert TracksAll(events);
    } else {
      forall c ensures CallOk(Cleared(w), c) {
      }
      forall events | TracksAll(events) ensures Single(Run(Cleared(w), events)) {
        Always(Cleared(w), events);
        InvIsSingle(Run(Cleared(w), events));
      }
    }
  }

  // ---- marks ----

  function MarksOf(marks: seq<Mark>, key: string): nat {
    if marks == [] then 0 else MarksOf(marks[..|marks| - 1], key) + if marks[|marks| - 1].key == key then 1 else 0
  }

  /** The step asks `isDuplicate` about the message. */
  predicate Asks(w: World, e: Event, key: string) {
    match e
    case RunMessage(c, k, lease, _, _) =>
      k == key && c !in w.calls && c !in w.outcome && lease.generation <= w.state.generation && IsCurrent(w.state, lease)
    case Resume(c, _) =>
      c in w.calls && w.calls[c].key == key && w.calls[c].phase.Behind? && w.calls[c].phase.on in w.outcome && IsCurrent(w.state, w.calls[c].lease)
    case _ => false
  }

  /** The answer denies a mark that was made. */
  predicate Forgets(w: World, e: Event, key: string) {
    Asks(w, e, key) && !e.known && MarksOf(w.marks, key) > 0
  }

  function Forgotten(events: seq<Event>, key: string): nat
    decreases |events|
  {
    if events == [] then 0
    else
      var front := events[..|events| - 1];
      Forgotten(front, key) + if Forgets(Run(INITIAL, front), events[|events| - 1], key) then 1 else 0
  }

  ghost predicate Flying(w: World, key: string) {
    exists c :: Operates(w, c, key)
  }

  /** Every mark but the first is owed to a forgotten one, and so is the operation in flight after it. */
  ghost predicate Owed(w: World, key: string, forgotten: nat) {
    MarksOf(w.marks, key) == 0 || MarksOf(w.marks, key) + (if Flying(w, key) then 1 else 0) <= 1 + forgotten
  }

  lemma MarksAfter(marks: seq<Mark>, m: Mark, key: string)
    ensures MarksOf(marks + [m], key) == MarksOf(marks, key) + if m.key == key then 1 else 0
  {
    assert (marks + [m])[..|marks|] == marks;
  }

  /** An operation of the message starts only after `isDuplicate` denied it, and not while another one flies. */
  lemma WhoStarts(w: World, e: Event, c: nat, key: string)
    requires Inv(w) && Operates(Step(w, e), c, key) && !Operates(w, c, key)
    ensures Asks(w, e, key) && !e.known && !Flying(w, key)
  {
    forall d ensures !Operates(w, d, key) {
      assert CallOk(w, d);
    }
  }

  /** A mark ends the one operation of the message that was in flight. */
  lemma WhoMarks(w: World, e: Event)
    requires Inv(w) && Step(w, e).marks != w.marks
    ensures e.Resume? && MarksSeen(w, e.c) && Step(w, e).marks == w.marks + [Mark(w.calls[e.c].key, e.c)]
    ensures !Flying(Step(w, e), w.calls[e.c].key)
  {
    InvIsSingle(w);
    var k := w.calls[e.c].key;
    assert Operates(w, e.c, k);
    forall d ensures !Operates(Step(w, e), d, k) {
      assert Operates(w, d, k) ==> d == e.c;
    }
  }

  predicate Earns(w: World, e: Event, m: Mark) {
    e.Resume? && MarksSeen(w, e.c) && m == Mark(w.calls[e.c].key, e.c)
  }

  /** Every mark of a run was made by a successful operation that came back while its connection was still the current one. */
  lemma {:induction false} MarksAreEarned(events: seq<Event>, i: nat)
    requires TracksAll(events) && i < |Run(INITIAL, events).marks|
    ensures exists n :: 0 <= n < |events| && Earns(Run(INITIAL, events[..n]), events[n], Run(INITIAL, events).marks[i])
    decreases |events|
  {
    var front, last := events[..|events| - 1], events[|events| - 1];
    var w := Run(INITIAL, front);
    if i < |w.marks| {
      MarksAreEarned(front, i);
      var n :| 0 <= n < |front| && Earns(Run(INITIAL, front[..n]), front[n], w.marks[i]);
      assert front[..n] == events[..n] && front[n] == events[n];
      assert Run(INITIAL, events).marks[i] == w.marks[i] by {
        if Step(w, last).marks != w.marks {
          Always(INITIAL, front);
          WhoMarks(w, last);
        }
      }
    } else {
      Always(INITIAL, front);
      WhoMarks(w, last);
      assert Earns(Run(INITIAL, events[..|front|]), events[|front|], Run(INITIAL, events).marks[i]);
    }
  }

  lemma StepOwed(w: World, e: Event, key: string, forgotten: nat)
    requires Inv(w) && Owed(w, key, forgotten)
    ensures Owed(Step(w, e), key, forgotten + if Forgets(w, e, key) then 1 else 0)
  {
    var u := Step(w, e);
    if u.marks != w.marks {
      WhoMarks(w, e);
      MarksAfter(w.marks, Mark(w.calls[e.c].key, e.c), key);
      assert Operates(w, e.c, w.calls[e.c].key);
    }
    if Flying(u, key) && !Flying(w, key) {
      var c :| Operates(u, c, key);
      WhoStarts(w, e, c, key);
    }
  }

  lemma {:induction false} AlwaysOwed(events: seq<Event>, key: string)
    requires TracksAll(events)
    ensures Owed(Run(INITIAL, events), key, Forgotten(events, key))
    decreases |events|
  {
    if events != [] {
      var front := events[..|events| - 1];
      AlwaysOwed(front, key);
      Always(INITIAL, front);
      StepOwed(Run(INITIAL, front), events[|events| - 1], key, Forgotten(front, key));
    }
  }

  /** A message is marked once, and once more at most for every time the deduplication forgot that it was. */
  lemma MarkedOnce(events: seq<Event>, key: string)
    requires TracksAll(events)
    ensures MarksOf(Run(INITIAL, events).marks, key) <= 1 + Forgotten(events, key)
  {
    AlwaysOwed(events, key);
  }

  /** In the continuation `isDuplicate` denies no mark of the message. */
  ghost predicate Remembers(w: World, events: seq<Event>, key: string) {
    forall n | 0 <= n < |events| :: !Forgets(Run(w, events[..n]), events[n], key)
  }

  /** One mark at most, over every continuation with tracked work and a deduplication that remembers. */
  ghost predicate StaysOnce(w: World, key: string) {
    forall events | TracksAll(events) && Remembers(w, events, key) :: MarksOf(Run(w, events).marks, key) <= 1
  }

  lemma RemembersFront(w: World, events: seq<Event>, key: string)
    requires events != [] && Remembers(w, events, key)
    ensures Remembers(w, events[..|events| - 1], key) && !Forgets(Run(w, events[..|events| - 1]), events[|events| - 1], key)
  {
    var front := events[..|events| - 1];
    forall n | 0 <= n < |front| ensures !Forgets(Run(w, front[..n]), front[n], key) {
      assert front[..n] == events[..n] && front[n] == events[n];
    }
  }

  lemma {:induction false} RememberedStaysOwed(w: World, events: seq<Event>, key: string)
    requires Inv(w) && WorkTracked(w) && TracksAll(events) && Remembers(w, events, key) && Owed(w, key, 0)
    ensures Owed(Run(w, events), key, 0)
    decreases |events|
  {
    if events != [] {
      var front := events[..|events| - 1];
      RemembersFront(w, events, key);
      RememberedStaysOwed(w, front, key);
      Always(w, front);
      StepOwed(Run(w, front), events[|events| - 1], key, 0);
    }
  }

  lemma OwedStaysOnce(w: World, key: string)
    requires Inv(w) && WorkTracked(w) && Owed(w, key, 0)
    ensures StaysOnce(w, key)
  {
    forall events | TracksAll(events) && Remembers(w, events, key) ensures MarksOf(Run(w, events).marks, key) <= 1 {
      RememberedStaysOwed(w, events, key);
    }
  }

  /** A current operation of a marked message, started again, marks it again when it succeeds. */
  lemma OperationMarksAgain(w: World, c: nat, key: string)
    requires Inv(w) && Operates(w, c, key) && c !in w.outcome && IsCurrent(w.state, w.calls[c].lease) && MarksOf(w.marks, key) > 0
    ensures !StaysOnce(w, key)
  {
    var ends, back := Ends(c, true), Resume(c, false);
    var events := [ends, back];
    assert events[..1] == [ends] && events[..0] == [] && [ends][..0] == [];
    assert Run(w, events[..0]) == w && Run(w, events[..1]) == Step(w, ends);
    var u := Step(w, ends);
    assert Operates(u, c, key) && MarksSeen(u, c);
    MarksAfter(u.marks, Mark(key, c), key);
    assert Run(w, events) == Step(u, back);
    assert TracksAll(events) && Remembers(w, events, key);
  }

  /** The event asks about the message for a call whose work is tracked and that has not run yet. */
  ghost predicate AsksForWork(w: World, e: Event, key: string) {
    Asks(w, e, key) && e.c !in w.outcome && (e.RunMessage? ==> e.tracked)
  }

  /**
   * A marked message that is asked about again, by a redelivery or by a call
   * that waited behind another, while nothing of it runs: it is never marked
   * again, over every continuation that remembers, exactly when the answer is
   * yes.
   */
  lemma MarkedAgainExactlyWhenForgotten(w: World, e: Event, key: string)
    requires Inv(w) && WorkTracked(w) && MarksOf(w.marks, key) == 1 && !Flying(w, key)
    requires AsksForWork(w, e, key)
    ensures StaysOnce(Step(w, e), key) <==> e.known
  {
    var u := Step(w, e);
    StepKeeps(w, e);
    StepOwed(w, e, key, 0);
    if e.known {
      OwedStaysOnce(u, key);
    } else {
      OperationMarksAgain(u, e.c, key);
    }
  }

  /** One forgotten mark is enough for a second one. */
  function Redelivered(key: string): seq<Event> {
    [Begin, RunMessage(0, key, Lease(1, 1), true, false), Ends(0, true), Resume(0, false)]
  }

  function RedeliveredAgain(key: string): seq<Event> {
    [Begin, RunMessage(1, key, Lease(2, 2), true, false), Ends(1, true), Resume(1, false)]
  }

  lemma ForgottenMarkIsMarkedTwice(key: string)
    ensures MarksOf(Run(Run(INITIAL, Redelivered(key)), RedeliveredAgain(key)).marks, key) == 2
  {
    var e, f := Redelivered(key), RedeliveredAgain(key);
    RunFour(INITIAL, e[0], e[1], e[2], e[3]);
    assert e == [e[0], e[1], e[2], e[3]];
    var a := Step(Step(INITIAL, e[0]), e[1]);
    assert a.calls == map[0 := Call(key, Lease(1, 1), true, Operating)] && a.marks == [];
    var w := Run(INITIAL, e);
    assert w.marks == [] + [Mark(key, 0)] && w.state == State(1, Some(1), {}, map[]) && w.calls.Keys == {0} && w.outcome == map[0 := true];
    RunFour(w, f[0], f[1], f[2], f[3]);
    assert f == [f[0], f[1], f[2], f[3]];
    var b := Step(Step(w, f[0]), f[1]);
    assert b.marks == w.marks && b.calls[1] == Call(key, Lease(2, 2), true, Operating);
    MarksAfter([], Mark(key, 0), key);
    MarksAfter([Mark(key, 0)], Mark(key, 1), key);
    assert Run(w, f).marks == [Mark(key, 0)] + [Mark(key, 1)];
  }

  // ---- the fence ----

  /** A lease that is not current never becomes current again. */
  lemma {:induction false} StaleForever(w: World, events: seq<Event>, l: Lease)
    requires l.generation <= w.state.generation && !IsCurrent(w.state, l)
    ensures l.generation <= Run(w, events).state.generation && !IsCurrent(Run(w, events).state, l)
    decreases |events|
  {
    if events != [] {
      StaleForever(w, events[..|events| - 1], l);
    }
  }

  /** Beginning or ending a connection fences every lease issued before; a new connection's own lease is current. */
  lemma NewConnectionFences(w: World, l: Lease)
    requires l.generation <= w.state.generation && forall s | s in w.state.aborted || w.state.controller == Some(s) :: s <= w.state.generation
    ensures !IsCurrent(Begun(w.state), l) && !IsCurrent(Invalidated(w.state), l)
    ensures IsCurrent(Begun(w.state), LeaseOf(Begun(w.state)))
  {
  }

  // ---- what goes wrong without tracking ----

  /** One untracked message, a settle, and its redelivery on the same connection. */
  function Untracked(key: string): seq<Event> {
    [Begin, RunMessage(0, key, Lease(1, 1), false, false), Clear, RunMessage(1, key, Lease(1, 1), false, false)]
  }

  function Finishing(): seq<Event> {
    [Ends(0, true), Ends(1, true), Resume(0, false), Resume(1, false)]
  }

  lemma RunFour(w: World, a: Event, b: Event, c: Event, d: Event)
    ensures Run(w, [a, b, c, d]) == Step(Step(Step(Step(w, a), b), c), d)
  {
    var s := [a, b, c, d];
    assert s[..|s| - 1] == [a, b, c];
    assert [a, b, c][..|[a, b, c]| - 1] == [a, b];
    assert [a, b][..|[a, b]| - 1] == [a];
    assert [a][..|[a]| - 1] == [];
    assert Run(w, []) == w;
    assert Run(w, [a]) == Step(w, a);
    assert Run(w, [a, b]) == Step(Step(w, a), b);
    assert Run(w, [a, b, c]) == Step(Step(Step(w, a), b), c);
  }

  /** Work that `settle` does not know of loses its registration: the message runs twice at once, on one connection. */
  lemma UntrackedWorkRunsTwice(key: string)
    ensures var w := Run(INITIAL, Untracked(key));
            0 in w.calls && 1 in w.calls && w.calls[0].phase == Operating && w.calls[1].phase == Operating
            && w.calls[0].key == key && w.calls[1].key == key && w.calls[0].lease == w.calls[1].lease
  {
    var e := Untracked(key);
    RunFour(INITIAL, e[0], e[1], e[2], e[3]);
    assert e == [e[0], e[1], e[2], e[3]];
    var a := Step(INITIAL, e[0]);
    assert a.state == State(1, Some(1), {}, map[]);
    var b := Step(a, e[1]);
    assert b.calls == map[0 := Call(key, Lease(1, 1), false, Operating)];
    var c := Step(b, e[2]);
    assert c.state.inFlight == map[] && c.marks == [];
  }

  /** And it is marked twice. */
  lemma UntrackedWorkIsMarkedTwice(key: string)
    ensures Run(Run(INITIAL, Untracked(key)), Finishing()).marks == [Mark(key, 0), Mark(key, 1)]
  {
    var w := Run(INITIAL, Untracked(key));
    UntrackedWorkRunsTwice(key);
    var e := Untracked(key);
    RunFour(INITIAL, e[0], e[1], e[2], e[3]);
    assert e == [e[0], e[1], e[2], e[3]];
    assert w.state == State(1, Some(1), {}, map[key := Flight(1, 1)]) && w.marks == [] && w.outcome == map[];
    var f := Finishing();
    RunFour(w, f[0], f[1], f[2], f[3]);
    assert f == [f[0], f[1], f[2], f[3]];
    var x := Step(Step(w, f[0]), f[1]);
    assert x.outcome == map[0 := true, 1 := true];
    var y := Step(x, f[2]);
    assert y.marks == [Mark(key, 0)] && y.state == w.state;
  }

  // ---- the object ----

  /** The lifecycle object; `Enter` and `Leave` are the stretches of `runMessage` from one await to the next. */
  class Lifecycle {
    var generation: nat
    var controller: Option<nat>
    var aborted: set<nat>
    var inFlight: map<string, Flight>
    var active: set<nat>

    function Value(): State
      reads this
    {
      State(generation, controller, aborted, inFlight)
    }

    constructor ()
      ensures Value() == FRESH && active == {}
    {
      generation, controller, aborted, inFlight, active := 0, None, {}, map[], {};
    }

    method AbortCurrent()
      modifies `aborted
      ensures aborted == Aborting(old(Value()))
    {
      if controller.Some? {
        aborted := aborted + {controller.value};
      }
    }

    method Begin() returns (lease: Lease)
      modifies this
      ensures Value() == Begun(old(Value())) && lease == LeaseOf(Value()) && active == old(active)
    {
      AbortCurrent();
      generation := generation + 1;
      controller := Some(generation);
      lease := Lease(generation, generation);
    }

    method Invalidate()
      modifies this
      ensures Value() == Invalidated(old(Value())) && active == old(active)
    {
      generation := generation + 1;
      AbortCurrent();
      controller := None;
    }

    method Track(task: nat)
      modifies `active
      ensures active == old(active) + {task}
    {
      active := active + {task};
    }

    method Settled(task: nat)
      modifies `active
      ensures active == old(active) - {task}
    {
      active := active - {task};
    }

    /** The start of `runMessage`, and the loop again after waiting behind a predecessor. */
    method Enter(key: string, lease: Lease, c: nat, duplicate: bool) returns (phase: Phase)
      modifies `inFlight
      ensures (Value(), phase) == Checked(old(Value()), key, lease, c, duplicate)
    {
      if !(lease.generation == generation && controller == Some(lease.signal) && lease.signal !in aborted) { return Failed; }
      if duplicate { return Returned; }
      if key in inFlight {
        var existing := inFlight[key];
        return if existing.generation == lease.generation then Joined(existing.call) else Behind(existing.call);
      }
      inFlight := inFlight[key := Flight(lease.generation, c)];
      return Operating;
    }

    /** After the operation's promise settled: final check, mark, unregister. */
    method Leave(key: string, lease: Lease, c: nat, success: bool) returns (phase: Phase, markSeen: bool)
      modifies `inFlight
      ensures Value() == Unregistered(old(Value()), key, c)
      ensures markSeen <==> success && IsCurrent(old(Value()), lease)
      ensures phase == if markSeen then Returned else Failed
    {
      markSeen := success && lease.generation == generation && controller == Some(lease.signal) && lease.signal !in aborted;
      phase := if markSeen then Returned else Failed;
      if key in inFlight && inFlight[key].call == c {
        inFlight := inFlight - {key};
      }
    }

    /** The end of `settle`, reached only with no active callback left. */
    method ClearRegistry()
      requires active == {}
      modifies `inFlight
      ensures Value() == old(Value()).(inFlight := map[])
    {
      inFlight := map[];
    }
  }
}
