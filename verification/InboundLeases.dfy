/**
 * How long a connection's lease lasts, when its signal tells the work to stop,
 * and what a finished operation must have had to leave its mark.
 */
module InboundLeases {
  import opened Options
  import opened InboundLifecycle

  /** A new connection or an invalidation. */
  predicate Fences(e: Event) {
    e == Begin || e == Invalidate
  }

  ghost predicate FencedBetween(events: seq<Event>, n: nat, m: nat) {
    exists j :: FencesAt(events, j) && n < j < m
  }

  predicate FencesAt(events: seq<Event>, j: int) {
    0 <= j < |events| && Fences(events[j])
  }

  ghost function StateAt(events: seq<Event>, n: nat): State
    requires n <= |events|
  {
    Run(INITIAL, events[..n]).state
  }

  /** The lease that the connection begun at event `n` hands out. */
  ghost function LeaseAt(events: seq<Event>, n: nat): Lease
    requires n < |events|
  {
    LeaseOf(StateAt(events, n + 1))
  }

  lemma NextState(events: seq<Event>, n: nat)
    requires n < |events|
    ensures Run(INITIAL, events[..n + 1]) == Step(Run(INITIAL, events[..n]), events[n])
  {
    assert events[..n + 1][..n] == events[..n];
  }

  lemma StepState(w: World, e: Event)
    requires Numbered(w.state)
    ensures var s, u := w.state, Step(w, e).state;
            Numbered(u) && s.aborted <= u.aborted
            && if Fences(e) then
                 u.generation == s.generation + 1 && u.controller == (if e.Begin? then Some(u.generation) else None)
                 && forall a :: a in u.aborted <==> a in s.aborted || s.controller == Some(a)
               else u.generation == s.generation && u.controller == s.controller && u.aborted == s.aborted
  {
  }

  lemma {:induction false} AlwaysNumbered(events: seq<Event>, n: nat)
    requires n <= |events|
    ensures Numbered(StateAt(events, n))
    decreases n
  {
    if n == 0 {
      assert events[..0] == [];
    } else {
      AlwaysNumbered(events, n - 1);
      NextState(events, n - 1);
      StepState(Run(INITIAL, events[..n - 1]), events[n - 1]);
    }
  }

  /** Where the state stands towards a lease: on it, or past it and its signal aborted. */
  predicate Towards(s: State, l: Lease, fenced: bool) {
    if fenced then s.generation > l.generation && l.signal in s.aborted
    else s.generation == l.generation && s.controller == Some(l.signal) && l.signal !in s.aborted
  }

  lemma FirstState(events: seq<Event>, n: nat)
    requires n < |events| && events[n] == Begin
    ensures Towards(StateAt(events, n + 1), LeaseAt(events, n), false) && LeaseAt(events, n).generation == StateAt(events, n).generation + 1
    ensures LeaseAt(events, n).signal == LeaseAt(events, n).generation
  {
    AlwaysNumbered(events, n);
    NextState(events, n);
  }

  lemma StepTowards(w: World, e: Event, l: Lease, fenced: bool)
    requires Numbered(w.state) && Towards(w.state, l, fenced)
    ensures Towards(Step(w, e).state, l, fenced || Fences(e))
  {
    StepState(w, e);
  }

  lemma FencedLast(events: seq<Event>, n: nat, m: nat)
    requires n < m < |events|
    ensures FencedBetween(events, n, m + 1) <==> FencedBetween(events, n, m) || Fences(events[m])
  {
    if Fences(events[m]) {
      assert FencesAt(events, m);
    }
  }

  lemma {:induction false} StandsTowards(events: seq<Event>, n: nat, m: nat)
    requires n < m <= |events| && events[n] == Begin
    ensures Towards(StateAt(events, m), LeaseAt(events, n), FencedBetween(events, n, m))
    decreases m
  {
    FirstState(events, n);
    if m > n + 1 {
      StandsTowards(events, n, m - 1);
      AlwaysNumbered(events, m - 1);
      NextState(events, m - 1);
      StepTowards(Run(INITIAL, events[..m - 1]), events[m - 1], LeaseAt(events, n), FencedBetween(events, n, m - 1));
      FencedLast(events, n, m - 1);
    }
  }

  /**
   * A lease is current from its connection's begin to the next begin or
   * invalidation, exactly, and its signal is aborted exactly from then on.
   */
  lemma LeaseLasts(events: seq<Event>, n: nat, m: nat)
    requires n < m <= |events| && events[n] == Begin
    ensures IsCurrent(StateAt(events, m), LeaseAt(events, n)) <==> !FencedBetween(events, n, m)
    ensures LeaseAt(events, n).signal in StateAt(events, m).aborted <==> FencedBetween(events, n, m)
  {
    StandsTowards(events, n, m);
  }

  /** No two connections hand out the same generation or the same signal; later ones are later. */
  lemma LeasesAreDistinct(events: seq<Event>, n: nat, m: nat)
    requires n < m < |events| && events[n] == Begin && events[m] == Begin
    ensures LeaseAt(events, n).generation < LeaseAt(events, m).generation && LeaseAt(events, n).signal < LeaseAt(events, m).signal
  {
    StandsTowards(events, n, m);
    FirstState(events, m);
    FirstState(events, n);
  }

  // ---- finished operations ----

  /** The operation is over and succeeded, and its connection is still the current one. */
  predicate Deserves(w: World, c: nat) {
    c in w.calls && w.calls[c].phase == Operating && c in w.outcome && w.outcome[c] == true
    && w.calls[c].lease.generation == w.state.generation && w.state.controller == Some(w.calls[c].lease.signal)
    && w.calls[c].lease.signal !in w.state.aborted
  }

  /** An operation that has ended frees its message; its call returns and marks the message exactly if it deserves to, and fails otherwise. */
  lemma OperationEnds(w: World, c: nat, known: bool)
    requires Inv(w) && c in w.calls && w.calls[c].phase == Operating && c in w.outcome
    ensures var u := Step(w, Resume(c, known)); var key := w.calls[c].key;
            c in u.calls && u.calls[c].phase == (if Deserves(w, c) then Returned else Failed)
            && u.marks == w.marks + (if Deserves(w, c) then [Mark(key, c)] else [])
            && key !in u.state.inFlight && (forall k | k != key :: k in u.state.inFlight <==> k in w.state.inFlight)
            && u.outcome == w.outcome && (forall d | d in w.calls && d != c :: d in u.calls && u.calls[d] == w.calls[d])
  {
    assert CallOk(w, c);
  }

  /** Every mark of a run was deserved at the moment it was made. */
  lemma MarksAreDeserved(events: seq<Event>, i: nat)
    requires TracksAll(events) && i < |Run(INITIAL, events).marks|
    ensures exists n :: 0 <= n < |events| && events[n].Resume? && Deserves(Run(INITIAL, events[..n]), events[n].c)
                        && Run(INITIAL, events).marks[i] == Mark(Run(INITIAL, events[..n]).calls[events[n].c].key, events[n].c)
  {
    MarksAreEarned(events, i);
    var n :| 0 <= n < |events| && Earns(Run(INITIAL, events[..n]), events[n], Run(INITIAL, events).marks[i]);
    assert Deserves(Run(INITIAL, events[..n]), events[n].c);
  }

  /** The registry is cleared exactly when every tracked call has returned or failed. */
  lemma ClearsExactlyWhenSettled(w: World)
    ensures var u := Step(w, Clear); var settled := forall c | c in w.calls && w.calls[c].tracked :: w.calls[c].phase == Returned || w.calls[c].phase == Failed;
            u.calls == w.calls && u.outcome == w.outcome && u.marks == w.marks
            && u.state == w.state.(inFlight := if settled then map[] else w.state.inFlight)
  {
  }
}
