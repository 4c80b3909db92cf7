/**
 * Who shares an operation and who waits behind it: a redelivery on the same
 * connection shares the running operation and its result, one on a newer
 * connection waits for the older attempt to end and then starts its own.
 */
module InboundSharing {
  import opened Options
  import opened InboundLifecycle

  // ---- what every reachable world keeps ----

  /** Registrations name calls of their message and generation, and leases are never from the future. */
  ghost predicate Registered(w: World) {
    (forall key | key in w.state.inFlight ::
       var f := w.state.inFlight[key];
       f.call in w.calls && w.calls[f.call].key == key && w.calls[f.call].lease.generation == f.generation)
    && forall c | c in w.calls :: w.calls[c].lease.generation <= w.state.generation
  }

  /** A call that shares has the message and the generation of the other call; one that waits has its message and a later generation. */
  predicate Related(w: World, x: Call) {
    match x.phase
    case Joined(on) => on in w.calls && w.calls[on].key == x.key && w.calls[on].lease.generation == x.lease.generation
    case Behind(on) => on in w.calls && w.calls[on].key == x.key && w.calls[on].lease.generation < x.lease.generation
    case _ => true
  }

  ghost predicate Sharing(w: World) {
    Registered(w) && forall c | c in w.calls :: Related(w, w.calls[c])
  }

  lemma CheckedSharing(w: World, x: Call, c: nat, duplicate: bool)
    requires Sharing(w) && x.lease.generation <= w.state.generation
    requires c in w.calls ==> w.calls[c].key == x.key && w.calls[c].lease == x.lease
    ensures var (s, p) := Checked(w.state, x.key, x.lease, c, duplicate);
            Sharing(w.(state := s, calls := w.calls[c := x.(phase := p)]))
  {
    var (s, p) := Checked(w.state, x.key, x.lease, c, duplicate);
    var u := w.(state := s, calls := w.calls[c := x.(phase := p)]);
    forall d | d in u.calls ensures Related(u, u.calls[d]) {
      if d != c {
        assert Related(w, w.calls[d]);
      }
    }
  }

  lemma StepSharing(w: World, e: Event)
    requires Sharing(w)
    ensures Sharing(Step(w, e))
  {
    var u := Step(w, e);
    if e.RunMessage? && u != w {
      CheckedSharing(w, Call(e.key, e.lease, e.tracked, Failed), e.c, e.known);
    } else if e.Resume? && e.c in w.calls && w.calls[e.c].phase.Behind? && u != w {
      CheckedSharing(w, w.calls[e.c], e.c, e.known);
    } else {
      forall d | d in u.calls ensures Related(u, u.calls[d]) {
        assert Related(w, w.calls[d]);
      }
    }
  }

  lemma {:induction false} AlwaysSharing(w: World, events: seq<Event>)
    requires Sharing(w)
    ensures Sharing(Run(w, events))
    decreases |events|
  {
    if events != [] {
      AlwaysSharing(w, events[..|events| - 1]);
      StepSharing(Run(w, events[..|events| - 1]), events[|events| - 1]);
    }
  }

  /**
   * In every reachable world, tracked or not: a call shares only an operation
   * of its own message and connection, and waits only behind an attempt of its
   * own message on an older connection.
   */
  lemma SharesOwnWaitsBehindOlder(events: seq<Event>, c: nat, on: nat)
    requires var w := Run(INITIAL, events); c in w.calls && w.calls[c].phase in {Joined(on), Behind(on)}
    ensures var w := Run(INITIAL, events);
            on in w.calls && w.calls[on].key == w.calls[c].key
            && (w.calls[c].phase == Joined(on) <==> w.calls[on].lease.generation == w.calls[c].lease.generation)
            && (w.calls[c].phase == Behind(on) <==> w.calls[on].lease.generation < w.calls[c].lease.generation)
  {
    AlwaysSharing(INITIAL, events);
    assert Related(Run(INITIAL, events), Run(INITIAL, events).calls[c]);
  }

  // ---- a shared result ----

  predicate SharesOrShared(w: World, c: nat, on: nat) {
    c in w.calls
    && (w.calls[c].phase == Joined(on)
        || (on in w.outcome && w.calls[c].phase == if w.outcome[on] then Returned else Failed))
  }

  /** Over any later events a call that shares an operation still waits for it, or has returned exactly if the operation succeeded. */
  lemma {:induction false} SharedResult(w: World, events: seq<Event>, c: nat, on: nat)
    requires SharesOrShared(w, c, on)
    ensures SharesOrShared(Run(w, events), c, on)
    decreases |events|
  {
    if events != [] {
      SharedResult(w, events[..|events| - 1], c, on);
      StepShares(Run(w, events[..|events| - 1]), events[|events| - 1], c, on);
    }
  }

  lemma StepShares(w: World, e: Event, c: nat, on: nat)
    requires SharesOrShared(w, c, on)
    ensures SharesOrShared(Step(w, e), c, on)
  {
  }

  /** And once the operation has ended, resuming the call ends it so. */
  lemma SharedEnds(w: World, c: nat, on: nat, known: bool)
    requires c in w.calls && w.calls[c].phase == Joined(on) && on in w.outcome
    ensures var u := Step(w, Resume(c, known));
            c in u.calls && (u.calls[c].phase == Returned <==> w.outcome[on]) && (u.calls[c].phase == Failed <==> !w.outcome[on])
            && u.state == w.state && u.marks == w.marks
  {
  }

  // ---- who starts ----

  /** How a call that passes its checks goes on, told from the operations in flight. */
  ghost predicate GoesOn(w: World, x: Call, c: nat, p: Phase) {
    if !IsCurrent(w.state, x.lease) then p == Failed
    else
      match p
      case Operating => !Flying(w, x.key)
      case Joined(on) => Operates(w, on, x.key) && w.calls[on].lease.generation == x.lease.generation
      case Behind(on) => Operates(w, on, x.key) && w.calls[on].lease.generation != x.lease.generation
      case Returned => false
      case Failed => false
  }

  lemma CheckedGoesOn(w: World, x: Call, c: nat, duplicate: bool)
    requires Inv(w)
    ensures var (_, p) := Checked(w.state, x.key, x.lease, c, duplicate);
            if duplicate && IsCurrent(w.state, x.lease) then p == Returned else GoesOn(w, x, c, p)
  {
    forall d | Operates(w, d, x.key) ensures x.key in w.state.inFlight {
      assert CallOk(w, d);
    }
    if x.key in w.state.inFlight {
      var on := w.state.inFlight[x.key].call;
      assert Operates(w, on, x.key) && CallOk(w, on);
    }
  }

  /**
   * A message that enters: under a stale lease it fails, as a duplicate it
   * returns; otherwise it starts its own operation exactly when none of the
   * message is in flight, shares one of its own connection, and waits behind
   * one of another.
   */
  lemma EntryIsDecided(w: World, c: nat, key: string, lease: Lease, tracked: bool, known: bool)
    requires Inv(w) && c !in w.calls && c !in w.outcome && lease.generation <= w.state.generation
    ensures var u := Step(w, RunMessage(c, key, lease, tracked, known)); var x := Call(key, lease, tracked, Failed);
            c in u.calls && u.calls[c].key == key && u.calls[c].lease == lease && u.calls[c].tracked == tracked
            && if known && IsCurrent(w.state, lease) then u.calls[c].phase == Returned else GoesOn(w, x, c, u.calls[c].phase)
  {
    CheckedGoesOn(w, Call(key, lease, tracked, Failed), c, known);
  }

  /**
   * A call that waited behind an older attempt: once that one has ended, and
   * the call is still current and no duplicate, it starts its own operation
   * exactly when no other of the message is in flight.
   */
  lemma WaiterStarts(w: World, c: nat, on: nat, known: bool)
    requires Inv(w) && c in w.calls && w.calls[c].phase == Behind(on) && on in w.outcome && IsCurrent(w.state, w.calls[c].lease)
    ensures var u := Step(w, Resume(c, known)); var key := w.calls[c].key;
            c in u.calls && (u.calls[c].phase == Operating <==> !known && !Flying(w, key))
            && (u.calls[c].phase == Returned <==> known)
            && (u.calls[c].phase == Operating ==> Operates(u, c, key))
  {
    CheckedGoesOn(w, w.calls[c], c, known);
  }

  /** A waiting call whose connection is gone gives up, whatever the older attempt did. */
  lemma StaleWaiterFails(w: World, c: nat, on: nat, known: bool)
    requires c in w.calls && w.calls[c].phase == Behind(on) && on in w.outcome && !IsCurrent(w.state, w.calls[c].lease)
    ensures var u := Step(w, Resume(c, known)); c in u.calls && u.calls[c].phase == Failed && u.state == w.state
  {
  }

  /** A redelivery on a new connection is not lost with the attempt it waited behind: when that one has failed and gone, it runs and marks. */
  lemma RedeliveryRunsAfterStaleAttempt(w: World, c: nat, on: nat)
    requires Inv(w) && c in w.calls && Operates(w, on, w.calls[c].key) && on !in w.outcome && c !in w.outcome
    requires w.calls[c].phase == Behind(on) && IsCurrent(w.state, w.calls[c].lease) && !IsCurrent(w.state, w.calls[on].lease)
    ensures var a := Step(Step(w, Ends(on, false)), Resume(on, false));
            var b := Step(a, Resume(c, false));
            var d := Step(Step(b, Ends(c, true)), Resume(c, false));
            a.marks == w.marks && a.calls[on].phase == Failed && Operates(b, c, w.calls[c].key)
            && d.calls[c].phase == Returned && d.marks == w.marks + [Mark(w.calls[c].key, c)]
  {
    var key := w.calls[c].key;
    assert CallOk(w, on);
    var a := Step(Step(w, Ends(on, false)), Resume(on, false));
    assert key !in a.state.inFlight && a.calls[c] == w.calls[c] && on in a.outcome;
    var b := Step(a, Resume(c, false));
    assert b.calls[c].phase == Operating;
  }
}
