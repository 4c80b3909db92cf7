/**
 * How far the attempt budget reaches: which outside writes to a card it
 * survives, exactly, and what a crash between the provider's refusal and the
 * write of the count does to it.
 */
module RecoveryLimits {
  import opened Options
  import opened ChannelDb
  import opened CardRecovery
  import opened RecoveryBudget
  import Turns = TurnTable
  import Cards = CardTable

  // ---- runs one after the other ----

  lemma SequentialJoined(w: World, a: seq<Event>, b: seq<Event>, id: string)
    requires Sequential(w, a, id) && Sequential(RunAll(w, a), b, id)
    ensures Sequential(w, a + b, id) && RunAll(w, a + b) == RunAll(RunAll(w, a), b)
  {
    RunJoined(w, a, b);
    forall k | 0 <= k < |a + b| ensures Orderly(RunAll(w, (a + b)[..k]), (a + b)[k], id) {
      JoinedAt(w, a, b, k);
    }
  }

  lemma OneEvent(w: World, e: Event, id: string)
    requires Orderly(w, e, id)
    ensures Sequential(w, [e], id) && RunAll(w, [e]) == Step(w, e)
  {
    assert [e][..0] == [];
    assert RunAll(w, []) == w;
  }

  lemma Prepended(w: World, e: Event, events: seq<Event>, id: string)
    requires Orderly(w, e, id) && Sequential(Step(w, e), events, id)
    ensures Sequential(w, [e] + events, id) && RunAll(w, [e] + events) == RunAll(Step(w, e), events)
  {
    OneEvent(w, e, id);
    SequentialJoined(w, [e], events, id);
  }

  // ---- one refused attempt ----

  /** A card recovery can ask the provider about, with nothing under way. */
  ghost predicate Attemptable(w: World, card: string) {
    w.procs == map[] && card in w.db.cards && w.db.cards[card].provider == "feishu"
    && !Cards.Terminal(w.db.cards[card].status) && HasIdentity(w.db.cards[card])
  }

  /** Late enough for every lease in the way. */
  function Late(db: Db, card: string): int
    requires card in db.cards
  {
    var stale := db.cards[card].updatedAt + LEASE_MS;
    var turn := db.cards[card].turn;
    if turn in db.turns && db.turns[turn].expires.Some? && db.turns[turn].expires.value > stale then db.turns[turn].expires.value else stale
  }

  function Claiming(db: Db, card: string): Event
    requires card in db.cards
  {
    Begin(0, card, db.cards[card].revision, false, None, Late(db, card), Late(db, card))
  }

  const REFUSAL := Answer(0, Refused(true, false))

  /** An attempt the provider refuses: counted if the process lives on, swallowed if it dies there. */
  function Attempt(db: Db, card: string, last: Event): seq<Event>
    requires card in db.cards
  {
    [Claiming(db, card)] + [Decide(0, false, 0)] + [REFUSAL] + [last]
  }

  /** The attempt under way on the card as it was stored in `w`. */
  ghost predicate Attempting(w: World, v: World, card: string, phase: Phase) {
    v.procs.Keys == {0} && v.procs[0].card == card && v.procs[0].phase == phase && HasIdentity(v.procs[0].claimed)
    && v.procs[0].claimed.snapshot.recoveryAttempts == Stored(w.db, card)
    && card in w.db.cards && card in v.db.cards && v.db.cards[card].status == Cards.Recovering
    && v.db.cards[card].provider == w.db.cards[card].provider && HasIdentity(v.db.cards[card]) && Stored(v.db, card) == Stored(w.db, card)
    && Lost(v, card) == Lost(w, card)
  }

  lemma AttemptBegins(w: World, card: string)
    requires Attemptable(w, card)
    ensures var v := Step(w, Claiming(w.db, card));
            Attempting(w, v, card, Claimed) && Failures(v, card) == Failures(w, card)
  {
  }

  lemma AttemptDecides(w: World, v: World, card: string)
    requires Attempting(w, v, card, Claimed)
    ensures var x := Step(v, Decide(0, false, 0)); Attempting(w, x, card, Decided) && Failures(x, card) == Failures(v, card)
  {
  }

  lemma AttemptFails(w: World, v: World, card: string)
    requires Attempting(w, v, card, Decided)
    ensures var x := Step(v, REFUSAL);
            Attempting(w, x, card, Answered(Refused(true, false))) && Failures(x, card) == Failures(v, card) + 1
  {
  }

  lemma AttemptDies(w: World, v: World, card: string)
    requires Attempting(w, v, card, Answered(Refused(true, false))) && w.db.cards[card].provider == "feishu"
    ensures var x := Step(v, Crash(0));
            Attemptable(x, card) && Failures(x, card) == Failures(v, card) && Lost(x, card) == Lost(v, card) + 1
            && Stored(x.db, card) == Stored(w.db, card)
  {
  }

  lemma AttemptIsCounted(w: World, v: World, card: string)
    requires Attempting(w, v, card, Answered(Refused(true, false))) && w.db.cards[card].provider == "feishu"
    ensures var x := Step(v, Settle(0, 0));
            Failures(x, card) == Failures(v, card) && Lost(x, card) == Lost(v, card)
            && (Stored(w.db, card) + 1 < MAX_ATTEMPTS ==> Attemptable(x, card) && Stored(x.db, card) == Stored(w.db, card) + 1)
  {
    var q := v.procs[0];
    var attempts := Attempts(q, true);
    WriteStores(v.db, card, v.db.cards[card].revision, Final(Cards.Streaming, None, Some(attempts), q.claimed.snapshot, Some("Deferred recovery")), 0);
  }

  lemma FourEvents(w: World, a: Event, b: Event, c: Event, d: Event, id: string)
    requires Orderly(w, a, id) && forall e | e in {b, c, d} :: !e.Begin? && !e.Aside?
    ensures Sequential(w, [a] + [b] + [c] + [d], id) && RunAll(w, [a] + [b] + [c] + [d]) == Step(Step(Step(Step(w, a), b), c), d)
  {
    OneEvent(Step(Step(Step(w, a), b), c), d, id);
    Prepended(Step(Step(w, a), b), c, [d], id);
    Prepended(Step(w, a), b, [c] + [d], id);
    Prepended(w, a, [b] + ([c] + [d]), id);
    assert [a] + [b] + [c] + [d] == [a] + ([b] + ([c] + [d]));
  }

  ghost function AfterRefusal(w: World, card: string): World
    requires card in w.db.cards
  {
    Step(Step(Step(w, Claiming(w.db, card)), Decide(0, false, 0)), REFUSAL)
  }

  lemma AttemptIsRefused(w: World, card: string)
    requires Attemptable(w, card)
    ensures Attempting(w, AfterRefusal(w, card), card, Answered(Refused(true, false)))
    ensures Failures(AfterRefusal(w, card), card) == Failures(w, card) + 1
  {
    var a := Step(w, Claiming(w.db, card));
    AttemptBegins(w, card);
    AttemptDecides(w, a, card);
    AttemptFails(w, Step(a, Decide(0, false, 0)), card);
  }

  /** The attempt as a run of events: none of them is an outside one. */
  lemma AttemptRuns(w: World, card: string, last: Event)
    requires Attemptable(w, card) && (last == Crash(0) || last == Settle(0, 0))
    ensures Sequential(w, Attempt(w.db, card, last), card) && RunAll(w, Attempt(w.db, card, last)) == Step(AfterRefusal(w, card), last)
  {
    FourEvents(w, Claiming(w.db, card), Decide(0, false, 0), REFUSAL, last, card);
  }

  /** As many counted refusals in a row as the cap still allows. */
  lemma {:induction false} CountedFailures(w: World, card: string, n: nat) returns (events: seq<Event>)
    requires Attemptable(w, card) && Stored(w.db, card) + n <= MAX_ATTEMPTS
    ensures Sequential(w, events, card)
    ensures var v := RunAll(w, events);
            Failures(v, card) == Failures(w, card) + n && Lost(v, card) == Lost(w, card)
            && (Stored(w.db, card) + n < MAX_ATTEMPTS ==> Attemptable(v, card) && Stored(v.db, card) == Stored(w.db, card) + n)
  {
    if n == 0 {
      events := [];
    } else {
      var front := CountedFailures(w, card, n - 1);
      var mid := RunAll(w, front);
      AttemptRuns(mid, card, Settle(0, 0));
      AttemptIsRefused(mid, card);
      AttemptIsCounted(mid, AfterRefusal(mid, card), card);
      SequentialJoined(w, front, Attempt(mid.db, card, Settle(0, 0)), card);
      events := front + Attempt(mid.db, card, Settle(0, 0));
    }
  }

  /** The cap of five counts stored failures only: with a crash after each refusal there is no bound on the attempts the provider sees. */
  lemma {:induction false} CrashesEscapeTheCap(w: World, card: string, n: nat) returns (events: seq<Event>)
    requires Attemptable(w, card)
    ensures Sequential(w, events, card) && Attemptable(RunAll(w, events), card)
    ensures Failures(RunAll(w, events), card) == Failures(w, card) + n
    ensures Stored(RunAll(w, events).db, card) == Stored(w.db, card)
  {
    if n == 0 {
      events := [];
    } else {
      var front := CrashesEscapeTheCap(w, card, n - 1);
      var mid := RunAll(w, front);
      AttemptRuns(mid, card, Crash(0));
      AttemptIsRefused(mid, card);
      AttemptDies(mid, AfterRefusal(mid, card), card);
      SequentialJoined(w, front, Attempt(mid.db, card, Crash(0)), card);
      events := front + Attempt(mid.db, card, Crash(0));
    }
  }

  // ---- which outside writes the budget survives ----

  /** Five failures and the swallowed ones, over every orderly continuation. */
  ghost predicate StaysBounded(w: World, id: string) {
    forall events | Sequential(w, events, id) :: Failures(RunAll(w, events), id) <= MAX_ATTEMPTS + Lost(RunAll(w, events), id)
  }

  lemma BudgetStaysBounded(w: World, id: string)
    requires Budget(w, id)
    ensures StaysBounded(w, id)
  {
    forall events | Sequential(w, events, id) ensures Failures(RunAll(w, events), id) <= MAX_ATTEMPTS + Lost(RunAll(w, events), id) {
      RunKeepsBudget(w, events, id);
      BudgetBounds(RunAll(w, events), id);
    }
  }

  /** One failure too many for the count that is stored. */
  lemma OverspentIsNotBounded(w: World, id: string)
    requires Attemptable(w, id) && Stored(w.db, id) <= MAX_ATTEMPTS && Failures(w, id) > Stored(w.db, id) + Lost(w, id)
    ensures !StaysBounded(w, id)
  {
    var events := CountedFailures(w, id, MAX_ATTEMPTS - Stored(w.db, id));
    assert Sequential(w, events, id);
  }

  /**
   * An outside write to a card no recovery is working on, which leaves it open:
   * the bound survives every continuation exactly when the write does not lower
   * the stored count. (`w`: every failure so far is counted or swallowed.)
   */
  lemma OutsideWriteMustKeepTheCount(w: World, op: Op, id: string)
    requires Attemptable(w, id) && AsideOk(w, op) && Attemptable(Step(w, Aside(op)), id)
    requires Failures(w, id) == Stored(w.db, id) + Lost(w, id) && Stored(w.db, id) < MAX_ATTEMPTS
    ensures StaysBounded(Step(w, Aside(op)), id) <==> Stored(Step(w, Aside(op)).db, id) >= Stored(w.db, id)
  {
    var u := Step(w, Aside(op));
    if Stored(u.db, id) >= Stored(w.db, id) {
      assert AtRest(u, id);
      BudgetStaysBounded(u, id);
    } else {
      OverspentIsNotBounded(u, id);
    }
  }

  /** A recovery that was refused and has not stored the count yet. */
  ghost predicate Refusing(w: World, p: nat, id: string) {
    w.procs.Keys == {p} && w.procs[p].card == id && Uncounted(w.procs[p])
    && id in w.db.cards && w.db.cards[id].status == Cards.Recovering
    && w.procs[p].claimed.snapshot.recoveryAttempts == Stored(w.db, id) < MAX_ATTEMPTS
    && Failures(w, id) == Stored(w.db, id) + Lost(w, id) + 1
  }

  /** A refused recovery that finds its card taken away does not store the count. */
  lemma ReleasedIsNotCounted(u: World, p: nat, id: string)
    requires u.procs.Keys == {p} && u.procs[p].card == id && Uncounted(u.procs[p])
    requires id in u.db.cards && u.db.cards[id].status != Cards.Recovering
    ensures Step(u, Settle(p, 0)) == u.(procs := map[])
  {
    assert Applies(u, Settle(p, 0));
    assert PlanOf(u, Settle(p, 0)).procs == map[];
  }

  /**
   * An outside write to a card while the provider's refusal is not counted yet,
   * which leaves it open with the same count: the bound survives every
   * continuation exactly when the write leaves the card to the recovery.
   */
  lemma OutsideWriteMustLeaveTheRecovery(w: World, p: nat, op: Op, id: string)
    requires Refusing(w, p, id) && AsideOk(w, op)
    requires Attemptable(Step(w, Aside(op)).(procs := map[]), id) && Stored(Step(w, Aside(op)).db, id) == Stored(w.db, id)
    ensures StaysBounded(Step(w, Aside(op)), id) <==> Step(w, Aside(op)).db.cards[id].status == Cards.Recovering
  {
    var u := Step(w, Aside(op));
    if u.db.cards[id].status == Cards.Recovering {
      assert UnderWay(u, u.procs[p], id);
      BudgetStaysBounded(u, id);
    } else {
      ReleasedIsNotCounted(u, p, id);
      var x := u.(procs := map[]);
      var events := CountedFailures(x, id, MAX_ATTEMPTS - Stored(x.db, id));
      Prepended(u, Settle(p, 0), events, id);
      assert Sequential(u, [Settle(p, 0)] + events, id);
    }
  }

  // ---- which crashes the cap survives ----

  /** Five failures, over every orderly continuation in which no further count is swallowed. */
  ghost predicate StaysCapped(w: World, id: string) {
    forall events | Sequential(w, events, id) && Lost(RunAll(w, events), id) == Lost(w, id) ::
      Failures(RunAll(w, events), id) <= MAX_ATTEMPTS
  }

  /** A recovery with the card in hand, every failure so far counted, but for its own refusal if it was refused. */
  ghost predicate Recovers(w: World, p: nat, id: string) {
    w.procs.Keys == {p} && InHand(w.procs[p], id)
    && id in w.db.cards && w.db.cards[id].status == Cards.Recovering && w.db.cards[id].provider == "feishu" && HasIdentity(w.db.cards[id])
    && w.procs[p].claimed.snapshot.recoveryAttempts == Stored(w.db, id) < MAX_ATTEMPTS
    && Lost(w, id) == 0 && Failures(w, id) == Stored(w.db, id) + (if Uncounted(w.procs[p]) then 1 else 0)
  }

  /**
   * The cap of five survives a crash exactly when the recovery that dies has no
   * refusal left to count: at every other cut point all continuations stay
   * within five, after a refusal one of them reaches six.
   */
  lemma CrashMustNotSwallow(w: World, p: nat, id: string)
    requires Recovers(w, p, id)
    ensures StaysCapped(Step(w, Crash(p)), id) <==> !Uncounted(w.procs[p])
  {
    var u := Step(w, Crash(p));
    if Uncounted(w.procs[p]) {
      var events := CountedFailures(u, id, MAX_ATTEMPTS - Stored(u.db, id));
      assert Sequential(u, events, id);
    } else {
      assert AtRest(u, id);
      forall events | Sequential(u, events, id) && Lost(RunAll(u, events), id) == Lost(u, id)
        ensures Failures(RunAll(u, events), id) <= MAX_ATTEMPTS
      {
        RunKeepsBudget(u, events, id);
        BudgetBounds(RunAll(u, events), id);
      }
    }
  }

  /** Over a whole run: the cap holds unless a crash swallowed a count. */
  lemma SixthFailureNeedsASwallowedCount(w: World, events: seq<Event>, id: string)
    requires Initial(w) && Sequential(w, events, id) && (id in w.db.cards ==> w.db.cards[id].snapshot.recoveryAttempts == 0)
    requires Failures(RunAll(w, events), id) > MAX_ATTEMPTS
    ensures exists n :: 0 <= n < |events| && Swallows(RunAll(w, events[..n]), events[n], id)
  {
    AtMostFiveFailures(w, events, id);
    LostWasSwallowed(w, events, id);
  }

  /** The crash of a recovery between the provider's refusal and the write of the count. */
  predicate Swallows(w: World, e: Event, id: string) {
    e.Crash? && e.p in w.procs && Uncounted(w.procs[e.p]) && w.procs[e.p].card == id
  }

  lemma {:induction false} LostWasSwallowed(w: World, events: seq<Event>, id: string)
    requires Lost(RunAll(w, events), id) > Lost(w, id)
    ensures exists n :: 0 <= n < |events| && Swallows(RunAll(w, events[..n]), events[n], id)
    decreases |events|
  {
    var n := |events| - 1;
    var front := events[..n];
    if Lost(RunAll(w, front), id) > Lost(w, id) {
      LostWasSwallowed(w, front, id);
      var k :| 0 <= k < |front| && Swallows(RunAll(w, front[..k]), front[k], id);
      assert front[..k] == events[..k] && front[k] == events[k];
    } else {
      assert Swallows(RunAll(w, events[..n]), events[n], id);
    }
  }
}
