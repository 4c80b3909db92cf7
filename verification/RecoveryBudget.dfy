/**
 * The attempt budget of one card. Passes do not overlap, everything else goes
 * on around them: other cards come and go, turns and outputs move, and the card
 * itself may be created, annotated, finished by its own writer or removed.
 */
module RecoveryBudget {
  import opened Options
  import opened ChannelDb
  import opened CardRecovery
  import Turns = TurnTable
  import Cards = CardTable

  // ---- what others may do to the card ----

  function Stored(db: Db, id: string): nat {
    if id in db.cards then db.cards[id].snapshot.recoveryAttempts else 0
  }

  /** An outside write may close an open card; one that leaves it open keeps its count and does not take it away from a recovery. */
  predicate SparesRow(r: Cards.Row, s: Cards.Row) {
    Cards.Terminal(s.status)
    || (s.snapshot.recoveryAttempts >= r.snapshot.recoveryAttempts && (r.status == Cards.Recovering ==> s.status == Cards.Recovering))
  }

  /** What an outside statement does to card `id` respects its budget. */
  ghost predicate Spares(db: Db, op: Op, id: string) {
    id in db.cards && !Cards.Terminal(db.cards[id].status) ==>
      if id in Apply(db, op).cards then SparesRow(db.cards[id], Apply(db, op).cards[id])
      else db.cards[id].snapshot.recoveryAttempts == 0
  }

  /**
   * Statements on other tables and other cards, creation, notes, writes under
   * an outdated revision, edits that leave status and snapshot alone, and the
   * finish of a card by its own writer are all ordinary in this sense.
   */
  lemma OrdinaryTrafficSpares(db: Db, op: Op, id: string)
    requires op.OnCard? && op.c.id == id && id in db.cards ==>
               op.c.Insert? || op.c.NoteOp? || op.c.ClaimRecoveryOp?
               || (op.c.UpdateOp? && (op.c.revision != db.cards[id].revision
                                      || (op.c.patch.status.Some? && Cards.Terminal(op.c.patch.status.value))
                                      || (op.c.patch.status == None && op.c.patch.snapshot == None)))
               || (op.c.RemoveOp? && db.cards[id].snapshot.recoveryAttempts == 0)
    ensures Spares(db, op, id)
  {
  }

  /** Passes do not overlap: a recovery begins only when none is under way. Others respect the budget of card `id`. */
  ghost predicate Sequential(w: World, events: seq<Event>, id: string) {
    forall k | 0 <= k < |events| :: Orderly(RunAll(w, events[..k]), events[k], id)
  }

  ghost predicate Orderly(w: World, e: Event, id: string) {
    (e.Begin? ==> w.procs == map[]) && (e.Aside? && AsideOk(w, e.op) ==> Spares(w.db, e.op, id))
  }

  // ---- the budget ----

  /** A recovery that still has its card in hand. */
  predicate InHand(q: Proc, id: string) {
    q.card == id && !q.phase.MustInterrupt?
  }

  /** Counts an open card can have used up without being given up. */
  function Used(attempts: nat): nat {
    if attempts < MAX_ATTEMPTS then attempts else MAX_ATTEMPTS - 1
  }

  function Failures(w: World, id: string): nat {
    Count(w.failures, id)
  }

  function Lost(w: World, id: string): nat {
    Count(w.lost, id)
  }

  /** No recovery has the card in hand. */
  predicate AtRest(w: World, id: string) {
    if id !in w.db.cards then Failures(w, id) <= Lost(w, id)
    else if Cards.Terminal(w.db.cards[id].status) then Failures(w, id) <= MAX_ATTEMPTS + Lost(w, id)
    else Failures(w, id) <= Used(Stored(w.db, id)) + Lost(w, id)
  }

  /** A recovery has the card in hand, or had it until someone else closed the card. */
  predicate UnderWay(w: World, q: Proc, id: string) {
    id in w.db.cards
    && if Cards.Terminal(w.db.cards[id].status) then
         Failures(w, id) + (if q.phase.Answered? then 0 else 1) <= MAX_ATTEMPTS + Lost(w, id)
       else
         w.db.cards[id].status == Cards.Recovering && q.claimed.snapshot.recoveryAttempts <= Stored(w.db, id)
         && Failures(w, id) <= Used(q.claimed.snapshot.recoveryAttempts) + Lost(w, id) + (if Uncounted(q) then 1 else 0)
  }

  ghost predicate Budget(w: World, id: string) {
    (forall p, q | p in w.procs && q in w.procs :: p == q)
    && (forall p | p in w.procs && InHand(w.procs[p], id) :: UnderWay(w, w.procs[p], id))
    && ((forall p | p in w.procs :: !InHand(w.procs[p], id)) ==> AtRest(w, id))
  }

  lemma BudgetBounds(w: World, id: string)
    requires Budget(w, id)
    ensures Failures(w, id) <= MAX_ATTEMPTS + Lost(w, id)
  {
    if exists p :: p in w.procs && InHand(w.procs[p], id) {
      var p :| p in w.procs && InHand(w.procs[p], id);
      assert UnderWay(w, w.procs[p], id);
    }
  }

  // ---- every step keeps it ----

  /** The one card a step of recovery can write. */
  lemma WhichCard(w: World, e: Event)
    requires Applies(w, e) && !e.Aside?
    ensures var op := PlanOf(w, e).op;
            op.Some? && op.value.OnCard? ==>
              (op.value.c.ClaimRecoveryOp? && e.Begin? && op.value.c.id == e.card)
              || (op.value.c.UpdateOp? && (e.Settle? || e.Fence?) && op.value.c.id == w.procs[e.p].card)
  {
  }

  lemma OtherCard(db: Db, op: Op, id: string)
    requires op.OnCard? ==> (op.c.UpdateOp? || op.c.ClaimRecoveryOp?) && op.c.id != id
    ensures var t := Apply(db, op).cards; (id in t <==> id in db.cards) && (id in t ==> t[id] == db.cards[id])
  {
  }

  /** A step of recovery that is neither the claim nor the end of card `id` leaves its row alone. */
  lemma OwnStatement(w: World, e: Event, id: string)
    requires Applies(w, e) && !e.Aside? && !(e.Begin? && e.card == id)
    requires (e.Settle? || e.Fence?) ==> w.procs[e.p].card != id
    ensures id in Step(w, e).db.cards <==> id in w.db.cards
    ensures id in w.db.cards ==> Step(w, e).db.cards[id] == w.db.cards[id]
  {
    WhichCard(w, e);
    if PlanOf(w, e).op.Some? {
      OtherCard(w.db, PlanOf(w, e).op.value, id);
    }
  }

  /** The rows of an outside statement: closed cards stay closed and stored. */
  lemma OutsideStatement(db: Db, op: Op, id: string)
    ensures var t := Apply(db, op).cards;
            (id in db.cards && Cards.Terminal(db.cards[id].status) ==> id in t && Cards.Terminal(t[id].status))
            && (id in db.cards && db.cards[id].status == Cards.Recovering ==> id in t)
            && (id !in db.cards && id in t ==> t[id].snapshot.recoveryAttempts == 0 && !Cards.Terminal(t[id].status))
  {
  }

  lemma AsideKeeps(w: World, op: Op, id: string)
    requires Budget(w, id) && AsideOk(w, op) && Spares(w.db, op, id)
    ensures Budget(Step(w, Aside(op)), id)
  {
    OutsideStatement(w.db, op, id);
  }

  lemma BeginKeeps(w: World, e: Event, id: string)
    requires Budget(w, id) && e.Begin? && w.procs == map[]
    ensures Budget(Step(w, e), id)
  {
    if e.card != id {
      OwnStatement(w, e, id);
    }
  }

  /** A recovery moved on and still has its card in hand, or none of it is left. */
  lemma MovedKeeps(w: World, v: World, p: nat, id: string)
    requires Budget(w, id) && p in w.procs
    requires (id in v.db.cards <==> id in w.db.cards) && (id in w.db.cards ==> v.db.cards[id] == w.db.cards[id])
    requires v.procs.Keys <= {p}
    requires p in v.procs ==> v.procs[p].card == w.procs[p].card && v.procs[p].phase.MustInterrupt? == w.procs[p].phase.MustInterrupt?
    requires InHand(w.procs[p], id) && p in v.procs && UnderWay(w, w.procs[p], id) ==> UnderWay(v, v.procs[p], id)
    requires InHand(w.procs[p], id) && p !in v.procs && UnderWay(w, w.procs[p], id) ==> AtRest(v, id)
    requires !InHand(w.procs[p], id) ==> Failures(v, id) == Failures(w, id) && Lost(v, id) == Lost(w, id)
    ensures Budget(v, id)
  {
    assert forall q | q in w.procs :: q == p;
    assert InHand(w.procs[p], id) ==> UnderWay(w, w.procs[p], id);
  }

  lemma DecideKeeps(w: World, p: nat, persisted: bool, now: int, id: string)
    requires Budget(w, id) && Applies(w, Decide(p, persisted, now))
    ensures Budget(Step(w, Decide(p, persisted, now)), id)
  {
    OwnStatement(w, Decide(p, persisted, now), id);
    MovedKeeps(w, Step(w, Decide(p, persisted, now)), p, id);
  }

  lemma AnswerKeeps(w: World, p: nat, reply: Reply, id: string)
    requires Budget(w, id) && Applies(w, Answer(p, reply))
    ensures Budget(Step(w, Answer(p, reply)), id)
  {
    MovedKeeps(w, Step(w, Answer(p, reply)), p, id);
  }

  lemma InterruptKeeps(w: World, p: nat, now: int, id: string)
    requires Budget(w, id) && Applies(w, Interrupt(p, now))
    ensures Budget(Step(w, Interrupt(p, now)), id)
  {
    OwnStatement(w, Interrupt(p, now), id);
    MovedKeeps(w, Step(w, Interrupt(p, now)), p, id);
  }

  lemma CrashKeeps(w: World, p: nat, id: string)
    requires Budget(w, id) && Applies(w, Crash(p))
    ensures Budget(Step(w, Crash(p)), id)
  {
    MovedKeeps(w, Step(w, Crash(p)), p, id);
  }

  /** A write of recovery itself: it lands on the row it names. */
  lemma WriteStores(db: Db, id: string, revision: nat, p: Cards.Patch, now: int)
    requires p.snapshot.Some? && p.status.Some?
    ensures var t := DbAfter(db, CardWrite(id, revision, p, now)).cards;
            if Lands(db, id, revision) then id in t && t[id].snapshot == p.snapshot.value && t[id].status == p.status.value
            else t == db.cards
  {
  }

  /** A failed attempt stores the count it answers for, gives the card up, or finds it closed. */
  lemma FailedKeeps(w: World, p: nat, reached: bool, unavailable: bool, now: int, u: World)
    requires p in w.procs && InHand(w.procs[p], w.procs[p].card) && UnderWay(w, w.procs[p], w.procs[p].card)
    requires w.procs[p].phase.Answered? && (Uncounted(w.procs[p]) ==> reached)
    requires u.db == DbAfter(w.db, FailedPlan(w, p, reached, unavailable, now).op) && u.failures == w.failures && u.lost == w.lost
    ensures AtRest(u, w.procs[p].card)
  {
    var q := w.procs[p];
    if w.db.cards[q.card].status == Cards.Recovering {
      var attempts := Attempts(q, reached);
      var revision := w.db.cards[q.card].revision;
      WriteStores(w.db, q.card, revision, Final(Cards.Failed, None, Some(attempts), q.claimed.snapshot, Some(GAVE_UP)), now);
      WriteStores(w.db, q.card, revision, Final(Cards.Streaming, None, Some(attempts), q.claimed.snapshot, Some("Deferred recovery")), now);
    }
  }

  lemma SettleRests(w: World, p: nat, now: int)
    requires Applies(w, Settle(p, now)) && Budget(w, w.procs[p].card)
    ensures AtRest(Step(w, Settle(p, now)), w.procs[p].card)
  {
    var q, u := w.procs[p], Step(w, Settle(p, now));
    assert UnderWay(w, q, q.card);
    match q.phase.reply
    case Refused(reached, unavailable) =>
      FailedKeeps(w, p, reached, unavailable, now, u);
    case Rewritten(version) =>
      if !Lands(w.db, q.card, q.claimed.revision) {
        FailedKeeps(w, p, false, false, now, u);
      } else {
        WriteStores(w.db, q.card, q.claimed.revision, Final(Cards.Completed, Some(version), None, q.claimed.snapshot, None), now);
        WriteStores(w.db, q.card, q.claimed.revision, Final(Cards.Aborted, Some(version), None, q.claimed.snapshot, Some(INTERRUPTED)), now);
      }
  }

  lemma FenceRests(w: World, p: nat, now: int)
    requires Applies(w, Fence(p, now)) && Budget(w, w.procs[p].card)
    ensures AtRest(Step(w, Fence(p, now)), w.procs[p].card)
  {
    var q := w.procs[p];
    assert UnderWay(w, q, q.card);
    WriteStores(w.db, q.card, q.claimed.revision, Final(Cards.Failed, None, None, q.claimed.snapshot, Some(MISSING_IDENTITY)), now);
  }

  /** After settling or fencing nothing is in hand any more. */
  lemma SettledHands(w: World, e: Event)
    requires Applies(w, e) && (e.Settle? || e.Fence?)
    ensures forall q | q in Step(w, e).procs && q == e.p :: Step(w, e).procs[q].phase.MustInterrupt?
    ensures forall q | q in Step(w, e).procs && q != e.p :: q in w.procs && Step(w, e).procs[q] == w.procs[q]
  {
  }

  lemma ClosingKeeps(w: World, e: Event, id: string)
    requires Budget(w, id) && Applies(w, e) && (e.Settle? || e.Fence?)
    ensures Budget(Step(w, e), id)
  {
    SettledHands(w, e);
    if w.procs[e.p].card != id {
      OwnStatement(w, e, id);
    } else if e.Settle? {
      SettleRests(w, e.p, e.now);
    } else {
      FenceRests(w, e.p, e.now);
    }
  }

  lemma StepKeepsBudget(w: World, e: Event, id: string)
    requires Budget(w, id) && Orderly(w, e, id)
    ensures Budget(Step(w, e), id)
  {
    if !Applies(w, e) {
    } else if e.Aside? {
      AsideKeeps(w, e.op, id);
    } else if e.Begin? {
      BeginKeeps(w, e, id);
    } else if e.Settle? || e.Fence? {
      ClosingKeeps(w, e, id);
    } else if e.Decide? {
      DecideKeeps(w, e.p, e.persisted, e.now, id);
    } else if e.Answer? {
      AnswerKeeps(w, e.p, e.reply, id);
    } else if e.Interrupt? {
      InterruptKeeps(w, e.p, e.now, id);
    } else {
      CrashKeeps(w, e.p, id);
    }
  }

  lemma SequentialFront(w: World, events: seq<Event>, id: string)
    requires events != [] && Sequential(w, events, id)
    ensures Sequential(w, events[..|events| - 1], id)
    ensures Orderly(RunAll(w, events[..|events| - 1]), events[|events| - 1], id)
  {
    var front := events[..|events| - 1];
    forall k | 0 <= k < |front| ensures Orderly(RunAll(w, front[..k]), front[k], id) {
      assert front[..k] == events[..k];
    }
  }

  lemma {:induction false} RunKeepsBudget(w: World, events: seq<Event>, id: string)
    requires Budget(w, id) && Sequential(w, events, id)
    ensures Budget(RunAll(w, events), id)
    decreases |events|
  {
    if events != [] {
      SequentialFront(w, events, id);
      RunKeepsBudget(w, events[..|events| - 1], id);
      StepKeepsBudget(RunAll(w, events[..|events| - 1]), events[|events| - 1], id);
    }
  }

  /**
   * With passes that do not overlap, and whatever ordinary traffic runs beside
   * them, the provider sees at most five failed attempts on a card, plus one for
   * every attempt whose count a crash swallowed. The card may exist before the
   * run or be created in it.
   */
  lemma AtMostFiveFailures(w: World, events: seq<Event>, id: string)
    requires Initial(w) && Sequential(w, events, id)
    requires id in w.db.cards ==> w.db.cards[id].snapshot.recoveryAttempts == 0
    ensures Failures(RunAll(w, events), id) <= MAX_ATTEMPTS + Lost(RunAll(w, events), id)
  {
    RunKeepsBudget(w, events, id);
    BudgetBounds(RunAll(w, events), id);
  }
}
