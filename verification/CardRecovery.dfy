/**
 * Crash recovery of streaming cards as a step machine over the database: claim
 * the card, close its turn from the persisted reply, ask the provider to
 * rewrite the card, finalize. Every arrow between two statements is a point at
 * which the process can die, and every other actor may run in between.
 */
module CardRecovery {
  import opened Options
  import opened ChannelDb
  import Turns = TurnTable
  import Cards = CardTable

  const MAX_ATTEMPTS := 5
  const LEASE_MS := 45_000
  const MISSING_IDENTITY := "[manual_reconciliation] Streaming card creation was interrupted before provider identity was persisted; manual reconciliation required"
  const INTERRUPTED := "Process interrupted before the card reached a terminal state"
  const RESTARTED := "Process restarted before the streaming card reached a terminal state"
  const GAVE_UP := "[manual_reconciliation] Streaming card recovery gave up"

  /** The provider's answer. `reached`: the failure carries a provider code or status. */
  datatype Reply = Rewritten(version: nat) | Refused(reached: bool, unavailable: bool)

  /**
   * One recovery under way. `claimed` is the card as the claim returned it;
   * `complete` whether the turn could be completed from a persisted reply.
   */
  datatype Phase = Claimed | Decided | Answered(reply: Reply) | MustInterrupt(reason: string)
  datatype Proc = Proc(card: string, claimed: Cards.Row, phase: Phase, complete: bool)

  /**
   * `turnOf` and `providerOf` fix which turn and provider a card id belongs to. `marked`, `failures` and
   * `lost` are history: cards this recovery marked completed, provider failures
   * per card, and those failures whose count a crash swallowed.
   */
  datatype World = World(
    db: Db, turnOf: string -> string, providerOf: string -> string, procs: map<nat, Proc>,
    marked: set<string>, failures: map<string, nat>, lost: map<string, nat>)

  /** A recovery begins with two readings of the clock: `seen` at the start of the pass, `now` at the claim. */
  datatype Event =
    | Begin(p: nat, card: string, revision: nat, live: bool, createdBefore: Option<int>, seen: int, now: int)
    | Fence(p: nat, now: int)
    | Decide(p: nat, persisted: bool, now: int)
    | Answer(p: nat, reply: Reply)
    | Settle(p: nat, now: int)
    | Interrupt(p: nat, now: int)
    | Crash(p: nat)
    | Aside(op: Op)

  /** The turn is being executed under a lease recovery has to honour. */
  predicate ActiveLease(db: Db, turn: string, now: int) {
    turn in db.turns && Turns.LeaseLive(db.turns[turn], now)
  }

  function Count(m: map<string, nat>, k: string): nat {
    if k in m then m[k] else 0
  }

  predicate HasIdentity(r: Cards.Row) {
    r.messageId.Some? || r.cardId.Some?
  }

  /** Other writers keep card ids, turns and providers together. */
  predicate AsideOk(w: World, op: Op) {
    op.OnCard? && op.c.Insert? ==> op.c.turn == w.turnOf(op.c.id) && op.c.provider == w.providerOf(op.c.id)
  }

  function Final(status: Cards.Status, version: Option<nat>, attempts: Option<nat>, s: Cards.Snapshot, error: Option<string>): Cards.Patch {
    Cards.Patch(Some(status), None, None, version,
                Some(if attempts.Some? then s.(recoveryAttempts := attempts.value) else s), error)
  }

  /** What one step does: at most one statement, then what the process remembers. */
  datatype Plan = Plan(op: Option<Op>, procs: map<nat, Proc>, marked: set<string>)

  predicate Lands(db: Db, id: string, revision: nat) {
    id in db.cards && db.cards[id].revision == revision && !Cards.Terminal(db.cards[id].status)
  }

  function CardWrite(id: string, revision: nat, p: Cards.Patch, now: int): Option<Op> {
    Some(OnCard(Cards.UpdateOp(id, revision, p, now)))
  }

  /** `completeRecovered(turn) || turn.status == completed`. */
  function TurnCompletes(db: Db, turn: string): bool {
    turn in db.turns && (!Turns.Terminal(db.turns[turn].status) || db.turns[turn].status == Turns.Completed)
  }

  function Drop(w: World, p: nat): Plan {
    Plan(None, w.procs - {p}, w.marked)
  }

  function MoveTo(w: World, p: nat, op: Option<Op>, phase: Phase): Plan
    requires p in w.procs
  {
    Plan(op, w.procs[p := w.procs[p].(phase := phase)], w.marked)
  }

  function Attempts(q: Proc, reached: bool): nat {
    q.claimed.snapshot.recoveryAttempts + if reached then 1 else 0
  }

  /** A failed attempt: give up after too many or when the target is gone, else release the card with the new count. */
  function FailedPlan(w: World, p: nat, reached: bool, unavailable: bool, now: int): Plan
    requires p in w.procs
  {
    var q := w.procs[p];
    if q.card !in w.db.cards || w.db.cards[q.card].status != Cards.Recovering then Drop(w, p)
    else
      var current := w.db.cards[q.card];
      var attempts := Attempts(q, reached);
      if unavailable || attempts >= MAX_ATTEMPTS then
        MoveTo(w, p, CardWrite(q.card, current.revision, Final(Cards.Failed, None, Some(attempts), q.claimed.snapshot, Some(GAVE_UP)), now),
               MustInterrupt(GAVE_UP))
      else
        Drop(w, p).(op := CardWrite(q.card, current.revision,
                                    Final(Cards.Streaming, None, Some(attempts), q.claimed.snapshot, Some("Deferred recovery")), now))
  }

  /** The provider rewrote the card: finalize under the claimed revision, or treat a lost fence as a failed attempt. */
  function RewrittenPlan(w: World, p: nat, version: nat, now: int): Plan
    requires p in w.procs
  {
    var q := w.procs[p];
    if !Lands(w.db, q.card, q.claimed.revision) then FailedPlan(w, p, false, false, now)
    else if q.complete then
      Plan(CardWrite(q.card, q.claimed.revision, Final(Cards.Completed, Some(version), None, q.claimed.snapshot, None), now),
           w.procs - {p}, w.marked + {q.card})
    else
      MoveTo(w, p, CardWrite(q.card, q.claimed.revision, Final(Cards.Aborted, Some(version), None, q.claimed.snapshot, Some(INTERRUPTED)), now),
             MustInterrupt(RESTARTED))
  }

  /** Only open cards of the provider are claimed, not under a live execution lease, and by a live pass only those of the boot backlog. */
  predicate Claims(db: Db, card: string, revision: nat, live: bool, before: Option<int>, seen: int, now: int) {
    card in db.cards
    && var r := db.cards[card];
       r.provider == "feishu" && !ActiveLease(db, r.turn, seen) && !(live && before.Some? && r.createdAt > before.value)
       && Cards.ClaimRecoveryRow(r, revision, now, LEASE_MS).Some?
  }

  function BeginPlan(w: World, p: nat, card: string, revision: nat, live: bool, before: Option<int>, seen: int, now: int): Plan {
    if p in w.procs || !Claims(w.db, card, revision, live, before, seen, now) then Plan(None, w.procs, w.marked)
    else
      var got := Cards.ClaimRecoveryRow(w.db.cards[card], revision, now, LEASE_MS).value;
      Plan(Some(OnCard(Cards.ClaimRecoveryOp(card, revision, LEASE_MS, now))), w.procs[p := Proc(card, got, Claimed, false)], w.marked)
  }

  function DecidePlan(w: World, p: nat, persisted: bool, now: int): Plan
    requires p in w.procs
  {
    var q := w.procs[p];
    if !persisted then MoveTo(w, p, None, Decided)
    else Plan(Some(OnTurn(Turns.CompleteRecoveredOp(q.claimed.turn, now))),
              w.procs[p := q.(phase := Decided, complete := TurnCompletes(w.db, q.claimed.turn))], w.marked)
  }

  function FencePlan(w: World, p: nat, now: int): Plan
    requires p in w.procs
  {
    var q := w.procs[p];
    if !Lands(w.db, q.card, q.claimed.revision) then Drop(w, p)
    else MoveTo(w, p, CardWrite(q.card, q.claimed.revision, Final(Cards.Failed, None, None, q.claimed.snapshot, Some(MISSING_IDENTITY)), now),
                MustInterrupt(MISSING_IDENTITY))
  }

  /** An event for a process that is not where the event applies does nothing. */
  predicate Applies(w: World, e: Event) {
    match e
    case Aside(op) => AsideOk(w, op)
    case Begin(_, _, _, _, _, _, _) => true
    case Fence(p, _) => p in w.procs && w.procs[p].phase == Claimed && !HasIdentity(w.procs[p].claimed)
    case Decide(p, _, _) => p in w.procs && w.procs[p].phase == Claimed && HasIdentity(w.procs[p].claimed)
    case Answer(p, _) => p in w.procs && w.procs[p].phase == Decided
    case Settle(p, _) => p in w.procs && w.procs[p].phase.Answered?
    case Interrupt(p, _) => p in w.procs && w.procs[p].phase.MustInterrupt?
    case Crash(p) => p in w.procs
  }

  function PlanOf(w: World, e: Event): Plan
    requires Applies(w, e)
  {
    match e
    case Aside(op) => Plan(Some(op), w.procs, w.marked)
    case Begin(p, card, revision, live, before, seen, now) => BeginPlan(w, p, card, revision, live, before, seen, now)
    case Fence(p, now) => FencePlan(w, p, now)
    case Decide(p, persisted, now) => DecidePlan(w, p, persisted, now)
    case Answer(p, reply) => MoveTo(w, p, None, Answered(reply))
    case Settle(p, now) =>
      (match w.procs[p].phase.reply
       case Refused(reached, unavailable) => FailedPlan(w, p, reached, unavailable, now)
       case Rewritten(version) => RewrittenPlan(w, p, version, now))
    case Interrupt(p, now) =>
      Drop(w, p).(op := Some(OnTurn(Turns.InterruptOp(w.procs[p].claimed.turn, w.procs[p].phase.reason, now))))
    case Crash(p) => Drop(w, p)
  }

  function FailuresAfter(w: World, e: Event): map<string, nat>
    requires Applies(w, e)
  {
    if e.Answer? && e.reply.Refused? && e.reply.reached then
      w.failures[w.procs[e.p].card := Count(w.failures, w.procs[e.p].card) + 1]
    else w.failures
  }

  function LostAfter(w: World, e: Event): map<string, nat>
    requires Applies(w, e)
  {
    if e.Crash? && Uncounted(w.procs[e.p]) then w.lost[w.procs[e.p].card := Count(w.lost, w.procs[e.p].card) + 1]
    else w.lost
  }

  ghost function DbAfter(db: Db, op: Option<Op>): Db {
    match op
    case Some(o) => Apply(db, o)
    case None => db
  }

  ghost function Step(w: World, e: Event): World {
    if !Applies(w, e) then w
    else
      var plan := PlanOf(w, e);
      World(DbAfter(w.db, plan.op), w.turnOf, w.providerOf, plan.procs, plan.marked, FailuresAfter(w, e), LostAfter(w, e))
  }

  /** The provider refused, but the count is not stored yet. */
  predicate Uncounted(q: Proc) {
    q.phase.Answered? && q.phase.reply.Refused? && q.phase.reply.reached
  }

  ghost function RunAll(w: World, events: seq<Event>): World
    decreases |events|
  {
    if events == [] then w else Step(RunAll(w, events[..|events| - 1]), events[|events| - 1])
  }

  lemma {:induction false} RunJoined(w: World, a: seq<Event>, b: seq<Event>)
    ensures RunAll(w, a + b) == RunAll(RunAll(w, a), b)
    decreases |b|
  {
    if b == [] {
      assert a + b == a;
    } else {
      RunJoined(w, a, b[..|b| - 1]);
      assert (a + b)[..|a + b| - 1] == a + b[..|b| - 1];
    }
  }

  lemma JoinedAt(w: World, a: seq<Event>, b: seq<Event>, k: nat)
    requires k < |a + b|
    ensures (a + b)[k] == if k < |a| then a[k] else b[k - |a|]
    ensures RunAll(w, (a + b)[..k]) == if k < |a| then RunAll(w, a[..k]) else RunAll(RunAll(w, a), b[..k - |a|])
  {
    if k < |a| {
      assert (a + b)[..k] == a[..k];
    } else {
      assert (a + b)[..k] == a + b[..k - |a|];
      RunJoined(w, a, b[..k - |a|]);
    }
  }

  lemma {:induction false} RunAppend(w: World, events: seq<Event>, e: Event)
    ensures RunAll(w, events + [e]) == Step(RunAll(w, events), e)
  {
  }

  // ---- a card recovery marked completed has a completed turn ----

  predicate TurnDone(db: Db, turn: string) {
    turn in db.turns && db.turns[turn].status == Turns.Completed
  }

  ghost predicate Agrees(w: World) {
    Consistent(w.db)
    && (forall id | id in w.db.cards :: AtHome(w, w.db.cards[id], id))
    && (forall p | p in w.procs :: ProcOk(w, w.procs[p]))
    && (forall id | id in w.marked :: MarkedOk(w, id))
  }

  predicate AtHome(w: World, r: Cards.Row, id: string) {
    r.turn == w.turnOf(id) && r.provider == w.providerOf(id)
  }

  predicate ProcOk(w: World, q: Proc) {
    AtHome(w, q.claimed, q.card) && q.claimed.provider == "feishu" && (q.complete ==> q.phase != Claimed && TurnDone(w.db, q.claimed.turn))
  }

  predicate MarkedOk(w: World, id: string) {
    id in w.db.cards && w.db.cards[id].status == Cards.Completed && TurnDone(w.db, w.turnOf(id))
  }

  lemma TurnDoneKept(db: Db, op: Op, turn: string)
    requires Consistent(db) && TurnDone(db, turn)
    ensures TurnDone(Apply(db, op), turn)
  {
    if op.OnTurn? {
      TurnAfter(db, op.t, turn);
      Turns.TerminalKept(db.turns[turn], op.t, turn, EffectsOf(db, turn));
    }
  }

  lemma ApplyConsistent(db: Db, op: Op)
    requires Consistent(db)
    ensures Consistent(Apply(db, op))
  {
    match op
    case OnInbox(i) => ConsistentInbox(db, i);
    case OnTurn(t) => ConsistentTurns(db, t);
    case OnOutbox(o) => ConsistentOutbox(db, o);
    case OnCard(c) =>
  }

  lemma CardsAfter(db: Db, op: Op, id: string)
    requires id in Apply(db, op).cards
    ensures id in db.cards ==> Apply(db, op).cards[id].turn == db.cards[id].turn && Apply(db, op).cards[id].provider == db.cards[id].provider
    ensures id !in db.cards ==> op.OnCard? && op.c.Insert? && op.c.id == id && Apply(db, op).cards[id].turn == op.c.turn
                                && Apply(db, op).cards[id].provider == op.c.provider
  {
  }

  lemma CompletedCardKept(db: Db, op: Op, id: string)
    requires id in db.cards && db.cards[id].status == Cards.Completed
    ensures id in Apply(db, op).cards && Apply(db, op).cards[id].status == Cards.Completed
  {
  }

  /** Any statement, whoever issues it, keeps what recovery relies on. */
  lemma StatementAgrees(w: World, op: Op)
    requires Agrees(w) && AsideOk(w, op)
    ensures Agrees(w.(db := Apply(w.db, op)))
  {
    var v := w.(db := Apply(w.db, op));
    ApplyConsistent(w.db, op);
    forall id | id in v.db.cards ensures AtHome(v, v.db.cards[id], id) {
      CardsAfter(w.db, op, id);
    }
    forall p | p in w.procs ensures ProcOk(v, w.procs[p]) {
      assert ProcOk(w, w.procs[p]);
      if w.procs[p].complete {
        TurnDoneKept(w.db, op, w.procs[p].claimed.turn);
      }
    }
    forall id | id in w.marked ensures MarkedOk(v, id) {
      assert MarkedOk(w, id);
      TurnDoneKept(w.db, op, w.turnOf(id));
      CompletedCardKept(w.db, op, id);
    }
  }

  lemma PlanKeepsTurns(w: World, e: Event)
    requires Agrees(w) && Applies(w, e)
    ensures PlanOf(w, e).op.Some? ==> AsideOk(w, PlanOf(w, e).op.value)
  {
  }

  /** What a process remembers after its own step is as good as before. */
  lemma PlannedProcs(w: World, e: Event, p: nat)
    requires Agrees(w) && Applies(w, e) && p in PlanOf(w, e).procs
    ensures var q := PlanOf(w, e).procs[p];
            AtHome(w, q.claimed, q.card) && q.claimed.provider == "feishu"
            && (q.complete ==> q.phase != Claimed)
            && (q.complete ==> (p in w.procs && w.procs[p].complete && w.procs[p].claimed.turn == q.claimed.turn)
                               || (e.Decide? && PlanOf(w, e).op == Some(OnTurn(Turns.CompleteRecoveredOp(q.claimed.turn, e.now)))
                                   && TurnCompletes(w.db, q.claimed.turn)))
  {
    if p in w.procs {
      assert ProcOk(w, w.procs[p]);
    }
  }

  lemma CompletesTurn(db: Db, turn: string, now: int)
    requires TurnCompletes(db, turn)
    ensures TurnDone(Apply(db, OnTurn(Turns.CompleteRecoveredOp(turn, now))), turn)
  {
  }

  /** The one step that marks a card writes `completed` on it while its turn is done. */
  lemma NewMark(w: World, p: nat, version: nat, now: int)
    requires Agrees(w) && p in w.procs && RewrittenPlan(w, p, version, now).marked != w.marked
    ensures var q, plan := w.procs[p], RewrittenPlan(w, p, version, now);
            plan.marked == w.marked + {q.card} && plan.op.Some? && TurnDone(w.db, w.turnOf(q.card))
            && var t := DbAfter(w.db, plan.op).cards; q.card in t && t[q.card].status == Cards.Completed
  {
    assert ProcOk(w, w.procs[p]);
  }

  lemma WhoMarks(w: World, e: Event)
    requires Applies(w, e) && PlanOf(w, e).marked != w.marked
    ensures e.Settle? && w.procs[e.p].phase.reply.Rewritten?
  {
  }

  lemma PlannedMarks(w: World, e: Event, id: string)
    requires Agrees(w) && Applies(w, e) && id in PlanOf(w, e).marked && id !in w.marked
    ensures MarkedOk(w.(db := DbAfter(w.db, PlanOf(w, e).op)), id)
  {
    WhoMarks(w, e);
    NewMark(w, e.p, w.procs[e.p].phase.reply.version, e.now);
    TurnDoneKept(w.db, PlanOf(w, e).op.value, w.turnOf(id));
  }

  lemma StepAgrees(w: World, e: Event)
    requires Agrees(w)
    ensures Agrees(Step(w, e))
  {
    if Applies(w, e) {
      var plan, v := PlanOf(w, e), Step(w, e);
      PlanKeepsTurns(w, e);
      if plan.op.Some? {
        StatementAgrees(w, plan.op.value);
      }
      forall p | p in v.procs ensures ProcOk(v, v.procs[p]) {
        PlannedProcs(w, e, p);
        if p in w.procs {
          assert ProcOk(w.(db := v.db), w.procs[p]);
        }
        if e.Decide? && TurnCompletes(w.db, v.procs[p].claimed.turn) {
          CompletesTurn(w.db, v.procs[p].claimed.turn, e.now);
        }
      }
      forall id | id in v.marked ensures MarkedOk(v, id) {
        if id !in w.marked {
          PlannedMarks(w, e, id);
        } else {
          assert MarkedOk(w.(db := v.db), id);
        }
      }
    }
  }

  lemma {:induction false} AlwaysAgrees(w: World, events: seq<Event>)
    requires Agrees(w)
    ensures Agrees(RunAll(w, events))
    ensures RunAll(w, events).turnOf == w.turnOf && RunAll(w, events).providerOf == w.providerOf
    decreases |events|
  {
    if events != [] {
      AlwaysAgrees(w, events[..|events| - 1]);
      StepAgrees(RunAll(w, events[..|events| - 1]), events[|events| - 1]);
    }
  }

  /** Before the first recovery: every card belongs to its turn and provider. */
  ghost predicate Initial(w: World) {
    Consistent(w.db) && w.procs == map[] && w.marked == {} && w.failures == map[] && w.lost == map[]
    && forall id | id in w.db.cards :: AtHome(w, w.db.cards[id], id)
  }

  /** At every crash point and under any interference, a card recovery marked completed is completed and so is its turn. */
  lemma MarkedCardsHaveCompletedTurns(w: World, events: seq<Event>, id: string)
    requires Initial(w)
    ensures var v := RunAll(w, events);
            id in v.marked ==> id in v.db.cards && v.db.cards[id].status == Cards.Completed
                               && TurnDone(v.db, v.db.cards[id].turn)
  {
    AlwaysAgrees(w, events);
    var v := RunAll(w, events);
    if id in v.marked {
      assert MarkedOk(v, id);
    }
  }

}
