/**
 * The four tables together and the guarantees that hold over every run of
 * statements, in any order, issued by any number of workers with any clocks.
 * Retention deletes rows and is treated separately.
 */
module ChannelDb {
  import opened Options
  import opened LeaseFence
  import Inbox = InboxTable
  import Turns = TurnTable
  import Outbox = OutboxTable
  import Cards = CardTable

  datatype Db = Db(inbox: Inbox.Table, turns: Turns.Table, outbox: Outbox.Table, cards: Cards.Table)

  datatype Op =
    | OnInbox(i: Inbox.Op)
    | OnTurn(t: Turns.Op)
    | OnOutbox(o: Outbox.Op)
    | OnCard(c: Cards.Op)

  /** Some output of the turn is not settled yet. */
  predicate Unsettled(db: Db, turn: string) {
    exists o :: o in db.outbox && db.outbox[o].identity.turn == turn && Outbox.Unsettled(db.outbox[o].status)
  }

  /** Something of the turn is already visible to the user. */
  predicate DeliveredEffect(db: Db, turn: string) {
    (exists o :: o in db.outbox && db.outbox[o].identity.turn == turn && db.outbox[o].status == Outbox.Delivered)
    || (exists c :: c in db.cards && db.cards[c].turn == turn && db.cards[c].status == Cards.Completed)
  }

  ghost function EffectsOf(db: Db, turn: string): Turns.Effects {
    Turns.Effects(Unsettled(db, turn), DeliveredEffect(db, turn))
  }

  ghost function ApplyInbox(t: Inbox.Table, op: Inbox.Op): Inbox.Table {
    match op
    case Insert(id, x, s, at, now) => if Inbox.Insertable(t, id, x, s) then t[id := Inbox.Fresh(x, s, at, now)] else t
    case _ => map id | id in t :: Inbox.RowAfter(t[id], op, id)
  }

  /** Linking needs the receipt and that no turn is linked to it yet. */
  ghost predicate Linkable(db: Db, inboxRow: string) {
    inboxRow in db.inbox && forall u | u in db.turns :: db.turns[u].inbox != Some(inboxRow)
  }

  ghost function ApplyTurns(db: Db, op: Turns.Op): Turns.Table {
    match op
    case Insert(id, x, inbox, at, now) =>
      if Turns.Insertable(db.turns, id, x, inbox) then db.turns[id := Turns.Fresh(x, inbox, at, now)] else db.turns
    case _ =>
      if op.LinkOp? && !Linkable(db, op.inboxRow) then db.turns
      else map id | id in db.turns :: Turns.RowAfter(db.turns[id], op, id, EffectsOf(db, id))
  }

  /** A reservation is removed only under the turn's execution lease; the strict form also wants no possibly visible output. */
  predicate MayRemove(db: Db, turn: string, c: Claim, strict: bool, now: int) {
    turn in db.turns && Turns.Leased(db.turns[turn].status) && Turns.Held(db.turns[turn], c, now)
    && (strict ==> !exists o :: o in db.outbox && db.outbox[o].identity.turn == turn
                                && db.outbox[o].status in {Outbox.Claimed, Outbox.Sending, Outbox.Uncertain, Outbox.Delivered})
  }

  ghost function Apply(db: Db, op: Op): Db {
    match op
    case OnInbox(i) => db.(inbox := ApplyInbox(db.inbox, i))
    case OnTurn(t) => db.(turns := ApplyTurns(db, t))
    case OnOutbox(o) => db.(outbox := Outbox.Apply(db.outbox, o))
    case OnCard(c) => db.(cards := Cards.Apply(db.cards, c, c.RemoveOp? && MayRemove(db, c.turn, c.claim, c.strict, c.now)))
  }

  ghost function Run(db: Db, ops: seq<Op>): Db
    decreases |ops|
  {
    if ops == [] then db else Apply(Run(db, ops[..|ops| - 1]), ops[|ops| - 1])
  }

  /** What the schema and the statements keep true of every row. */
  ghost predicate Consistent(db: Db) {
    (forall id | id in db.inbox :: Inbox.LeaseShape(db.inbox[id]))
    && (forall id | id in db.turns :: Turns.LeaseShape(db.turns[id]))
    && (forall id | id in db.outbox :: Outbox.LeaseShape(db.outbox[id]))
  }

  // ---- one statement ----

  lemma TurnAfter(db: Db, op: Turns.Op, id: string)
    requires id in db.turns
    ensures id in ApplyTurns(db, op)
    ensures ApplyTurns(db, op)[id] == db.turns[id]
            || ApplyTurns(db, op)[id] == Turns.RowAfter(db.turns[id], op, id, EffectsOf(db, id))
    ensures !op.LinkOp? ==> ApplyTurns(db, op)[id] == Turns.RowAfter(db.turns[id], op, id, EffectsOf(db, id))
  {
  }

  /** A turn statement that names one row is a compare-and-set on that row. */
  lemma OneTurn(db: Db, op: Turns.Op, id: string)
    requires !op.Insert? && !op.LinkOp? && !op.FenceAllOp? && !op.InterruptExpiredOp? && !op.CancelStaleOp? && !op.CancelWithdrawnOp?
    requires op.id == id
    ensures ApplyTurns(db, op) ==
            if id in db.turns && Turns.RowWrite(db.turns[id], op, id, EffectsOf(db, id)).Some? then
              db.turns[id := Turns.RowWrite(db.turns[id], op, id, EffectsOf(db, id)).value]
            else db.turns
  {
  }

  /** The turns the startup fence interrupts, and the table with those in `done` interrupted. */
  function ToFence(db: Db, now: int): set<string> {
    set id | id in db.turns && !Turns.Terminal(db.turns[id].status) && !Turns.LeaseLive(db.turns[id], now) && DeliveredEffect(db, id)
  }

  function FencedTurns(t: Turns.Table, done: set<string>, now: int): Turns.Table {
    map id | id in t :: if id in done then Turns.CloseRow(t[id], Turns.Interrupted, Some(Turns.DELIVERED_EFFECT), now, now) else t[id]
  }

  lemma FencedIsApply(db: Db, now: int)
    ensures FencedTurns(db.turns, ToFence(db, now), now) == ApplyTurns(db, Turns.FenceAllOp(now))
  {
  }

  lemma FenceNext(t: Turns.Table, done: set<string>, id: string, now: int)
    requires id in t && id !in done
    ensures FencedTurns(t, done, now)[id] == t[id]
    ensures FencedTurns(t, done, now)[id := Turns.CloseRow(t[id], Turns.Interrupted, Some(Turns.DELIVERED_EFFECT), now, now)]
            == FencedTurns(t, done + {id}, now)
  {
  }

  /** The turns whose execution lease has run out. */
  function ToExpire(t: Turns.Table, now: int): set<string> {
    set id | id in t && Turns.Leased(t[id].status) && t[id].expires.Some? && t[id].expires.value <= now
  }

  lemma ExpiredIsApply(db: Db, now: int)
    ensures ApplyTurns(db, Turns.InterruptExpiredOp(now)) ==
            map id | id in db.turns :: if id in ToExpire(db.turns, now) then Turns.InterruptExpiredRow(db.turns[id], now) else db.turns[id]
  {
  }

  lemma OneReceipt(t: Inbox.Table, op: Inbox.Op, id: string)
    requires !op.Insert? && op.id == id
    ensures ApplyInbox(t, op) == if id in t && Inbox.RowWrite(t[id], op, id).Some? then t[id := Inbox.RowWrite(t[id], op, id).value] else t
  {
  }

  lemma ConsistentInbox(db: Db, op: Inbox.Op)
    requires Consistent(db)
    ensures Consistent(Apply(db, OnInbox(op)))
  {
    var t := ApplyInbox(db.inbox, op);
    forall id | id in t ensures Inbox.LeaseShape(t[id]) {
      if id in db.inbox {
        Inbox.LeaseShapeKept(db.inbox[id], op, id);
      }
    }
  }

  lemma ConsistentTurns(db: Db, op: Turns.Op)
    requires Consistent(db)
    ensures Consistent(Apply(db, OnTurn(op)))
  {
    var t := ApplyTurns(db, op);
    forall id | id in t ensures Turns.LeaseShape(t[id]) {
      if id in db.turns {
        TurnAfter(db, op, id);
        Turns.LeaseShapeKept(db.turns[id], op, id, EffectsOf(db, id));
      }
    }
  }

  lemma ConsistentOutbox(db: Db, op: Outbox.Op)
    requires Consistent(db)
    ensures Consistent(Apply(db, OnOutbox(op)))
  {
    var t := Outbox.Apply(db.outbox, op);
    forall id | id in t ensures Outbox.LeaseShape(t[id]) {
      if id in db.outbox {
        Outbox.ApplyAt(db.outbox, op, id);
        Outbox.LeaseShapeKept(db.outbox, op, id);
      }
    }
  }

  lemma {:induction false} RunConsistent(db: Db, ops: seq<Op>)
    requires Consistent(db)
    ensures Consistent(Run(db, ops))
    decreases |ops|
  {
    if ops != [] {
      var before := Run(db, ops[..|ops| - 1]);
      RunConsistent(db, ops[..|ops| - 1]);
      match ops[|ops| - 1]
      case OnInbox(i) => ConsistentInbox(before, i);
      case OnTurn(t) => ConsistentTurns(before, t);
      case OnOutbox(o) => ConsistentOutbox(before, o);
      case OnCard(c) =>
    }
  }

  // ---- lease fencing ----

  datatype Key = InboxRow(id: string) | TurnRow(id: string) | OutboxRow(id: string)

  function ViewOf(db: Db, k: Key): View {
    match k
    case InboxRow(id) => Inbox.ViewIn(db.inbox, id)
    case TurnRow(id) => Turns.ViewIn(db.turns, id)
    case OutboxRow(id) => Outbox.ViewIn(db.outbox, id)
  }

  /** The claim a statement hands out for a row. */
  function GrantOf(db: Db, op: Op, k: Key): Option<Claim> {
    match (op, k)
    case (OnInbox(i), InboxRow(id)) => Inbox.GrantOf(db.inbox, i, id)
    case (OnTurn(t), TurnRow(id)) => Turns.GrantOf(db.turns, t, id)
    case (OnOutbox(o), OutboxRow(id)) => Outbox.GrantOf(db.outbox, o, id)
    case _ => None
  }

  lemma StepFenced(db: Db, op: Op, k: Key)
    requires Consistent(db)
    ensures Fenced(ViewOf(db, k), Moment(GrantOf(db, op, k), ViewOf(Apply(db, op), k)))
  {
    match (op, k)
    case (OnInbox(i), InboxRow(id)) =>
      if id in db.inbox {
        Inbox.RowFenced(db.inbox, i, id);
      }
    case (OnTurn(t), TurnRow(id)) =>
      if id in db.turns {
        Turns.RowFenced(db.turns, t, id, EffectsOf(db, id));
        TurnAfter(db, t, id);
      }
    case (OnOutbox(o), OutboxRow(id)) => Outbox.RowFenced(db.outbox, o, id);
    case _ =>
  }

  /** The lease history of one row along a run. */
  ghost function Trace(db: Db, ops: seq<Op>, k: Key): (h: seq<Moment>)
    ensures |h| == |ops|
    decreases |ops|
  {
    if ops == [] then []
    else
      var front := ops[..|ops| - 1];
      Trace(db, front, k) + [Moment(GrantOf(Run(db, front), ops[|ops| - 1], k), ViewOf(Run(db, ops), k))]
  }

  lemma {:induction false} TraceAt(db: Db, ops: seq<Op>, k: Key, n: nat)
    requires Consistent(db) && n <= |ops|
    ensures ViewAt(ViewOf(db, k), Trace(db, ops, k), n) == ViewOf(Run(db, ops[..n]), k)
    ensures n < |ops| ==> Trace(db, ops, k)[n].grant == GrantOf(Run(db, ops[..n]), ops[n], k)
    decreases |ops|
  {
    if ops != [] {
      var front := ops[..|ops| - 1];
      if n < |ops| {
        assert front[..n] == ops[..n];
        TraceAt(db, front, k, n);
      } else {
        assert ops[..n] == ops;
      }
    }
  }

  lemma {:induction false} TraceIsHistory(db: Db, ops: seq<Op>, k: Key)
    requires Consistent(db)
    ensures History(ViewOf(db, k), Trace(db, ops, k))
    decreases |ops|
  {
    if ops != [] {
      var front := ops[..|ops| - 1];
      var h, g := Trace(db, ops, k), Trace(db, front, k);
      TraceIsHistory(db, front, k);
      forall i: nat | i < |h| ensures FencedAt(ViewOf(db, k), h, i) {
        if i < |g| {
          assert FencedAt(ViewOf(db, k), g, i);
          assert ViewAt(ViewOf(db, k), g, i) == ViewAt(ViewOf(db, k), h, i);
        } else {
          RunConsistent(db, front);
          StepFenced(Run(db, front), ops[|ops| - 1], k);
          TraceAt(db, front, k, |front|);
          assert front[..|front|] == front;
        }
      }
    }
  }

  /** The `n`-th statement of a run handed out claim `c` for row `k`. */
  ghost predicate HandedOut(db: Db, ops: seq<Op>, k: Key, n: nat, c: Claim) {
    n < |ops| && GrantOf(Run(db, ops[..n]), ops[n], k) == Some(c)
  }

  /** Whether a claim can still write after the first `n` statements of a run. */
  ghost predicate CanWriteAfter(db: Db, ops: seq<Op>, k: Key, n: nat, c: Claim) {
    n <= |ops| && CanWrite(ViewOf(Run(db, ops[..n]), k), c)
  }

  /** Among all claims ever handed out for one row at most one can still write. */
  lemma OneWriterPerRow(db: Db, ops: seq<Op>, k: Key, n: nat, i: nat, j: nat, c: Claim, d: Claim)
    requires Consistent(db) && i < n && j < n
    requires HandedOut(db, ops, k, i, c) && CanWriteAfter(db, ops, k, n, c)
    requires HandedOut(db, ops, k, j, d) && CanWriteAfter(db, ops, k, n, d)
    ensures i == j && c == d
  {
    TraceIsHistory(db, ops, k);
    TraceAt(db, ops, k, i);
    TraceAt(db, ops, k, j);
    TraceAt(db, ops, k, n);
    OneWriter(ViewOf(db, k), Trace(db, ops, k), n, i, j);
  }

  /** A claim that lost the row once (superseded, reconciled, interrupted, finished) has lost it for good. */
  lemma LostIsLost(db: Db, ops: seq<Op>, k: Key, i: nat, m: nat, n: nat, c: Claim)
    requires Consistent(db) && i < m <= n <= |ops|
    requires HandedOut(db, ops, k, i, c) && !CanWriteAfter(db, ops, k, m, c)
    ensures !CanWriteAfter(db, ops, k, n, c)
  {
    TraceIsHistory(db, ops, k);
    TraceAt(db, ops, k, i);
    TraceAt(db, ops, k, m);
    TraceAt(db, ops, k, n);
    NeverAgain(ViewOf(db, k), Trace(db, ops, k), i, m, n);
  }

  /** Handing the row to somebody else is one way to lose it. */
  lemma NewClaimSupersedes(db: Db, ops: seq<Op>, k: Key, i: nat, j: nat, n: nat, c: Claim, d: Claim)
    requires Consistent(db) && i < j < n <= |ops|
    requires HandedOut(db, ops, k, i, c) && HandedOut(db, ops, k, j, d)
    ensures !CanWriteAfter(db, ops, k, n, c)
  {
    TraceIsHistory(db, ops, k);
    TraceAt(db, ops, k, i);
    TraceAt(db, ops, k, j);
    TraceAt(db, ops, k, n);
    Superseded(ViewOf(db, k), Trace(db, ops, k), i, j, n);
  }

  /** Whether a fenced statement made with a claim would land on row `k` right now. */
  ghost predicate SomeWriteLands(db: Db, k: Key, c: Claim, now: int) {
    match k
    case InboxRow(id) =>
      id in db.inbox && exists e, x :: Inbox.FinishRow(db.inbox[id], c, e, x, now).Some?
    case TurnRow(id) =>
      id in db.turns && exists e, x, y, u :: Turns.CompleteRow(db.turns[id], c, e, x, y, u, now).Some?
    case OutboxRow(id) =>
      id in db.outbox && exists s, at, u :: Outbox.FailRow(db.outbox[id], c, s, at, u, now).Some?
  }

  /** `CanWrite` is exact: it holds just when some clock value lets a finishing write of the claim land. */
  lemma CanWriteIsExact(db: Db, k: Key, c: Claim)
    requires Consistent(db)
    ensures CanWrite(ViewOf(db, k), c) <==> exists now :: SomeWriteLands(db, k, c, now)
  {
    if CanWrite(ViewOf(db, k), c) {
      match k
      case InboxRow(id) =>
        Inbox.ClaimCanWrite(db.inbox[id], c);
        assert SomeWriteLands(db, k, c, db.inbox[id].expires.value - 1);
      case TurnRow(id) =>
        Turns.ClaimCanWrite(db.turns[id], c);
        assert SomeWriteLands(db, k, c, db.turns[id].expires.value - 1);
      case OutboxRow(id) =>
        Outbox.ClaimCanWrite(db.outbox[id], c);
        assert SomeWriteLands(db, k, c, db.outbox[id].expires.value - 1);
    }
  }

  /** In every reachable database a turn or outbox row has an owner exactly in its leased statuses. */
  lemma OwnerExactlyWhenLeased(db: Db, ops: seq<Op>, id: string)
    requires Consistent(db)
    ensures var e := Run(db, ops);
            (id in e.turns ==> e.turns[id].owner.Some? == Turns.Leased(e.turns[id].status))
            && (id in e.outbox ==> e.outbox[id].owner.Some? == Outbox.Leased(e.outbox[id].status))
  {
    RunConsistent(db, ops);
  }

  // ---- turns ----

  /** How many statements of a run were successful explicit retries or resumes of the turn. */
  ghost function Reruns(db: Db, ops: seq<Op>, id: string): nat
    decreases |ops|
  {
    if ops == [] then 0
    else
      var before := Run(db, ops[..|ops| - 1]);
      var last := ops[|ops| - 1];
      Reruns(db, ops[..|ops| - 1], id)
      + if last.OnTurn? && id in before.turns && Turns.Reruns(before.turns[id], last.t, id, EffectsOf(before, id)) then 1 else 0
  }

  lemma {:induction false} Entitlement(db: Db, ops: seq<Op>, id: string)
    requires Consistent(db) && id !in db.turns
    ensures id in Run(db, ops).turns ==> Turns.Entitled(Run(db, ops).turns[id]) <= 1 + Reruns(db, ops, id)
    decreases |ops|
  {
    if ops != [] {
      var before, last := Run(db, ops[..|ops| - 1]), ops[|ops| - 1];
      Entitlement(db, ops[..|ops| - 1], id);
      RunConsistent(db, ops[..|ops| - 1]);
      if last.OnTurn? && id in before.turns {
        TurnAfter(before, last.t, id);
        Turns.EntitlementGrowsOnlyByRerun(before.turns[id], last.t, id, EffectsOf(before, id));
      }
    }
  }

  /** Crashed Agent work is not re-run: executions number at most one plus the explicit retries and resumes. */
  lemma AttemptsAreExplicit(db: Db, ops: seq<Op>, id: string)
    requires Consistent(db) && id !in db.turns
    ensures id in Run(db, ops).turns ==> Run(db, ops).turns[id].attempt <= 1 + Reruns(db, ops, id)
  {
    Entitlement(db, ops, id);
  }

  /** A closed turn never changes again, apart from the link to its inbox receipt. */
  lemma {:induction false} ClosedTurnIsFinal(db: Db, ops: seq<Op>, id: string)
    requires Consistent(db) && id in db.turns && Turns.Terminal(db.turns[id].status)
    ensures id in Run(db, ops).turns
    ensures Run(db, ops).turns[id] == db.turns[id].(inbox := Run(db, ops).turns[id].inbox)
    decreases |ops|
  {
    if ops != [] {
      var before, last := Run(db, ops[..|ops| - 1]), ops[|ops| - 1];
      ClosedTurnIsFinal(db, ops[..|ops| - 1], id);
      RunConsistent(db, ops[..|ops| - 1]);
      if last.OnTurn? {
        TurnAfter(before, last.t, id);
        Turns.TerminalKept(before.turns[id], last.t, id, EffectsOf(before, id));
      }
    }
  }

  /**
   * The only two ways a turn becomes `completed`: its owner completes it while
   * every output is settled, or recovery closes it from a persisted reply.
   */
  lemma CompletedOnlyWhenSettled(db: Db, op: Op, id: string)
    requires Consistent(db) && id in db.turns && db.turns[id].status != Turns.Completed
    requires id in Apply(db, op).turns && Apply(db, op).turns[id].status == Turns.Completed
    ensures op.OnTurn?
    ensures (op.t.CompleteOp? && op.t.id == id && op.t.ending == Turns.AsCompleted && !Unsettled(db, id)
             && CanWrite(ViewOf(db, TurnRow(id)), op.t.claim))
            || (op.t.CompleteRecoveredOp? && op.t.id == id && !Turns.Terminal(db.turns[id].status))
  {
    if op.OnTurn? {
      TurnAfter(db, op.t, id);
      if Apply(db, op).turns[id] != db.turns[id] {
        Turns.WhoCompletes(db.turns[id], op.t, id, EffectsOf(db, id));
      }
    }
  }

  /**
   * The recovery path does not look at the outbox: of all statements exactly
   * the recovery of an open turn completes a turn that has an unsettled output.
   */
  lemma CompletedUnsettledExactlyByRecovery(db: Db, op: Op, id: string)
    requires Consistent(db) && id in db.turns && db.turns[id].status != Turns.Completed && Unsettled(db, id)
    ensures id in Apply(db, op).turns && Apply(db, op).turns[id].status == Turns.Completed <==>
            op.OnTurn? && op.t.CompleteRecoveredOp? && op.t.id == id && !Turns.Terminal(db.turns[id].status)
  {
    if op.OnTurn? && op.t.CompleteRecoveredOp? && op.t.id == id {
      TurnAfter(db, op.t, id);
    }
    if id in Apply(db, op).turns && Apply(db, op).turns[id].status == Turns.Completed {
      CompletedOnlyWhenSettled(db, op, id);
    }
  }

  /** After the startup fence every open turn with a visible effect holds an execution lease that has not expired. */
  lemma StartupFence(db: Db, now: int, id: string)
    requires Consistent(db)
    ensures var e := Apply(db, OnTurn(Turns.FenceAllOp(now)));
            id in e.turns && !Turns.Terminal(e.turns[id].status) && DeliveredEffect(e, id) ==>
              e.turns[id].owner.Some? && e.turns[id].expires.Some? && e.turns[id].expires.value > now
              && e.turns[id].status in {Turns.Running, Turns.Finalizing} && e.turns[id] == db.turns[id]
  {
    var op := Turns.FenceAllOp(now);
    var e := Apply(db, OnTurn(op));
    if id in e.turns {
      TurnAfter(db, op, id);
      Turns.FenceRowOutcome(db.turns[id], DeliveredEffect(db, id), now);
      assert DeliveredEffect(e, id) == DeliveredEffect(db, id);
    }
  }

  /** After the reaper no execution lease has run out, and what is still open is as before. */
  lemma ExpiryReaps(db: Db, now: int, id: string)
    requires Consistent(db)
    ensures var e := Apply(db, OnTurn(Turns.InterruptExpiredOp(now)));
            DeliveredEffect(e, id) == DeliveredEffect(db, id) && (id in e.turns <==> id in db.turns)
            && (id in e.turns && !Turns.Terminal(e.turns[id].status) ==>
                  e.turns[id] == db.turns[id] && (Turns.Leased(db.turns[id].status) ==> Turns.LeaseLive(db.turns[id], now)))
  {
    if id in db.turns {
      TurnAfter(db, Turns.InterruptExpiredOp(now), id);
      assert Turns.LeaseShape(db.turns[id]);
    }
  }

  /**
   * The end of the startup pass: every open turn with a visible effect holds an
   * execution lease that neither statement found expired.
   */
  lemma StartupPass(db: Db, fenceAt: int, reapAt: int, id: string)
    requires Consistent(db)
    ensures var e := Apply(Apply(db, OnTurn(Turns.FenceAllOp(fenceAt))), OnTurn(Turns.InterruptExpiredOp(reapAt)));
            id in e.turns && !Turns.Terminal(e.turns[id].status) && DeliveredEffect(e, id) ==>
              Turns.LeaseLive(e.turns[id], fenceAt) && Turns.LeaseLive(e.turns[id], reapAt)
  {
    ConsistentTurns(db, Turns.FenceAllOp(fenceAt));
    StartupFence(db, fenceAt, id);
    ExpiryReaps(Apply(db, OnTurn(Turns.FenceAllOp(fenceAt))), reapAt, id);
  }

  // ---- receipts ----

  /** A finished inbox receipt changes only through the general transition. */
  lemma {:induction false} FinishedReceiptIsFinal(db: Db, ops: seq<Op>, id: string)
    requires Consistent(db) && id in db.inbox && Inbox.Terminal(db.inbox[id].status)
    requires forall i | 0 <= i < |ops| :: !(ops[i].OnInbox? && ops[i].i.TransitionOp?)
    ensures id in Run(db, ops).inbox && Run(db, ops).inbox[id] == db.inbox[id]
    decreases |ops|
  {
    if ops != [] {
      var last := ops[|ops| - 1];
      FinishedReceiptIsFinal(db, ops[..|ops| - 1], id);
      if last.OnInbox? {
        Inbox.TerminalKept(db.inbox[id], last.i, id);
      }
    }
  }

  // ---- cards ----

  /** The card is stored before and after every statement of the run. */
  ghost predicate CardStays(db: Db, ops: seq<Op>, id: string) {
    forall n | 0 <= n <= |ops| :: id in Run(db, ops[..n]).cards
  }

  lemma RevisionAfter(db: Db, op: Op, id: string)
    requires id in db.cards && id in Apply(db, op).cards
    ensures db.cards[id].revision <= Apply(db, op).cards[id].revision
  {
  }

  lemma {:induction false} RevisionsGrow(db: Db, ops: seq<Op>, id: string)
    requires CardStays(db, ops, id)
    ensures id in db.cards && id in Run(db, ops).cards && db.cards[id].revision <= Run(db, ops).cards[id].revision
    decreases |ops|
  {
    assert ops[..|ops|] == ops;
    assert id in Run(db, ops[..0]).cards;
    assert ops[..0] == [];
    if ops != [] {
      var front := ops[..|ops| - 1];
      forall n | 0 <= n <= |front| ensures id in Run(db, front[..n]).cards {
        assert front[..n] == ops[..n];
      }
      RevisionsGrow(db, front, id);
      RevisionAfter(Run(db, front), ops[|ops| - 1], id);
    }
  }

  /** After a recovery claim no update under an earlier revision lands, over any run in which the card stays. */
  lemma RecoveryFencesForGood(db: Db, id: string, revision: nat, leaseMs: int, now: int, ops: seq<Op>, stale: nat, p: Cards.Patch, later: int)
    requires id in db.cards && Cards.ClaimRecoveryRow(db.cards[id], revision, now, leaseMs).Some? && stale <= db.cards[id].revision
    requires CardStays(Apply(db, OnCard(Cards.ClaimRecoveryOp(id, revision, leaseMs, now))), ops, id)
    ensures var d := Run(Apply(db, OnCard(Cards.ClaimRecoveryOp(id, revision, leaseMs, now))), ops);
            Apply(d, OnCard(Cards.UpdateOp(id, stale, p, later))) == d
  {
    RevisionsGrow(Apply(db, OnCard(Cards.ClaimRecoveryOp(id, revision, leaseMs, now))), ops, id);
  }
}
