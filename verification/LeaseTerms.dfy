/**
 * Leases in time: a claim lasts exactly as long as it says, a heartbeat or a
 * renewal in time carries it on, and while it lasts neither reapers nor other
 * claimers touch the row. Every claim handed out is counted.
 */
module LeaseTerms {
  import opened Options
  import opened LeaseFence
  import opened ChannelDb
  import Inbox = InboxTable
  import Turns = TurnTable
  import Outbox = OutboxTable

  // ---- one statement ----

  /** A claim of a turn holds it at exactly the clock values before its term is over. */
  lemma TurnClaimTerm(r: Turns.Row, owner: string, leaseMs: int, now: int, at: int)
    requires Turns.ClaimRow(r, owner, leaseMs, now).Some?
    ensures var s := Turns.ClaimRow(r, owner, leaseMs, now).value;
            (Turns.Held(s, Claim(owner, s.token), at) <==> at < now + leaseMs) && Turns.LeaseLive(s, at) == (at < now + leaseMs)
            && s.attempt == r.attempt + 1 && (r.startedAt.Some? ==> s.startedAt == r.startedAt) && (r.startedAt == None ==> s.startedAt == Some(now))
  {
  }

  /** A heartbeat that lands gives the same claim a new term from its own clock, and nothing else. */
  lemma HeartbeatTerm(r: Turns.Row, c: Claim, leaseMs: int, now: int, at: int)
    requires Turns.HeartbeatRow(r, c, leaseMs, now).Some?
    ensures var s := Turns.HeartbeatRow(r, c, leaseMs, now).value;
            (Turns.Held(s, c, at) <==> at < now + leaseMs) && s.heartbeatAt == Some(now)
            && s == r.(heartbeatAt := s.heartbeatAt, expires := s.expires, updatedAt := s.updatedAt)
  {
  }

  lemma OutboxClaimTerm(r: Outbox.Row, owner: string, leaseMs: int, now: int, at: int)
    requires Outbox.ClaimRow(r, owner, leaseMs, now).Some?
    ensures var s := Outbox.ClaimRow(r, owner, leaseMs, now).value;
            (Outbox.Held(s, Claim(owner, s.token), at) <==> at < now + leaseMs) && (Outbox.Expired(s, at) <==> at >= now + leaseMs)
            && s.attempt == r.attempt + 1
  {
  }

  lemma InboxClaimTerm(r: Inbox.Row, byId: bool, owner: string, leaseMs: int, now: int, at: int)
    requires Inbox.ClaimRow(r, byId, owner, leaseMs, now).Some?
    ensures var s := Inbox.ClaimRow(r, byId, owner, leaseMs, now).value;
            (Inbox.Held(s, Claim(owner, s.token), at) <==> at < now + leaseMs) && s.attempt == r.attempt + 1
  {
  }

  lemma RenewalTerm(r: Inbox.Row, c: Claim, leaseMs: int, now: int, at: int)
    requires Inbox.RenewRow(r, c, leaseMs, now).Some?
    ensures var s := Inbox.RenewRow(r, c, leaseMs, now).value;
            (Inbox.Held(s, c, at) <==> at < now + leaseMs) && s == r.(expires := s.expires, updatedAt := s.updatedAt)
  {
  }

  // ---- turns over a run ----

  /** The claim holds the turn until `term`. */
  predicate TurnHeld(db: Db, id: string, c: Claim, term: int) {
    id in db.turns && Turns.Leased(db.turns[id].status) && db.turns[id].owner == Some(c.owner) && db.turns[id].token == c.token
    && db.turns[id].expires == Some(term)
  }

  /** The term after a statement: a heartbeat of the claim sets a new one. */
  function TurnTerm(op: Op, id: string, c: Claim, term: int): int {
    if op.OnTurn? && op.t.HeartbeatOp? && op.t.id == id && op.t.claim == c && op.t.leaseMs > 0 then op.t.now + op.t.leaseMs else term
  }

  /**
   * The statement comes in time for the claim: its own heartbeat and the bulk
   * statements that look at expiry before the term is over, and none that
   * closes, parks or re-queues the turn. Everything else is free, also other
   * workers' attempts on this very turn.
   */
  predicate TurnInTime(op: Op, id: string, c: Claim, term: int) {
    op.OnTurn? ==>
      match op.t
      case HeartbeatOp(i, d, _, now) => i == id && d == c ==> now < term
      case FenceAllOp(now) => now < term
      case InterruptExpiredOp(now) => now < term
      case InterruptOp(i, _, _) => i != id
      case CancelOp(i, _, _) => i != id
      case CompleteRecoveredOp(i, _) => i != id
      case FenceOneOp(i, _) => i != id
      case WaitOp(i, d, _, _) => i != id || d != c
      case RetryOp(i, d, _, _, _) => i != id || d != c
      case CompleteOp(i, d, _, _, _, _) => i != id || d != c
      case _ => true
  }

  function TurnTermAfter(ops: seq<Op>, id: string, c: Claim, term: int): int
    decreases |ops|
  {
    if ops == [] then term else TurnTerm(ops[|ops| - 1], id, c, TurnTermAfter(ops[..|ops| - 1], id, c, term))
  }

  predicate AllTurnInTime(ops: seq<Op>, id: string, c: Claim, term: int)
    decreases |ops|
  {
    ops == []
    || (AllTurnInTime(ops[..|ops| - 1], id, c, term) && TurnInTime(ops[|ops| - 1], id, c, TurnTermAfter(ops[..|ops| - 1], id, c, term)))
  }

  lemma StepTurnHeld(db: Db, op: Op, id: string, c: Claim, term: int)
    requires TurnHeld(db, id, c, term) && TurnInTime(op, id, c, term)
    ensures TurnHeld(Apply(db, op), id, c, TurnTerm(op, id, c, term))
  {
    if op.OnTurn? {
      TurnAfter(db, op.t, id);
    }
  }

  /** A claim hands out a turn for its whole term. */
  lemma ClaimHoldsTurn(db: Db, id: string, owner: string, leaseMs: int, now: int, c: Claim)
    requires Turns.GrantOf(db.turns, Turns.ClaimOp(id, owner, leaseMs, now), id) == Some(c)
    ensures TurnHeld(Apply(db, OnTurn(Turns.ClaimOp(id, owner, leaseMs, now))), id, c, now + leaseMs)
  {
    TurnAfter(db, Turns.ClaimOp(id, owner, leaseMs, now), id);
  }

  /**
   * A worker whose heartbeats come in time keeps its turn: whatever reapers,
   * fences, other workers and other turns do meanwhile, it holds the turn until
   * the term its claim or its last heartbeat set.
   */
  lemma {:induction false} HeartbeatsKeepTheTurn(db: Db, ops: seq<Op>, id: string, c: Claim, term: int)
    requires TurnHeld(db, id, c, term) && AllTurnInTime(ops, id, c, term)
    ensures TurnHeld(Run(db, ops), id, c, TurnTermAfter(ops, id, c, term))
    decreases |ops|
  {
    if ops != [] {
      var front := ops[..|ops| - 1];
      HeartbeatsKeepTheTurn(db, front, id, c, term);
      StepTurnHeld(Run(db, front), ops[|ops| - 1], id, c, TurnTermAfter(front, id, c, term));
    }
  }

  /** And once the term is over the reaper closes it. */
  lemma LateTurnIsReaped(db: Db, id: string, c: Claim, term: int, now: int)
    requires TurnHeld(db, id, c, term)
    ensures var e := Apply(db, OnTurn(Turns.InterruptExpiredOp(now)));
            id in e.turns && (e.turns[id].status == Turns.Interrupted <==> now >= term) && (now < term ==> e.turns[id] == db.turns[id])
  {
    TurnAfter(db, Turns.InterruptExpiredOp(now), id);
  }

  // ---- receipts over a run ----

  predicate ReceiptHeld(db: Db, id: string, c: Claim, term: int) {
    id in db.inbox && db.inbox[id].status == Inbox.Processing && db.inbox[id].owner == Some(c.owner) && db.inbox[id].token == c.token
    && db.inbox[id].expires == Some(term)
  }

  function ReceiptTerm(op: Op, id: string, c: Claim, term: int): int {
    if op.OnInbox? && op.i.RenewOp? && op.i.id == id && op.i.claim == c && op.i.leaseMs > 0 then op.i.now + op.i.leaseMs else term
  }

  /** Renewals, and other workers' claims, before the term is over; the claim itself neither finishes nor returns the receipt. */
  predicate ReceiptInTime(op: Op, id: string, c: Claim, term: int) {
    op.OnInbox? ==>
      match op.i
      case RenewOp(i, d, _, now) => i == id && d == c ==> now < term
      case ClaimOp(i, _, _, _, now) => i == id ==> now < term
      case FinishOp(i, d, _, _, _) => i != id || d != c
      case RequeueOp(i, d, _, _, _) => i != id || d != c
      case _ => true
  }

  function ReceiptTermAfter(ops: seq<Op>, id: string, c: Claim, term: int): int
    decreases |ops|
  {
    if ops == [] then term else ReceiptTerm(ops[|ops| - 1], id, c, ReceiptTermAfter(ops[..|ops| - 1], id, c, term))
  }

  predicate AllReceiptInTime(ops: seq<Op>, id: string, c: Claim, term: int)
    decreases |ops|
  {
    ops == []
    || (AllReceiptInTime(ops[..|ops| - 1], id, c, term)
        && ReceiptInTime(ops[|ops| - 1], id, c, ReceiptTermAfter(ops[..|ops| - 1], id, c, term)))
  }

  lemma StepReceiptHeld(db: Db, op: Op, id: string, c: Claim, term: int)
    requires ReceiptHeld(db, id, c, term) && ReceiptInTime(op, id, c, term)
    ensures ReceiptHeld(Apply(db, op), id, c, ReceiptTerm(op, id, c, term))
  {
  }

  /** A receipt renewed in time is claimed by nobody else. */
  lemma {:induction false} RenewalsKeepTheReceipt(db: Db, ops: seq<Op>, id: string, c: Claim, term: int)
    requires ReceiptHeld(db, id, c, term) && AllReceiptInTime(ops, id, c, term)
    ensures ReceiptHeld(Run(db, ops), id, c, ReceiptTermAfter(ops, id, c, term))
    decreases |ops|
  {
    if ops != [] {
      var front := ops[..|ops| - 1];
      RenewalsKeepTheReceipt(db, front, id, c, term);
      StepReceiptHeld(Run(db, front), ops[|ops| - 1], id, c, ReceiptTermAfter(front, id, c, term));
    }
  }

  // ---- outputs over a run ----

  predicate OutputHeld(db: Db, id: string, c: Claim, term: int) {
    id in db.outbox && Outbox.Leased(db.outbox[id].status) && db.outbox[id].owner == Some(c.owner) && db.outbox[id].token == c.token
    && db.outbox[id].expires == Some(term)
  }

  /** Reconciliation before the term is over; the claim itself neither completes nor fails the output. */
  predicate OutputInTime(op: Op, id: string, c: Claim, term: int) {
    op.OnOutbox? ==>
      match op.o
      case ReconcileOp(now) => now < term
      case CompleteOp(i, d, _, _) => i != id || d != c
      case FailOp(i, d, _, _, _, _) => i != id || d != c
      case _ => true
  }

  lemma StepOutputHeld(db: Db, op: Op, id: string, c: Claim, term: int)
    requires OutputHeld(db, id, c, term) && OutputInTime(op, id, c, term)
    ensures OutputHeld(Apply(db, op), id, c, term)
  {
    if op.OnOutbox? {
      Outbox.ApplyAt(db.outbox, op.o, id);
    }
  }

  /** A delivery holds its output for the whole term of its claim, through all its status moves. */
  lemma {:induction false} ClaimKeepsTheOutput(db: Db, ops: seq<Op>, id: string, c: Claim, term: int)
    requires OutputHeld(db, id, c, term) && forall n | 0 <= n < |ops| :: OutputInTime(ops[n], id, c, term)
    ensures OutputHeld(Run(db, ops), id, c, term)
    decreases |ops|
  {
    if ops != [] {
      ClaimKeepsTheOutput(db, ops[..|ops| - 1], id, c, term);
      StepOutputHeld(Run(db, ops[..|ops| - 1]), ops[|ops| - 1], id, c, term);
    }
  }

  // ---- attempts ----

  function AttemptOf(db: Db, k: Key): nat {
    match k
    case InboxRow(id) => if id in db.inbox then db.inbox[id].attempt else 0
    case TurnRow(id) => if id in db.turns then db.turns[id].attempt else 0
    case OutboxRow(id) => if id in db.outbox then db.outbox[id].attempt else 0
  }

  /** How many claims of a row a run handed out. */
  ghost function Grants(db: Db, ops: seq<Op>, k: Key): nat
    decreases |ops|
  {
    if ops == [] then 0
    else
      var front := ops[..|ops| - 1];
      Grants(db, front, k) + if GrantOf(Run(db, front), ops[|ops| - 1], k).Some? then 1 else 0
  }

  lemma TurnAttempt(db: Db, op: Turns.Op, id: string)
    requires id in db.turns
    ensures ApplyTurns(db, op)[id].attempt == db.turns[id].attempt + if Turns.GrantOf(db.turns, op, id).Some? then 1 else 0
  {
    TurnAfter(db, op, id);
  }

  lemma OutputAttempt(t: Outbox.Table, op: Outbox.Op, id: string)
    requires id in t
    ensures Outbox.Apply(t, op)[id].attempt == t[id].attempt + if Outbox.GrantOf(t, op, id).Some? then 1 else 0
  {
    Outbox.ApplyAt(t, op, id);
  }

  lemma ReceiptAttempt(t: Inbox.Table, op: Inbox.Op, id: string)
    requires id in t
    ensures id in ApplyInbox(t, op) && ApplyInbox(t, op)[id].attempt == t[id].attempt + if Inbox.GrantOf(t, op, id).Some? then 1 else 0
  {
  }

  lemma StepAttempt(db: Db, op: Op, k: Key)
    ensures AttemptOf(Apply(db, op), k) == AttemptOf(db, k) + if GrantOf(db, op, k).Some? then 1 else 0
  {
    match (op, k)
    case (OnInbox(i), InboxRow(id)) => if id in db.inbox { ReceiptAttempt(db.inbox, i, id); }
    case (OnTurn(t), TurnRow(id)) => if id in db.turns { TurnAttempt(db, t, id); }
    case (OnOutbox(o), OutboxRow(id)) => if id in db.outbox { OutputAttempt(db.outbox, o, id); }
    case _ =>
  }

  /** The attempt count of a row is the number of claims handed out for it, no more and no less. */
  lemma {:induction false} AttemptsCountClaims(db: Db, ops: seq<Op>, k: Key)
    ensures AttemptOf(Run(db, ops), k) == AttemptOf(db, k) + Grants(db, ops, k)
    decreases |ops|
  {
    if ops != [] {
      AttemptsCountClaims(db, ops[..|ops| - 1], k);
      StepAttempt(Run(db, ops[..|ops| - 1]), ops[|ops| - 1], k);
    }
  }

  // ---- what waits, waits until its time ----

  /** A turn sent back for a retry, or resumed, can be claimed exactly from the named time on. */
  lemma RetriedTurnWaits(r: Turns.Row, c: Claim, availableAt: int, error: string, now: int, owner: string, leaseMs: int, at: int)
    requires Turns.LeaseShape(r) && leaseMs > 0
    ensures var s := Turns.RetryRow(r, c, availableAt, error, now);
            s.Some? ==> (Turns.ClaimRow(s.value, owner, leaseMs, at).Some? <==> at >= availableAt)
    ensures var s := Turns.ResumeRow(r, r.revision, availableAt, now);
            s.Some? ==> (Turns.ClaimRow(s.value, owner, leaseMs, at).Some? <==> at >= availableAt)
  {
  }

  /** A receipt returned to the queue likewise. */
  lemma RequeuedReceiptWaits(r: Inbox.Row, c: Claim, error: string, retryAt: int, now: int, byId: bool, owner: string, leaseMs: int, at: int)
    requires Inbox.RequeueRow(r, c, error, retryAt, now).Some? && leaseMs > 0
    ensures var s := Inbox.RequeueRow(r, c, error, retryAt, now).value;
            Inbox.ClaimRow(s, byId, owner, leaseMs, at).Some? <==> at >= retryAt
  {
  }

  /** A fresh row of each kind can be claimed exactly from its time on. */
  lemma FreshRowsWait(x: Inbox.Identity, s: Inbox.Status, y: Turns.Identity, inbox: Option<string>, z: Outbox.Identity,
                      availableAt: int, now: int, owner: string, leaseMs: int, at: int)
    requires leaseMs > 0 && s in {Inbox.Received, Inbox.Admitted, Inbox.Queued}
    ensures Inbox.ClaimRow(Inbox.Fresh(x, s, availableAt, now), true, owner, leaseMs, at).Some? <==> at >= availableAt
    ensures Turns.ClaimRow(Turns.Fresh(y, inbox, availableAt, now), owner, leaseMs, at).Some? <==> at >= availableAt
    ensures Outbox.ClaimRow(Outbox.Fresh(z, availableAt, now), owner, leaseMs, at).Some? <==> at >= availableAt
  {
  }
}
