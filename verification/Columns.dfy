/**
 * Who writes which column: every change of a row counts a revision and stamps
 * the clock, and each column is written by the statements that are meant to
 * write it, with what they were given.
 */
module Columns {
  import opened Options
  import opened LeaseFence
  import ChannelDb
  import Inbox = InboxTable
  import Turns = TurnTable
  import Outbox = OutboxTable
  import Cards = CardTable

  // ---- outputs ----

  function OutputClock(op: Outbox.Op): int {
    match op
    case Insert(_, _, _, now) => now
    case ClaimOp(_, _, _, now) => now
    case MarkOp(_, _, _, now) => now
    case CompleteOp(_, _, _, now) => now
    case FailOp(_, _, _, _, _, now) => now
    case ReconcileOp(now) => now
    case ResolveOp(_, _, _, now) => now
    case RetireOp(_, _, now) => now
  }

  /** The edges of the delivery of one output, with the statement that takes each. */
  predicate OutputMoves(op: Outbox.Op, a: Outbox.Status, b: Outbox.Status) {
    match op
    case Insert(_, _, _, _) => false
    case ClaimOp(_, _, _, _) => (a == Outbox.Pending || a == Outbox.RetryWait) && b == Outbox.Claimed
    case MarkOp(_, _, MarkUploading, _) => a == Outbox.Claimed && b == Outbox.Uploading
    case MarkOp(_, _, MarkUploaded(_), _) => (a == Outbox.Claimed || a == Outbox.Uploading) && b == Outbox.Uploaded
    case MarkOp(_, _, MarkSending, _) => (a == Outbox.Claimed || a == Outbox.Uploaded) && b == Outbox.Sending
    case CompleteOp(_, _, _, _) => (a == Outbox.Claimed || a == Outbox.Uploaded || a == Outbox.Sending) && b == Outbox.Delivered
    case FailOp(_, _, _, retryAt, uncertain, _) =>
      (a == Outbox.Claimed || a == Outbox.Uploading || a == Outbox.Uploaded || a == Outbox.Sending)
      && b == if uncertain then Outbox.Uncertain else if retryAt.Some? then Outbox.RetryWait else Outbox.Failed
    case ReconcileOp(_) =>
      (a == Outbox.Sending && b == Outbox.Uncertain)
      || ((a == Outbox.Claimed || a == Outbox.Uploading || a == Outbox.Uploaded) && b == Outbox.RetryWait)
    case ResolveOp(_, _, how, _) => a == Outbox.Uncertain && b == if how.AsDelivered? then Outbox.Delivered else Outbox.Failed
    case RetireOp(_, _, _) => a == Outbox.Failed && b == Outbox.Cancelled
  }

  /** Every statement that touches an output moves it along an edge, counts a revision and stamps the clock; nothing rewrites where it belongs. */
  lemma OutputStep(t: Outbox.Table, op: Outbox.Op, id: string)
    requires id in t && Outbox.LeaseShape(t[id])
    ensures var r, s := t[id], Outbox.RowAfter(t, op, id);
            s.identity == r.identity && s.createdAt == r.createdAt
            && (s != r ==> OutputMoves(op, r.status, s.status) && s.revision == r.revision + 1 && s.updatedAt == OutputClock(op))
  {
  }

  /** The claim holds a lease that runs longer than `now`. */
  predicate Holding(owner: Option<string>, token: nat, expires: Option<int>, c: Claim, now: int) {
    owner == Some(c.owner) && token == c.token && expires.Some? && now < expires.value
  }

  /** Whether a statement finds the row as it wants it: its own lease, a due row nobody has, a row in doubt, an expired lease. */
  predicate OutputMeets(r: Outbox.Row, op: Outbox.Op, id: string) {
    match op
    case Insert(_, _, _, _) => false
    case ClaimOp(i, _, ms, now) => i == id && ms > 0 && (r.status == Outbox.Pending || r.status == Outbox.RetryWait) && r.availableAt <= now
    case MarkOp(i, c, m, now) =>
      i == id && Holding(r.owner, r.token, r.expires, c, now)
      && exists b :: OutputMoves(op, r.status, b)
    case CompleteOp(i, c, _, now) => i == id && Holding(r.owner, r.token, r.expires, c, now) && exists b :: OutputMoves(op, r.status, b)
    case FailOp(i, c, _, _, _, now) => i == id && Holding(r.owner, r.token, r.expires, c, now)
    case ReconcileOp(now) => r.expires.Some? && r.expires.value <= now
    case ResolveOp(i, v, _, _) => i == id && r.status == Outbox.Uncertain && r.revision == v
    case RetireOp(i, _, _) => i == id && r.status == Outbox.Failed
  }

  /** A statement takes effect exactly when it finds the row so. */
  lemma OutputTakesEffect(t: Outbox.Table, op: Outbox.Op, id: string)
    requires id in t && Outbox.LeaseShape(t[id])
    ensures Outbox.RowAfter(t, op, id) != t[id] <==> OutputMeets(t[id], op, id)
  {
    var r, s := t[id], Outbox.RowAfter(t, op, id);
    if s != r {
      OutputStep(t, op, id);
      assert OutputMoves(op, r.status, s.status);
    } else {
      assert s.revision == r.revision;
    }
  }

  /** The message id comes from a receipt, the upload key from an upload, the next attempt from a retry time or the reconciler. */
  lemma OutputColumns(t: Outbox.Table, op: Outbox.Op, id: string)
    requires id in t && Outbox.RowAfter(t, op, id) != t[id]
    ensures var r, s := t[id], Outbox.RowAfter(t, op, id);
            s.messageId == (if op.CompleteOp? then Some(op.messageId)
                            else if op.ResolveOp? && op.how.AsDelivered? then Some(op.how.messageId) else r.messageId)
            && s.deliveredAt == (if s.status == Outbox.Delivered then Some(OutputClock(op)) else if op.ResolveOp? then None else r.deliveredAt)
            && s.uploadKey == (if op.MarkOp? && op.mark.MarkUploaded? then Some(op.mark.key) else r.uploadKey)
            && s.availableAt == (if op.FailOp? && op.retryAt.Some? then op.retryAt.value
                                 else if op.ReconcileOp? && s.status == Outbox.RetryWait then op.now else r.availableAt)
            && (s.error == None <==> op.CompleteOp? || op.MarkOp? || (op.ClaimOp? && r.error == None) || (op.ResolveOp? && op.how.AsDelivered?))
            && (op.FailOp? ==> s.error == Some(op.error)) && (op.ReconcileOp? && r.error.Some? ==> s.error == r.error)
  {
  }

  /** What the reconciler counts as sent back are the rows it makes retryable, and what it counts as stuck those it puts in doubt. */
  lemma ReconcilerCountsItsChanges(t: Outbox.Table, now: int, id: string)
    requires id in t
    ensures var r, s := t[id], Outbox.RowAfter(t, Outbox.ReconcileOp(now), id);
            (id in Outbox.Retryable(t, now) <==> s != r && s.status == Outbox.RetryWait)
            && (id in Outbox.Stuck(t, now) <==> s != r && s.status == Outbox.Uncertain)
  {
    var r, s := t[id], Outbox.RowAfter(t, Outbox.ReconcileOp(now), id);
    if s == r {
      assert s.revision == r.revision;
    }
  }

  // ---- turns ----

  function TurnClock(op: Turns.Op): int {
    match op
    case Insert(_, _, _, _, now) => now
    case LinkOp(_, _) => 0
    case ClaimOp(_, _, _, now) => now
    case HeartbeatOp(_, _, _, now) => now
    case FinalizingOp(_, _, now) => now
    case WaitOp(_, _, _, now) => now
    case ResumeOp(_, _, _, now) => now
    case RetryOp(_, _, _, _, now) => now
    case CompleteOp(_, _, _, _, _, now) => now
    case InterruptOp(_, _, now) => now
    case CancelOp(_, _, now) => now
    case CompleteRecoveredOp(_, now) => now
    case FenceOneOp(_, now) => now
    case FenceAllOp(now) => now
    case InterruptExpiredOp(now) => now
    case CancelStaleOp(_, _, _, now) => now
    case CancelWithdrawnOp(_, _, _, _, _, now) => now
  }

  predicate Executing(s: Turns.Status) {
    s == Turns.Running || s == Turns.Finalizing
  }

  predicate OpenTurn(s: Turns.Status) {
    s == Turns.Queued || s == Turns.RetryWait || s == Turns.WaitingUser || Executing(s)
  }

  /** The edges of the life of one turn. */
  predicate TurnMoves(op: Turns.Op, a: Turns.Status, b: Turns.Status) {
    match op
    case Insert(_, _, _, _, _) => false
    case LinkOp(_, _) => a == b
    case ClaimOp(_, _, _, _) => (a == Turns.Queued || a == Turns.RetryWait) && b == Turns.Running
    case HeartbeatOp(_, _, _, _) => Executing(a) && a == b
    case FinalizingOp(_, _, _) => a == Turns.Running && b == Turns.Finalizing
    case WaitOp(_, _, _, _) => Executing(a) && b == Turns.WaitingUser
    case ResumeOp(_, _, _, _) => a == Turns.WaitingUser && b == Turns.Queued
    case RetryOp(_, _, _, _, _) => a == Turns.Running && b == Turns.RetryWait
    case CompleteOp(_, _, e, _, _, _) =>
      Executing(a) && b == if e.AsCompleted? then Turns.Completed else if e.AsFailed? then Turns.Failed else Turns.Cancelled
    case InterruptOp(_, _, _) => OpenTurn(a) && b == Turns.Interrupted
    case CancelOp(_, _, _) => OpenTurn(a) && b == Turns.Cancelled
    case CompleteRecoveredOp(_, _) => OpenTurn(a) && b == Turns.Completed
    case FenceOneOp(_, _) => OpenTurn(a) && b == Turns.Interrupted
    case FenceAllOp(_) => OpenTurn(a) && b == Turns.Interrupted
    case InterruptExpiredOp(_) => Executing(a) && b == Turns.Interrupted
    case CancelStaleOp(_, _, _, _) => a == Turns.RetryWait && b == Turns.Cancelled
    case CancelWithdrawnOp(_, _, _, _, _, _) => a == Turns.RetryWait && b == Turns.Cancelled
  }

  /**
   * Every statement that touches a turn moves it along an edge and stamps the
   * clock, except the link to its receipt; all but links and heartbeats count a
   * revision. Identity and creation never change.
   */
  lemma TurnStep(r: Turns.Row, op: Turns.Op, id: string, fx: Turns.Effects)
    requires Turns.LeaseShape(r)
    ensures var s := Turns.RowAfter(r, op, id, fx);
            s.identity == r.identity && s.createdAt == r.createdAt
            && (s != r ==> TurnMoves(op, r.status, s.status))
            && (s != r ==> s.revision == r.revision + if op.LinkOp? || op.HeartbeatOp? then 0 else 1)
            && (s != r ==> s.updatedAt == if op.LinkOp? then r.updatedAt else TurnClock(op))
            && (s.inbox != r.inbox ==> op.LinkOp? && op.id == id && r.inbox == None && s.inbox == Some(op.inboxRow))
  {
  }

  predicate TurnMeets(r: Turns.Row, op: Turns.Op, id: string, fx: Turns.Effects) {
    match op
    case Insert(_, _, _, _, _) => false
    case LinkOp(i, _) => i == id && r.inbox == None
    case ClaimOp(i, _, ms, now) => i == id && ms > 0 && (r.status == Turns.Queued || r.status == Turns.RetryWait) && r.availableAt <= now
    case HeartbeatOp(i, c, ms, now) => i == id && ms > 0 && Holding(r.owner, r.token, r.expires, c, now)
    case FinalizingOp(i, c, now) => i == id && Holding(r.owner, r.token, r.expires, c, now) && r.status == Turns.Running
    case WaitOp(i, c, _, now) => i == id && Holding(r.owner, r.token, r.expires, c, now)
    case ResumeOp(i, v, _, _) => i == id && r.status == Turns.WaitingUser && r.revision == v
    case RetryOp(i, c, _, _, now) => i == id && Holding(r.owner, r.token, r.expires, c, now) && r.status == Turns.Running
    case CompleteOp(i, c, e, _, _, now) => i == id && Holding(r.owner, r.token, r.expires, c, now) && (e.AsCompleted? ==> !fx.unsettled)
    case InterruptOp(i, _, _) => i == id && OpenTurn(r.status)
    case CancelOp(i, _, _) => i == id && OpenTurn(r.status)
    case CompleteRecoveredOp(i, _) => i == id && OpenTurn(r.status)
    case FenceOneOp(i, _) => i == id && OpenTurn(r.status) && fx.delivered
    case FenceAllOp(now) => OpenTurn(r.status) && fx.delivered && !(r.expires.Some? && now < r.expires.value)
    case InterruptExpiredOp(now) => r.expires.Some? && r.expires.value <= now
    case CancelStaleOp(before, _, keep, _) =>
      r.status == Turns.RetryWait && r.updatedAt < before
      && (keep == {} || (r.identity.correlation.Some? && !(r.identity.correlation.value in keep)))
    case CancelWithdrawnOp(p, a, g, ins, _, _) =>
      r.status == Turns.RetryWait && r.identity.provider == p && r.identity.account == a && r.identity.agent == g
      && exists k :: k in ins && r.identity.correlation == Some(k)
  }

  /**
   * A statement takes effect exactly when it finds the turn as it wants it: the
   * worker its own running lease, recovery an open turn, the fences one with a
   * visible effect that no lease protects, the cancellations a waiting one.
   */
  lemma TurnTakesEffect(r: Turns.Row, op: Turns.Op, id: string, fx: Turns.Effects)
    requires Turns.LeaseShape(r)
    ensures (op.HeartbeatOp? && Turns.RowWrite(r, op, id, fx).Some? <==> op.HeartbeatOp? && TurnMeets(r, op, id, fx))
    ensures !op.HeartbeatOp? ==> (Turns.RowAfter(r, op, id, fx) != r <==> TurnMeets(r, op, id, fx))
  {
    var s := Turns.RowAfter(r, op, id, fx);
    if s == r {
      assert s.revision == r.revision && s.inbox == r.inbox;
    }
  }

  /** When a turn was claimed, what the worker said, and when it ended, is written by the statement that says so. */
  lemma TurnColumns(r: Turns.Row, op: Turns.Op, id: string, fx: Turns.Effects)
    requires Turns.LeaseShape(r) && Turns.RowAfter(r, op, id, fx) != r
    ensures var s := Turns.RowAfter(r, op, id, fx);
            s.startedAt == (if op.ClaimOp? && r.startedAt == None then Some(op.now) else r.startedAt)
            && s.heartbeatAt == (if op.ClaimOp? || op.HeartbeatOp? || op.WaitOp? then Some(TurnClock(op)) else r.heartbeatAt)
            && s.result == (if op.WaitOp? then op.result else if op.CompleteOp? then op.result else if op.ResumeOp? then None else r.result)
            && s.availableAt == (if op.ResumeOp? then op.availableAt else if op.RetryOp? then op.availableAt else r.availableAt)
            && s.completedAt == (if op.CompleteRecoveredOp? && r.completedAt.Some? then r.completedAt
                                 else if OpenTurn(s.status) || op.LinkOp? then r.completedAt else Some(TurnClock(op)))
            && s.error == (match op
                           case ResumeOp(_, _, _, _) => None
                           case RetryOp(_, _, _, e, _) => Some(e)
                           case CompleteOp(_, _, _, _, e, _) => e
                           case InterruptOp(_, e, _) => Some(e)
                           case CancelOp(_, e, _) => Some(e)
                           case CompleteRecoveredOp(_, _) => None
                           case FenceOneOp(_, _) => Some(Turns.DELIVERED_EFFECT)
                           case FenceAllOp(_) => Some(Turns.DELIVERED_EFFECT)
                           case InterruptExpiredOp(_) => if r.error.Some? then r.error else Some(Turns.PROCESS_STOPPED)
                           case CancelStaleOp(_, e, _, _) => Some(e)
                           case CancelWithdrawnOp(_, _, _, _, e, _) => Some(e)
                           case _ => r.error)
  {
  }

  // ---- receipts ----

  function ReceiptClock(op: Inbox.Op): int {
    match op
    case Insert(_, _, _, _, now) => now
    case TransitionOp(_, _, _, _, _, now) => now
    case ClaimOp(_, _, _, _, now) => now
    case UpdateOp(_, _, _, now) => now
    case RenewOp(_, _, _, now) => now
    case FinishOp(_, _, _, _, now) => now
    case RequeueOp(_, _, _, _, now) => now
    case IgnoreDeferredOp(_, _, now) => now
  }

  predicate Over(s: Inbox.Status) {
    s == Inbox.Processed || s == Inbox.Ignored || s == Inbox.Failed
  }

  /** The edges of the life of one receipt; only the general transition may take any. */
  predicate ReceiptMoves(op: Inbox.Op, a: Inbox.Status, b: Inbox.Status) {
    match op
    case Insert(_, _, _, _, _) => false
    case TransitionOp(_, x, y, _, _, _) => a == x && b == y
    case ClaimOp(_, byId, _, _, _) =>
      (a == Inbox.Queued || a == Inbox.Processing || (byId && (a == Inbox.Received || a == Inbox.Admitted))) && b == Inbox.Processing
    case UpdateOp(_, _, _, _) => a == Inbox.Processing && b == Inbox.Processing
    case RenewOp(_, _, _, _) => a == Inbox.Processing && b == Inbox.Processing
    case FinishOp(_, _, e, _, _) =>
      a == Inbox.Processing && b == if e.AsProcessed? then Inbox.Processed else if e.AsIgnored? then Inbox.Ignored else Inbox.Failed
    case RequeueOp(_, _, _, _, _) => a == Inbox.Processing && b == Inbox.Queued
    case IgnoreDeferredOp(_, _, _) => a == Inbox.Queued && b == Inbox.Ignored
  }

  /** Every statement that touches a receipt moves it along an edge and stamps the clock; nothing rewrites the message. */
  lemma ReceiptStep(r: Inbox.Row, op: Inbox.Op, id: string)
    requires Inbox.LeaseShape(r)
    ensures var s := Inbox.RowAfter(r, op, id);
            s.identity == r.identity && s.createdAt == r.createdAt
            && (s != r ==> ReceiptMoves(op, r.status, s.status) && s.updatedAt == ReceiptClock(op))
            && (s.owner.Some? && s.owner != r.owner ==> op.ClaimOp?)
  {
  }

  predicate ReceiptMeets(r: Inbox.Row, op: Inbox.Op, id: string) {
    match op
    case Insert(_, _, _, _, _) => false
    case TransitionOp(i, x, _, _, _, _) => i == id && r.status == x && r.owner == None
    case ClaimOp(i, byId, _, ms, now) =>
      i == id && ms > 0
      && (if r.status == Inbox.Processing then r.expires.Some? && r.expires.value <= now
          else (r.status == Inbox.Queued || (byId && (r.status == Inbox.Received || r.status == Inbox.Admitted))) && r.availableAt <= now)
    case UpdateOp(i, c, _, now) => i == id && Holding(r.owner, r.token, r.expires, c, now)
    case RenewOp(i, c, ms, now) => i == id && ms > 0 && Holding(r.owner, r.token, r.expires, c, now)
    case FinishOp(i, c, _, _, now) => i == id && Holding(r.owner, r.token, r.expires, c, now)
    case RequeueOp(i, c, _, _, now) => i == id && Holding(r.owner, r.token, r.expires, c, now)
    case IgnoreDeferredOp(i, _, _) => i == id && r.status == Inbox.Queued
  }

  /** A statement matches exactly when it finds the receipt as it wants it: its own lease, a due one nobody has, or an expired one. */
  lemma ReceiptMatches(r: Inbox.Row, op: Inbox.Op, id: string)
    requires Inbox.LeaseShape(r)
    ensures Inbox.RowWrite(r, op, id).Some? <==> ReceiptMeets(r, op, id)
  {
  }

  lemma ReceiptColumns(r: Inbox.Row, op: Inbox.Op, id: string)
    requires Inbox.LeaseShape(r) && Inbox.RowAfter(r, op, id) != r
    ensures var s := Inbox.RowAfter(r, op, id);
            s.availableAt == (if op.RequeueOp? then op.retryAt else if op.TransitionOp? && op.deferTo.Some? then op.deferTo.value else r.availableAt)
            && (op.FinishOp? || op.IgnoreDeferredOp? ==> s.completedAt == Some(ReceiptClock(op)))
            && (op.TransitionOp? ==> s.completedAt == if Over(s.status) then Some(op.now) else None)
            && (op.ClaimOp? || op.RenewOp? || op.UpdateOp? || op.RequeueOp? ==> s.completedAt == r.completedAt)
            && s.error == (match op
                           case TransitionOp(_, _, _, e, _, _) => e
                           case UpdateOp(_, _, e, _) => e
                           case FinishOp(_, _, _, e, _) => e
                           case RequeueOp(_, _, e, _, _) => Some(e)
                           case IgnoreDeferredOp(_, e, _) => Some(e)
                           case _ => r.error)
  {
  }

  // ---- cards ----

  predicate OpenCard(s: Cards.Status) {
    s == Cards.Creating || s == Cards.Streaming || s == Cards.Recovering
  }

  /**
   * Every statement that touches a card counts a revision and stamps the clock.
   * A finished card only takes notes. A patch writes exactly the fields it
   * carries and the error, and finishing one stamps its end.
   */
  lemma CardStep(r: Cards.Row, op: Cards.Op, id: string)
    requires Cards.RowAfter(r, op, id) != r
    ensures var s := Cards.RowAfter(r, op, id);
            s.turn == r.turn && s.provider == r.provider && s.createdAt == r.createdAt && s.revision == r.revision + 1
            && (op.NoteOp? || OpenCard(r.status))
            && match op
               case UpdateOp(_, v, p, now) =>
                 r.revision == v && s.updatedAt == now && s.error == p.error
                 && s.status == (if p.status.Some? then p.status.value else r.status)
                 && s.messageId == (if p.messageId.Some? then p.messageId.value else r.messageId)
                 && s.cardId == (if p.cardId.Some? then p.cardId.value else r.cardId)
                 && s.version == (if p.version.Some? then p.version.value else r.version)
                 && s.snapshot == (if p.snapshot.Some? then p.snapshot.value else r.snapshot)
                 && s.completedAt == (if p.status.Some? && !OpenCard(s.status) then Some(now) else r.completedAt)
               case ClaimRecoveryOp(_, v, ms, now) =>
                 r.revision == v && s.updatedAt == now && s.status == Cards.Recovering && s.error == Some(Cards.RECOVERING_ERROR)
                 && s.messageId == r.messageId && s.cardId == r.cardId && s.version == r.version
                 && s.snapshot == r.snapshot && s.completedAt == r.completedAt
                 && (r.status == Cards.Recovering ==> now - r.updatedAt >= ms && now - r.updatedAt >= 1_000)
               case NoteOp(_, _, now) =>
                 s.updatedAt == now && s.status == r.status && s.error == r.error && s.messageId == r.messageId && s.cardId == r.cardId
                 && s.version == r.version && s.completedAt == r.completedAt
               case _ => false
  {
  }

  /** Which card a statement changes, and when: an open one of the revision it names, a recovering one only when stale; a note any. */
  lemma CardTakesEffect(t: Cards.Table, op: Cards.Op, id: string, may: bool)
    requires id in t && !op.RemoveOp?
    ensures var u := Cards.Apply(t, op, may);
            id in u && u[id] == Cards.RowAfter(t[id], op, id)
            && (u[id] != t[id] <==>
                  op.id == id
                  && match op
                     case Insert(_, _, _, _, _, _, _) => false
                     case UpdateOp(_, v, _, _) => t[id].revision == v && OpenCard(t[id].status)
                     case ClaimRecoveryOp(_, v, ms, now) =>
                       t[id].revision == v
                       && (t[id].status == Cards.Creating || t[id].status == Cards.Streaming
                           || (t[id].status == Cards.Recovering && now - t[id].updatedAt >= ms && now - t[id].updatedAt >= 1_000))
                     case NoteOp(_, _, _) => true)
  {
    var r, s := t[id], Cards.RowAfter(t[id], op, id);
    if s == r {
      assert s.revision == r.revision;
    }
  }

  /** A writer that holds the current revision of an open card is never refused, and neither is one that claims a stale recovery. */
  lemma CardWriteLands(r: Cards.Row, p: Cards.Patch, leaseMs: int, now: int)
    requires OpenCard(r.status)
    ensures Cards.UpdateRow(r, r.revision, p, now).Some?
    ensures Cards.ClaimRecoveryRow(r, r.revision, now, leaseMs).Some? <==>
              r.status != Cards.Recovering || (now - r.updatedAt >= leaseMs && now - r.updatedAt >= 1_000)
  {
  }

  // ---- new rows ----

  /** A new card is creating or already streaming, as asked, with nothing written; a card that is stored is left as it is. */
  lemma InsertedCard(t: Cards.Table, id: string, turn: string, provider: string, m: Option<string>, c: Option<string>, streaming: bool, now: int, may: bool)
    ensures var u := Cards.Apply(t, Cards.Insert(id, turn, provider, m, c, streaming, now), may);
            id in u && (forall i | i in t :: i in u && u[i] == t[i]) && u.Keys == t.Keys + {id}
            && (id !in t ==>
                  var r := u[id];
                  r.turn == turn && r.provider == provider && r.messageId == m && r.cardId == c && r.version == 0 && r.revision == 0
                  && r.status == (if streaming then Cards.Streaming else Cards.Creating)
                  && r.snapshot == Cards.Snapshot("", 0, false, false) && r.error == None && r.createdAt == now && r.updatedAt == now && r.completedAt == None)
  {
  }

  /** A reservation is removed exactly if the provider never saw it, under its revision, and when turn and outbox allow it. */
  lemma RemovedCard(t: Cards.Table, id: string, turn: string, v: nat, claim: Claim, strict: bool, now: int, may: bool)
    requires id in t
    ensures var u := Cards.Apply(t, Cards.RemoveOp(id, turn, v, claim, strict, now), may);
            (forall i | i in t && i != id :: i in u && u[i] == t[i]) && u.Keys <= t.Keys && (id in u ==> u[id] == t[id])
            && (id !in u <==>
                  may && t[id].turn == turn && t[id].revision == v && t[id].status == Cards.Creating && t[id].messageId == None && t[id].cardId == None)
  {
  }

  /** A new output is pending, its first attempt due as asked; it is stored exactly if neither its id, its key nor its place in the turn is taken. */
  lemma InsertedOutput(t: Outbox.Table, id: string, x: Outbox.Identity, at: int, now: int)
    ensures var u := Outbox.Apply(t, Outbox.Insert(id, x, at, now));
            (forall i | i in t :: i in u && u[i] == t[i])
            && (u != t <==> id !in t && forall o | o in t :: t[o].identity.key != x.key && (t[o].identity.turn != x.turn || t[o].identity.ordinal != x.ordinal))
            && (u != t ==> u == t[id := Outbox.Row(x, Outbox.Pending, None, None, at, None, 0, None, 0, 0, None, now, now, None)])
  {
    if id !in t && forall o | o in t :: t[o].identity.key != x.key && (t[o].identity.turn != x.turn || t[o].identity.ordinal != x.ordinal) {
      assert id in Outbox.Apply(t, Outbox.Insert(id, x, at, now));
    }
  }

  /** A new turn is queued; it is stored exactly if its id and its key are free and no turn belongs to its receipt yet. */
  lemma InsertedTurn(db: ChannelDb.Db, id: string, x: Turns.Identity, inbox: Option<string>, at: int, now: int)
    ensures var u := ChannelDb.Apply(db, ChannelDb.OnTurn(Turns.Insert(id, x, inbox, at, now)));
            u == db.(turns := u.turns)
            && (u != db <==> id !in db.turns && forall o | o in db.turns ::
                               db.turns[o].identity.key != x.key && (inbox == None || db.turns[o].inbox != inbox))
            && (u != db ==> u.turns == db.turns[id := Turns.Row(x, inbox, Turns.Queued, at, None, 0, None, None, 0, 0, None, None, now, now, None, None)])
  {
    var u := ChannelDb.Apply(db, ChannelDb.OnTurn(Turns.Insert(id, x, inbox, at, now)));
    if id !in db.turns && forall o | o in db.turns :: db.turns[o].identity.key != x.key && (inbox == None || db.turns[o].inbox != inbox) {
      assert id in u.turns;
    }
  }

  /** A new receipt waits in the state it was recorded in; it is stored exactly if its id is free and its message was never recorded. */
  lemma InsertedReceipt(db: ChannelDb.Db, id: string, x: Inbox.Identity, status: Inbox.Status, at: int, now: int)
    ensures var u := ChannelDb.Apply(db, ChannelDb.OnInbox(Inbox.Insert(id, x, status, at, now)));
            u == db.(inbox := u.inbox)
            && (u != db <==> id !in db.inbox && (status == Inbox.Received || status == Inbox.Admitted || status == Inbox.Queued)
                             && forall o | o in db.inbox :: var y := db.inbox[o].identity;
                                  y.provider != x.provider || y.account != x.account || y.message != x.message)
            && (u != db ==> u.inbox == db.inbox[id := Inbox.Row(x, status, at, None, 0, None, 0, None, now, now, None)])
  {
    var u := ChannelDb.Apply(db, ChannelDb.OnInbox(Inbox.Insert(id, x, status, at, now)));
    if Inbox.Insertable(db.inbox, id, x, status) {
      assert id in u.inbox;
    }
  }

  /** A statement on one table leaves the other three alone and makes of each of its rows what the row statement says. */
  lemma StatementOnOneTable(db: ChannelDb.Db, op: ChannelDb.Op)
    ensures var u := ChannelDb.Apply(db, op);
            (!op.OnInbox? ==> u.inbox == db.inbox) && (!op.OnTurn? ==> u.turns == db.turns)
            && (!op.OnOutbox? ==> u.outbox == db.outbox) && (!op.OnCard? ==> u.cards == db.cards)
            && (op.OnInbox? && !op.i.Insert? ==>
                  u.inbox.Keys == db.inbox.Keys && forall id | id in db.inbox :: u.inbox[id] == Inbox.RowAfter(db.inbox[id], op.i, id))
            && (op.OnOutbox? && !op.o.Insert? ==>
                  u.outbox.Keys == db.outbox.Keys && forall id | id in db.outbox :: u.outbox[id] == Outbox.RowAfter(db.outbox, op.o, id))
            && (op.OnTurn? && !op.t.Insert? ==> u.turns.Keys == db.turns.Keys)
  {
  }

  /** What the other tables say to a turn statement: an output not settled yet, a delivered output or a completed card. */
  lemma EffectsOfTurn(db: ChannelDb.Db, id: string)
    ensures !ChannelDb.EffectsOf(db, id).unsettled <==>
              forall o | o in db.outbox && db.outbox[o].identity.turn == id ::
                db.outbox[o].status == Outbox.Delivered || db.outbox[o].status == Outbox.Failed || db.outbox[o].status == Outbox.Cancelled
    ensures !ChannelDb.EffectsOf(db, id).delivered <==>
              (forall o | o in db.outbox && db.outbox[o].identity.turn == id :: db.outbox[o].status != Outbox.Delivered)
              && (forall c | c in db.cards && db.cards[c].turn == id :: db.cards[c].status != Cards.Completed)
  {
  }

  /** A turn statement makes of every turn what the row statement says; a link needs a stored receipt that no turn has. */
  lemma TurnStatement(db: ChannelDb.Db, op: Turns.Op, id: string)
    requires id in db.turns && !op.Insert?
    ensures var u := ChannelDb.Apply(db, ChannelDb.OnTurn(op)).turns;
            var linkable := op.LinkOp? ==> op.inboxRow in db.inbox && forall t | t in db.turns :: db.turns[t].inbox != Some(op.inboxRow);
            id in u && u[id] == if linkable then Turns.RowAfter(db.turns[id], op, id, ChannelDb.EffectsOf(db, id)) else db.turns[id]
  {
    ChannelDb.TurnAfter(db, op, id);
  }

  /** The turns the startup fence counts are exactly those it changes. */
  lemma FenceCountsItsChanges(db: ChannelDb.Db, now: int, id: string)
    requires id in db.turns && Turns.LeaseShape(db.turns[id])
    ensures id in ChannelDb.ToFence(db, now) <==> ChannelDb.Apply(db, ChannelDb.OnTurn(Turns.FenceAllOp(now))).turns[id] != db.turns[id]
  {
    ChannelDb.TurnAfter(db, Turns.FenceAllOp(now), id);
    TurnTakesEffect(db.turns[id], Turns.FenceAllOp(now), id, ChannelDb.EffectsOf(db, id));
  }

  /** And so are those of the reaper. */
  lemma ReaperCountsItsChanges(db: ChannelDb.Db, now: int, id: string)
    requires id in db.turns && Turns.LeaseShape(db.turns[id])
    ensures id in ChannelDb.ToExpire(db.turns, now) <==> ChannelDb.Apply(db, ChannelDb.OnTurn(Turns.InterruptExpiredOp(now))).turns[id] != db.turns[id]
  {
    ChannelDb.TurnAfter(db, Turns.InterruptExpiredOp(now), id);
    TurnTakesEffect(db.turns[id], Turns.InterruptExpiredOp(now), id, ChannelDb.EffectsOf(db, id));
  }

  /** A reservation may be taken back only under the turn's running lease, and in the strict form only while no output may be visible. */
  lemma ReservationTakenBack(db: ChannelDb.Db, id: string, turn: string, v: nat, c: Claim, strict: bool, now: int)
    requires id in db.cards
    ensures var u := ChannelDb.Apply(db, ChannelDb.OnCard(Cards.RemoveOp(id, turn, v, c, strict, now))).cards; var r := db.cards[id];
            id !in u <==> r.turn == turn && r.revision == v && r.status == Cards.Creating && r.messageId == None && r.cardId == None
                          && turn in db.turns && Executing(db.turns[turn].status)
                          && Holding(db.turns[turn].owner, db.turns[turn].token, db.turns[turn].expires, c, now)
                          && (strict ==> forall o | o in db.outbox && db.outbox[o].identity.turn == turn ::
                                db.outbox[o].status != Outbox.Claimed && db.outbox[o].status != Outbox.Sending
                                && db.outbox[o].status != Outbox.Uncertain && db.outbox[o].status != Outbox.Delivered)
  {
  }
}
