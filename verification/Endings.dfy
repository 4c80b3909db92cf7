/**
 * How rows end: over any run the final state of a closed turn, a finished
 * receipt or a delivered output is what the one statement that ended it said,
 * and that statement met the row open.
 */
module Endings {
  import opened Options
  import opened LeaseFence
  import opened ChannelDb
  import Inbox = InboxTable
  import Turns = TurnTable
  import Outbox = OutboxTable

  // ---- turns ----

  predicate OpenTurn(db: Db, id: string) {
    id in db.turns && !Turns.Terminal(db.turns[id].status)
  }

  /** What a closing statement says about the turn it closes. */
  predicate SaysOfTurn(op: Turns.Op, id: string, r: Turns.Row) {
    match op
    case CompleteOp(i, _, e, result, error, now) =>
      i == id && r.result == result && r.error == error && r.completedAt == Some(now)
      && (e == Turns.AsCompleted <==> r.status == Turns.Completed) && (e == Turns.AsFailed <==> r.status == Turns.Failed)
      && (e == Turns.AsCancelled <==> r.status == Turns.Cancelled)
    case CompleteRecoveredOp(i, _) => i == id && r.status == Turns.Completed && r.error == None
    case InterruptOp(i, reason, now) => i == id && r.status == Turns.Interrupted && r.error == Some(reason) && r.completedAt == Some(now)
    case CancelOp(i, reason, now) => i == id && r.status == Turns.Cancelled && r.error == Some(reason) && r.completedAt == Some(now)
    case FenceOneOp(i, now) => i == id && r.status == Turns.Interrupted && r.error == Some(Turns.DELIVERED_EFFECT) && r.completedAt == Some(now)
    case FenceAllOp(now) => r.status == Turns.Interrupted && r.error == Some(Turns.DELIVERED_EFFECT) && r.completedAt == Some(now)
    case InterruptExpiredOp(now) => r.status == Turns.Interrupted && r.error.Some? && r.completedAt == Some(now)
    case CancelStaleOp(_, reason, _, now) => r.status == Turns.Cancelled && r.error == Some(reason) && r.completedAt == Some(now)
    case CancelWithdrawnOp(_, _, _, _, reason, now) => r.status == Turns.Cancelled && r.error == Some(reason) && r.completedAt == Some(now)
    case _ => false
  }

  lemma ClosingSays(r: Turns.Row, op: Turns.Op, id: string, fx: Turns.Effects)
    requires Turns.LeaseShape(r) && !Turns.Terminal(r.status) && Turns.Terminal(Turns.RowAfter(r, op, id, fx).status)
    ensures SaysOfTurn(op, id, Turns.RowAfter(r, op, id, fx))
  {
  }

  /** The statement closed the open turn, as `r` says. */
  ghost predicate ClosesTurn(db: Db, op: Op, id: string, r: Turns.Row) {
    op.OnTurn? && OpenTurn(db, id) && SaysOfTurn(op.t, id, r)
  }

  lemma StepClosesTurn(db: Db, op: Op, id: string)
    requires Consistent(db) && !(id in db.turns && Turns.Terminal(db.turns[id].status))
    requires id in Apply(db, op).turns && Turns.Terminal(Apply(db, op).turns[id].status)
    ensures ClosesTurn(db, op, id, Apply(db, op).turns[id])
  {
    if op.OnTurn? && id in db.turns {
      TurnAfter(db, op.t, id);
      ClosingSays(db.turns[id], op.t, id, EffectsOf(db, id));
    }
  }

  /** A turn that was closed in a run ended as one statement of the run said, which found it open. */
  lemma {:induction false} TurnEndedAsSaid(db: Db, ops: seq<Op>, id: string)
    requires Consistent(db) && !(id in db.turns && Turns.Terminal(db.turns[id].status))
    requires id in Run(db, ops).turns && Turns.Terminal(Run(db, ops).turns[id].status)
    ensures exists n :: 0 <= n < |ops| && ClosesTurn(Run(db, ops[..n]), ops[n], id, Run(db, ops).turns[id])
    decreases |ops|
  {
    var front, last := ops[..|ops| - 1], ops[|ops| - 1];
    var before := Run(db, front);
    RunConsistent(db, front);
    if id in before.turns && Turns.Terminal(before.turns[id].status) {
      TurnEndedAsSaid(db, front, id);
      var n :| 0 <= n < |front| && ClosesTurn(Run(db, front[..n]), front[n], id, before.turns[id]);
      assert front[..n] == ops[..n] && front[n] == ops[n];
      KeepsSaying(before, last, id, ops[n]);
    } else {
      StepClosesTurn(before, last, id);
    }
  }

  lemma KeepsSaying(db: Db, op: Op, id: string, closing: Op)
    requires Consistent(db) && id in db.turns && Turns.Terminal(db.turns[id].status)
    requires closing.OnTurn? && SaysOfTurn(closing.t, id, db.turns[id])
    ensures id in Apply(db, op).turns && SaysOfTurn(closing.t, id, Apply(db, op).turns[id])
  {
    if op.OnTurn? {
      TurnAfter(db, op.t, id);
      Turns.TerminalKept(db.turns[id], op.t, id, EffectsOf(db, id));
    }
  }

  /** Every output of the turn was delivered, has failed for good, or was cancelled. */
  ghost predicate AllSettled(db: Db, turn: string) {
    forall o | o in db.outbox && db.outbox[o].identity.turn == turn ::
      db.outbox[o].status == Outbox.Delivered || db.outbox[o].status == Outbox.Failed || db.outbox[o].status == Outbox.Cancelled
  }

  lemma SettledIsUnsettled(db: Db, turn: string)
    ensures AllSettled(db, turn) <==> !Unsettled(db, turn)
  {
  }

  /** Whoever holds a turn completes it exactly when all of its outputs are settled; failed or cancelled it may end at any time. */
  lemma HolderCompletesExactlyWhenSettled(db: Db, id: string, c: Claim, e: Turns.Ending, result: Option<string>, error: Option<string>, now: int)
    requires Consistent(db) && id in db.turns && Turns.Leased(db.turns[id].status) && Turns.Held(db.turns[id], c, now)
    ensures var u := Apply(db, OnTurn(Turns.CompleteOp(id, c, e, result, error, now))).turns;
            id in u && (Turns.Terminal(u[id].status) <==> e != Turns.AsCompleted || AllSettled(db, id))
            && (!Turns.Terminal(u[id].status) ==> u[id] == db.turns[id])
  {
    SettledIsUnsettled(db, id);
    TurnAfter(db, Turns.CompleteOp(id, c, e, result, error, now), id);
  }

  /** A parked turn keeps the worker's question, and resuming it under its revision queues it again. */
  lemma ParkedTurnResumes(r: Turns.Row, c: Claim, result: Option<string>, now: int, availableAt: int, later: int)
    requires Turns.WaitRow(r, c, result, now).Some?
    ensures var s := Turns.WaitRow(r, c, result, now).value;
            s.status == Turns.WaitingUser && s.result == result && s.attempt == r.attempt
            && (forall at, ms, o :: Turns.ClaimRow(s, o, ms, at) == None)
            && Turns.ResumeRow(s, s.revision, availableAt, later).Some?
            && Turns.ResumeRow(s, r.revision, availableAt, later) == None
            && Turns.ResumeRow(s, s.revision, availableAt, later).value.status == Turns.Queued
  {
  }

  /** A turn that is being finalized is held as before and ends as its owner says. */
  lemma FinalizingKeepsTheHold(r: Turns.Row, c: Claim, now: int, at: int)
    requires Turns.FinalizingRow(r, c, now).Some?
    ensures var s := Turns.FinalizingRow(r, c, now).value;
            s.status == Turns.Finalizing && Turns.Held(s, c, at) == Turns.Held(r, c, at)
            && (Turns.Held(r, c, at) ==> Turns.CompleteRow(s, c, Turns.AsFailed, None, None, true, at).Some?)
            && Turns.FinalizingRow(s, c, at) == None && Turns.RetryRow(s, c, at, "", at) == None
  {
  }

  // ---- receipts ----

  predicate SaysOfReceipt(op: Inbox.Op, id: string, r: Inbox.Row) {
    match op
    case FinishOp(i, _, e, error, now) =>
      i == id && r.error == error && r.completedAt == Some(now)
      && (e == Inbox.AsProcessed <==> r.status == Inbox.Processed) && (e == Inbox.AsIgnored <==> r.status == Inbox.Ignored)
      && (e == Inbox.AsFailed <==> r.status == Inbox.Failed)
    case IgnoreDeferredOp(i, reason, now) => i == id && r.status == Inbox.Ignored && r.error == Some(reason) && r.completedAt == Some(now)
    case _ => false
  }

  predicate Finished(db: Db, id: string) {
    id in db.inbox && Inbox.Terminal(db.inbox[id].status)
  }

  ghost predicate FinishesReceipt(db: Db, op: Op, id: string, r: Inbox.Row) {
    op.OnInbox? && id in db.inbox && !Finished(db, id) && SaysOfReceipt(op.i, id, r)
  }

  lemma StepFinishesReceipt(db: Db, op: Op, id: string)
    requires !Finished(db, id) && Finished(Apply(db, op), id) && !(op.OnInbox? && op.i.TransitionOp?)
    ensures FinishesReceipt(db, op, id, Apply(db, op).inbox[id])
  {
  }

  lemma FinishedIsKept(db: Db, op: Op, id: string)
    requires Consistent(db) && Finished(db, id) && !(op.OnInbox? && op.i.TransitionOp?)
    ensures id in Apply(db, op).inbox && Apply(db, op).inbox[id] == db.inbox[id]
  {
    if op.OnInbox? {
      Inbox.TerminalKept(db.inbox[id], op.i, id);
    }
  }

  /** On the claim and finish path a receipt ended as the one statement said that found it unfinished. */
  lemma {:induction false} ReceiptEndedAsSaid(db: Db, ops: seq<Op>, id: string)
    requires Consistent(db) && !Finished(db, id) && Finished(Run(db, ops), id)
    requires forall i | 0 <= i < |ops| :: !(ops[i].OnInbox? && ops[i].i.TransitionOp?)
    ensures exists n :: 0 <= n < |ops| && FinishesReceipt(Run(db, ops[..n]), ops[n], id, Run(db, ops).inbox[id])
    decreases |ops|
  {
    var front, last := ops[..|ops| - 1], ops[|ops| - 1];
    var before := Run(db, front);
    if Finished(before, id) {
      ReceiptEndedAsSaid(db, front, id);
      var n :| 0 <= n < |front| && FinishesReceipt(Run(db, front[..n]), front[n], id, before.inbox[id]);
      assert front[..n] == ops[..n] && front[n] == ops[n];
      RunConsistent(db, front);
      FinishedIsKept(before, last, id);
    } else {
      StepFinishesReceipt(before, last, id);
    }
  }

  // ---- outputs ----

  predicate DeliveredOutput(db: Db, id: string) {
    id in db.outbox && db.outbox[id].status == Outbox.Delivered
  }

  /** The statement delivered the output: its owner with the provider's receipt, or the operator resolving a doubt. */
  predicate Delivers(db: Db, op: Op, id: string, r: Outbox.Row) {
    op.OnOutbox? && id in db.outbox && !DeliveredOutput(db, id)
    && match op.o
       case CompleteOp(i, c, m, now) =>
         i == id && CanWrite(Outbox.ViewOf(db.outbox[id]), c) && r.messageId == Some(m) && r.deliveredAt == Some(now) && r.error == None
       case ResolveOp(i, _, how, now) =>
         i == id && db.outbox[id].status == Outbox.Uncertain && how.AsDelivered? && r.messageId == Some(how.messageId) && r.deliveredAt == Some(now)
       case _ => false
  }

  lemma StepDelivers(db: Db, op: Op, id: string)
    requires Consistent(db) && !DeliveredOutput(db, id) && DeliveredOutput(Apply(db, op), id)
    ensures Delivers(db, op, id, Apply(db, op).outbox[id])
  {
    if op.OnOutbox? && id in db.outbox {
      Outbox.ApplyAt(db.outbox, op.o, id);
    }
  }

  /** A delivered output carries the message id of the one statement that delivered it. */
  lemma {:induction false} DeliveryCarriesItsReceipt(db: Db, ops: seq<Op>, id: string)
    requires Consistent(db) && !DeliveredOutput(db, id) && DeliveredOutput(Run(db, ops), id)
    ensures exists n :: 0 <= n < |ops| && Delivers(Run(db, ops[..n]), ops[n], id, Run(db, ops).outbox[id])
    decreases |ops|
  {
    var front, last := ops[..|ops| - 1], ops[|ops| - 1];
    var before := Run(db, front);
    RunConsistent(db, front);
    if DeliveredOutput(before, id) {
      DeliveryCarriesItsReceipt(db, front, id);
      var n :| 0 <= n < |front| && Delivers(Run(db, front[..n]), front[n], id, before.outbox[id]);
      assert front[..n] == ops[..n] && front[n] == ops[n];
      if last.OnOutbox? {
        Outbox.ApplyAt(before.outbox, last.o, id);
        Outbox.TerminalKept(before.outbox, last.o, id);
      }
    } else {
      StepDelivers(before, last, id);
    }
  }

  /** The operator's word on a doubtful output stands: delivered with the id found, or failed, and never sent again by itself. */
  lemma ResolutionStands(r: Outbox.Row, how: Outbox.Resolution, now: int, owner: string, leaseMs: int, at: int)
    requires r.status == Outbox.Uncertain
    ensures var s := Outbox.ResolveRow(r, r.revision, how, now);
            s.Some? && (how.AsDelivered? <==> s.value.status == Outbox.Delivered) && (how.AsFailed? <==> s.value.status == Outbox.Failed)
            && (how.AsDelivered? ==> s.value.messageId == Some(how.messageId)) && (how.AsFailed? ==> s.value.error == Some(how.error))
            && Outbox.ClaimRow(s.value, owner, leaseMs, at) == None && Outbox.ResolveRow(s.value, s.value.revision, how, now) == None
  {
  }

  /** A failed output is retired at most once, and nothing but a failed one. */
  lemma RetiredOutput(r: Outbox.Row, marker: string, now: int)
    ensures var s := Outbox.RetireRow(r, marker, now);
            (s.Some? <==> r.status == Outbox.Failed)
            && (s.Some? ==> s.value.status == Outbox.Cancelled && s.value.error == Some(marker) && Outbox.RetireRow(s.value, marker, now) == None)
  {
  }
}
