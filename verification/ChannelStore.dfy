/**
 * The store as its callers use it: one object that owns the four tables and
 * one method per statement. Each method is atomic and is proved to do to the
 * database exactly what the statement's transition says, and to answer exactly
 * whether it did.
 */
module ChannelStore {
  import opened Options
  import opened LeaseFence
  import opened ChannelDb
  import Inbox = InboxTable
  import Turns = TurnTable
  import Outbox = OutboxTable
  import Cards = CardTable
  import Retention
  import Lex

  class Store {
    var inbox: Inbox.Table
    var turns: Turns.Table
    var outbox: Outbox.Table
    var cards: Cards.Table
    var cursors: map<Retention.CursorKey, Retention.Cursor>

    function Data(): Db
      reads this
    {
      Db(inbox, turns, outbox, cards)
    }

    /** The tables together with the cursors. */
    function Everything(): Retention.World
      reads this
    {
      Retention.World(Data(), cursors)
    }

    constructor ()
      ensures Everything() == Retention.World(Db(map[], map[], map[], map[]), map[])
    {
      inbox, turns, outbox, cards, cursors := map[], map[], map[], map[], map[];
    }

    // ---- outbox ----

    /** The row a repeated enqueue resolves to. */
    method FindOutbox(x: Outbox.Identity) returns (found: Option<string>)
      ensures found.Some? ==> found.value in outbox
      ensures found.Some? && outbox[found.value].identity.key != x.key ==>
                outbox[found.value].identity.turn == x.turn && outbox[found.value].identity.ordinal == x.ordinal
                && forall id | id in outbox :: outbox[id].identity.key != x.key
      ensures found == None ==>
                forall id | id in outbox ::
                  outbox[id].identity.key != x.key && !(outbox[id].identity.turn == x.turn && outbox[id].identity.ordinal == x.ordinal)
    {
      if id :| id in outbox && outbox[id].identity.key == x.key {
        return Some(id);
      }
      if id :| id in outbox && outbox[id].identity.turn == x.turn && outbox[id].identity.ordinal == x.ordinal {
        return Some(id);
      }
      return None;
    }

    method EnqueueOutbox(newId: string, x: Outbox.Identity, availableAt: int, now: int)
      modifies `outbox
      ensures Data() == Apply(old(Data()), OnOutbox(Outbox.Insert(newId, x, availableAt, now)))
    {
      if newId in outbox { return; }
      if o :| o in outbox && (outbox[o].identity.key == x.key
                              || (outbox[o].identity.turn == x.turn && outbox[o].identity.ordinal == x.ordinal)) {
        return;
      }
      outbox := outbox[newId := Outbox.Fresh(x, availableAt, now)];
    }

    /** `ORDER BY updated_at, id`. */
    predicate Earlier(a: string, b: string)
      requires a in outbox && b in outbox
      reads this
    {
      outbox[a].updatedAt < outbox[b].updatedAt || (outbox[a].updatedAt == outbox[b].updatedAt && Lex.Less(a, b))
    }

    lemma EarlierIsAnOrder(a: string, b: string, c: string)
      requires a in outbox && b in outbox && c in outbox
      ensures a != b ==> Earlier(a, b) || Earlier(b, a)
      ensures Earlier(a, b) && Earlier(b, c) ==> Earlier(a, c)
    {
      Lex.Total(a, b);
      if Lex.Less(a, b) && Lex.Less(b, c) {
        Lex.Transitive(a, b, c);
      }
    }

    /** The uncertain output of a turn that was touched first. */
    method FirstUncertain(turn: string) returns (found: Option<string>)
      ensures found == None ==> forall id | id in outbox :: !(outbox[id].identity.turn == turn && outbox[id].status == Outbox.Uncertain)
      ensures found.Some? ==> found.value in outbox && outbox[found.value].identity.turn == turn && outbox[found.value].status == Outbox.Uncertain
      ensures found.Some? ==>
                forall id | id in outbox && outbox[id].identity.turn == turn && outbox[id].status == Outbox.Uncertain ::
                  id == found.value || Earlier(found.value, id)
    {
      found := None;
      var rest := set id | id in outbox && outbox[id].identity.turn == turn && outbox[id].status == Outbox.Uncertain;
      ghost var all := rest;
      while rest != {}
        invariant rest <= all <= outbox.Keys
        invariant found.Some? ==> found.value in all && found.value !in rest
        invariant found == None ==> rest == all
        invariant found.Some? ==> forall id | id in all && id !in rest :: id == found.value || Earlier(found.value, id)
        decreases rest
      {
        var id :| id in rest;
        if found == None {
          found := Some(id);
        } else if Earlier(id, found.value) {
          forall x | x in all && x !in rest && x != found.value ensures Earlier(id, x) {
            EarlierIsAnOrder(id, found.value, x);
          }
          found := Some(id);
        } else {
          EarlierIsAnOrder(id, found.value, id);
        }
        rest := rest - {id};
      }
      if found == None {
        forall id | id in outbox ensures !(outbox[id].identity.turn == turn && outbox[id].status == Outbox.Uncertain) {
          assert id !in all;
        }
      }
    }

    method ClaimOutbox(id: string, owner: string, leaseMs: int, now: int) returns (claim: Option<Claim>)
      modifies `outbox
      ensures Data() == Apply(old(Data()), OnOutbox(Outbox.ClaimOp(id, owner, leaseMs, now)))
      ensures claim == Outbox.GrantOf(old(outbox), Outbox.ClaimOp(id, owner, leaseMs, now), id)
    {
      Outbox.OneRow(outbox, Outbox.ClaimOp(id, owner, leaseMs, now), id);
      if id !in outbox || leaseMs <= 0 { return None; }
      var r := outbox[id];
      if r.status !in {Outbox.Pending, Outbox.RetryWait} || r.availableAt > now || r.owner.Some? { return None; }
      outbox := outbox[id := r.(status := Outbox.Claimed, owner := Some(owner), token := r.token + 1,
                                expires := Some(now + leaseMs), attempt := r.attempt + 1,
                                revision := r.revision + 1, updatedAt := now)];
      return Some(Claim(owner, r.token + 1));
    }

    method TransitionClaimed(id: string, claim: Claim, mark: Outbox.Mark, now: int) returns (ok: bool)
      modifies `outbox
      ensures Data() == Apply(old(Data()), OnOutbox(Outbox.MarkOp(id, claim, mark, now)))
      ensures ok <==> id in old(outbox) && Outbox.MarkRow(old(outbox)[id], claim, mark, now).Some?
    {
      Outbox.OneRow(outbox, Outbox.MarkOp(id, claim, mark, now), id);
      if id !in outbox || !Outbox.MarkFrom(mark, outbox[id].status) || !Outbox.Held(outbox[id], claim, now) { return false; }
      var r := outbox[id];
      if mark.MarkUploaded? {
        r := r.(uploadKey := Some(mark.key));
      }
      outbox := outbox[id := r.(status := Outbox.MarkTo(mark), error := None, revision := r.revision + 1, updatedAt := now)];
      return true;
    }

    method CompleteOutbox(id: string, claim: Claim, messageId: string, now: int) returns (ok: bool)
      modifies `outbox
      ensures Data() == Apply(old(Data()), OnOutbox(Outbox.CompleteOp(id, claim, messageId, now)))
      ensures ok <==> id in old(outbox) && Outbox.CompleteRow(old(outbox)[id], claim, messageId, now).Some?
    {
      Outbox.OneRow(outbox, Outbox.CompleteOp(id, claim, messageId, now), id);
      if id !in outbox || !Outbox.Held(outbox[id], claim, now) { return false; }
      var r := outbox[id];
      if r.status !in {Outbox.Claimed, Outbox.Uploaded, Outbox.Sending} { return false; }
      outbox := outbox[id := r.(status := Outbox.Delivered, messageId := Some(messageId), deliveredAt := Some(now),
                                owner := None, expires := None, error := None, revision := r.revision + 1, updatedAt := now)];
      return true;
    }

    method FailOutbox(id: string, claim: Claim, error: string, retryAt: Option<int>, uncertain: bool, now: int) returns (ok: bool)
      modifies `outbox
      ensures Data() == Apply(old(Data()), OnOutbox(Outbox.FailOp(id, claim, error, retryAt, uncertain, now)))
      ensures ok <==> id in old(outbox) && Outbox.FailRow(old(outbox)[id], claim, error, retryAt, uncertain, now).Some?
    {
      Outbox.OneRow(outbox, Outbox.FailOp(id, claim, error, retryAt, uncertain, now), id);
      if id !in outbox || !Outbox.Leased(outbox[id].status) || !Outbox.Held(outbox[id], claim, now) { return false; }
      var r := outbox[id];
      var status := Outbox.Failed;
      if uncertain {
        status := Outbox.Uncertain;
      } else if retryAt.Some? {
        status := Outbox.RetryWait;
      }
      outbox := outbox[id := r.(status := status, error := Some(error), availableAt := retryAt.OrElse(r.availableAt),
                                owner := None, expires := None, revision := r.revision + 1, updatedAt := now)];
      return true;
    }

    /** Both updates of the reconciliation transaction; answers how many rows each one changed. */
    method ReconcileOutbox(now: int) returns (retryable: nat, uncertain: nat)
      modifies `outbox
      ensures Data() == Apply(old(Data()), OnOutbox(Outbox.ReconcileOp(now)))
      ensures retryable == |Outbox.Retryable(old(outbox), now)| && uncertain == |Outbox.Stuck(old(outbox), now)|
    {
      var early, late := Outbox.Retryable(outbox, now), Outbox.Stuck(outbox, now);
      retryable, uncertain := |early|, |late|;
      var todo := early + late;
      assert outbox == Outbox.Reconciled(outbox, {}, now);
      while todo != {}
        invariant todo <= early + late
        invariant outbox == Outbox.Reconciled(old(outbox), early + late - todo, now)
        decreases todo
      {
        var id :| id in todo;
        Outbox.ReconcileNext(old(outbox), early + late - todo, id, now);
        assert early + late - todo + {id} == early + late - (todo - {id});
        todo := todo - {id};
        outbox := outbox[id := Outbox.ReconcileRow(outbox[id], now)];
      }
      assert early + late - {} == early + late;
      Outbox.ReconciledIsApply(old(outbox), now);
    }

    method ResolveUncertain(id: string, expectedRevision: nat, how: Outbox.Resolution, now: int) returns (ok: bool)
      modifies `outbox
      ensures Data() == Apply(old(Data()), OnOutbox(Outbox.ResolveOp(id, expectedRevision, how, now)))
      ensures ok <==> id in old(outbox) && old(outbox)[id].status == Outbox.Uncertain && old(outbox)[id].revision == expectedRevision
    {
      Outbox.OneRow(outbox, Outbox.ResolveOp(id, expectedRevision, how, now), id);
      if id !in outbox || outbox[id].status != Outbox.Uncertain || outbox[id].revision != expectedRevision { return false; }
      var r := outbox[id].(revision := expectedRevision + 1, updatedAt := now);
      if how.AsDelivered? {
        r := r.(status := Outbox.Delivered, messageId := Some(how.messageId), deliveredAt := Some(now), error := None);
      } else {
        r := r.(status := Outbox.Failed, deliveredAt := None, error := Some(how.error));
      }
      outbox := outbox[id := r];
      return true;
    }

    // ---- turn runs ----

    method ClaimTurn(id: string, owner: string, leaseMs: int, now: int) returns (claim: Option<Claim>)
      modifies `turns
      ensures Data() == Apply(old(Data()), OnTurn(Turns.ClaimOp(id, owner, leaseMs, now)))
      ensures claim == Turns.GrantOf(old(turns), Turns.ClaimOp(id, owner, leaseMs, now), id)
    {
      OneTurn(Data(), Turns.ClaimOp(id, owner, leaseMs, now), id);
      if id !in turns || leaseMs <= 0 { return None; }
      var r := turns[id];
      if r.status !in {Turns.Queued, Turns.RetryWait} || r.availableAt > now || r.owner.Some? { return None; }
      turns := turns[id := r.(status := Turns.Running, owner := Some(owner), token := r.token + 1,
                              expires := Some(now + leaseMs), heartbeatAt := Some(now), attempt := r.attempt + 1,
                              revision := r.revision + 1, startedAt := Some(r.startedAt.OrElse(now)), updatedAt := now)];
      return Some(Claim(owner, r.token + 1));
    }

    method HeartbeatTurn(id: string, claim: Claim, leaseMs: int, now: int) returns (ok: bool)
      modifies `turns
      ensures Data() == Apply(old(Data()), OnTurn(Turns.HeartbeatOp(id, claim, leaseMs, now)))
      ensures ok <==> id in old(turns) && Turns.HeartbeatRow(old(turns)[id], claim, leaseMs, now).Some?
    {
      OneTurn(Data(), Turns.HeartbeatOp(id, claim, leaseMs, now), id);
      if id !in turns || leaseMs <= 0 || !Turns.Leased(turns[id].status) || !Turns.Held(turns[id], claim, now) { return false; }
      turns := turns[id := turns[id].(heartbeatAt := Some(now), expires := Some(now + leaseMs), updatedAt := now)];
      return true;
    }

    /** Refuses `completed` while some output of the turn is unsettled. */
    method CompleteTurn(id: string, claim: Claim, ending: Turns.Ending, result: Option<string>, error: Option<string>, now: int)
      returns (ok: bool)
      modifies `turns
      ensures Data() == Apply(old(Data()), OnTurn(Turns.CompleteOp(id, claim, ending, result, error, now)))
      ensures ok <==> id in old(turns) && Turns.Leased(old(turns)[id].status) && Turns.Held(old(turns)[id], claim, now)
                      && (ending == Turns.AsCompleted ==> !old(Unsettled(Data(), id)))
    {
      OneTurn(Data(), Turns.CompleteOp(id, claim, ending, result, error, now), id);
      if id !in turns || !Turns.Leased(turns[id].status) || !Turns.Held(turns[id], claim, now) { return false; }
      if ending == Turns.AsCompleted && Unsettled(Data(), id) { return false; }
      var r := turns[id];
      turns := turns[id := r.(status := Turns.EndStatus(ending), result := result, error := error, completedAt := Some(now),
                              owner := None, expires := None, revision := r.revision + 1, updatedAt := now)];
      return true;
    }

    /** Closes an open turn without a lease; the token moves on so that a live owner loses its fence. */
    method InterruptTurn(id: string, reason: string, now: int) returns (ok: bool)
      modifies `turns
      ensures Data() == Apply(old(Data()), OnTurn(Turns.InterruptOp(id, reason, now)))
      ensures ok <==> id in old(turns) && !Turns.Terminal(old(turns)[id].status)
    {
      OneTurn(Data(), Turns.InterruptOp(id, reason, now), id);
      if id !in turns || Turns.Terminal(turns[id].status) { return false; }
      var r := turns[id];
      turns := turns[id := r.(status := Turns.Interrupted, completedAt := Some(now), updatedAt := now, error := Some(reason),
                              owner := None, expires := None, token := r.token + 1, revision := r.revision + 1)];
      return true;
    }

    method CompleteRecoveredTurn(id: string, now: int) returns (ok: bool)
      modifies `turns
      ensures Data() == Apply(old(Data()), OnTurn(Turns.CompleteRecoveredOp(id, now)))
      ensures ok <==> id in old(turns) && !Turns.Terminal(old(turns)[id].status)
    {
      OneTurn(Data(), Turns.CompleteRecoveredOp(id, now), id);
      if id !in turns || Turns.Terminal(turns[id].status) { return false; }
      var r := turns[id];
      turns := turns[id := r.(status := Turns.Completed, completedAt := Some(r.completedAt.OrElse(now)), updatedAt := now,
                              error := None, owner := None, expires := None, token := r.token + 1, revision := r.revision + 1)];
      return true;
    }

    /** The startup fence: every open turn with a delivered effect and no unexpired execution lease is interrupted. */
    method FenceDeliveredTurns(now: int) returns (fenced: set<string>)
      modifies `turns
      ensures Data() == Apply(old(Data()), OnTurn(Turns.FenceAllOp(now)))
      ensures fenced == ToFence(old(Data()), now)
    {
      fenced := ToFence(Data(), now);
      var todo := fenced;
      assert turns == FencedTurns(turns, {}, now);
      while todo != {}
        invariant todo <= fenced
        invariant turns == FencedTurns(old(turns), fenced - todo, now)
        decreases todo
      {
        var id :| id in todo;
        FenceNext(old(turns), fenced - todo, id, now);
        assert fenced - todo + {id} == fenced - (todo - {id});
        todo := todo - {id};
        turns := turns[id := Turns.CloseRow(turns[id], Turns.Interrupted, Some(Turns.DELIVERED_EFFECT), now, now)];
      }
      assert fenced - {} == fenced;
      FencedIsApply(old(Data()), now);
    }

    /** Execution is never claimed again by expiry: an expired lease closes its turn. */
    method InterruptExpiredTurns(now: int) returns (interrupted: nat)
      modifies `turns
      ensures Data() == Apply(old(Data()), OnTurn(Turns.InterruptExpiredOp(now)))
      ensures interrupted == |ToExpire(old(turns), now)|
    {
      var expired := ToExpire(turns, now);
      ExpiredIsApply(Data(), now);
      turns := map id | id in turns :: if id in expired then Turns.InterruptExpiredRow(turns[id], now) else turns[id];
      return |expired|;
    }

    // ---- receipts ----

    /** Answers whether the message is new. */
    method RecordReceipt(newId: string, x: Inbox.Identity, status: Inbox.Status, availableAt: int, now: int) returns (created: bool)
      requires newId !in inbox && status in {Inbox.Received, Inbox.Admitted, Inbox.Queued}
      modifies `inbox
      ensures Data() == Apply(old(Data()), OnInbox(Inbox.Insert(newId, x, status, availableAt, now)))
      ensures created <==> forall o | o in old(inbox) :: !Inbox.SameMessage(old(inbox)[o].identity, x)
    {
      if o :| o in inbox && Inbox.SameMessage(inbox[o].identity, x) {
        return false;
      }
      inbox := inbox[newId := Inbox.Fresh(x, status, availableAt, now)];
      return true;
    }

    method ClaimReceipt(id: string, byId: bool, owner: string, leaseMs: int, now: int) returns (claim: Option<Claim>)
      modifies `inbox
      ensures Data() == Apply(old(Data()), OnInbox(Inbox.ClaimOp(id, byId, owner, leaseMs, now)))
      ensures claim == Inbox.GrantOf(old(inbox), Inbox.ClaimOp(id, byId, owner, leaseMs, now), id)
    {
      OneReceipt(inbox, Inbox.ClaimOp(id, byId, owner, leaseMs, now), id);
      if id !in inbox || leaseMs <= 0 { return None; }
      var r := inbox[id];
      var waiting := (r.status == Inbox.Queued || (byId && r.status in {Inbox.Received, Inbox.Admitted}))
      && r.availableAt <= now && r.owner == None;
      var expired := r.status == Inbox.Processing && r.expires.Some? && r.expires.value <= now;
      if !waiting && !expired { return None; }
      inbox := inbox[id := r.(status := Inbox.Processing, owner := Some(owner), token := r.token + 1,
                              expires := Some(now + leaseMs), attempt := r.attempt + 1, updatedAt := now)];
      return Some(Claim(owner, r.token + 1));
    }

    method FinishReceipt(id: string, claim: Claim, ending: Inbox.Ending, error: Option<string>, now: int) returns (ok: bool)
      modifies `inbox
      ensures Data() == Apply(old(Data()), OnInbox(Inbox.FinishOp(id, claim, ending, error, now)))
      ensures ok <==> id in old(inbox) && Inbox.FinishRow(old(inbox)[id], claim, ending, error, now).Some?
    {
      OneReceipt(inbox, Inbox.FinishOp(id, claim, ending, error, now), id);
      if id !in inbox || inbox[id].status != Inbox.Processing || !Inbox.Held(inbox[id], claim, now) { return false; }
      inbox := inbox[id := inbox[id].(status := Inbox.EndStatus(ending), error := error, completedAt := Some(now),
                                      updatedAt := now, owner := None, expires := None)];
      return true;
    }

    // ---- streaming cards ----

    /** A compare-and-set on the revision; a finished card takes no update. */
    method UpdateCard(id: string, expectedRevision: nat, p: Cards.Patch, now: int) returns (ok: bool)
      modifies `cards
      ensures Data() == Apply(old(Data()), OnCard(Cards.UpdateOp(id, expectedRevision, p, now)))
      ensures ok <==> id in old(cards) && old(cards)[id].revision == expectedRevision && !Cards.Terminal(old(cards)[id].status)
    {
      if id !in cards || cards[id].revision != expectedRevision || Cards.Terminal(cards[id].status) { return false; }
      var r := cards[id].(error := p.error, revision := expectedRevision + 1, updatedAt := now);
      if p.messageId.Some? { r := r.(messageId := p.messageId.value); }
      if p.cardId.Some? { r := r.(cardId := p.cardId.value); }
      if p.version.Some? { r := r.(version := p.version.value); }
      if p.snapshot.Some? { r := r.(snapshot := p.snapshot.value); }
      if p.status.Some? {
        r := r.(status := p.status.value);
        if Cards.Terminal(p.status.value) {
          r := r.(completedAt := Some(now));
        }
      }
      cards := cards[id := r];
      return true;
    }

    method ClaimCardRecovery(id: string, expectedRevision: nat, leaseMs: int, now: int) returns (claimed: Option<Cards.Row>)
      modifies `cards
      ensures Data() == Apply(old(Data()), OnCard(Cards.ClaimRecoveryOp(id, expectedRevision, leaseMs, now)))
      ensures claimed.Some? <==> id in old(cards) && Cards.ClaimRecoveryRow(old(cards)[id], expectedRevision, now, leaseMs).Some?
      ensures claimed.Some? ==> id in cards && cards[id] == claimed.value
    {
      if id !in cards || cards[id].revision != expectedRevision { return None; }
      var r := cards[id];
      var stale := r.status == Cards.Recovering && r.updatedAt <= now - Cards.RecoveryLease(leaseMs);
      if r.status !in {Cards.Creating, Cards.Streaming} && !stale { return None; }
      r := r.(status := Cards.Recovering, error := Some(Cards.RECOVERING_ERROR), revision := r.revision + 1, updatedAt := now);
      cards := cards[id := r];
      return Some(r);
    }

    // ---- cursors and retention ----

    method AdvanceCursor(key: Retention.CursorKey, cursor: string, position: nat, tie: string, now: int) returns (advanced: bool)
      modifies `cursors
      ensures Everything() == Retention.Apply(old(Everything()), Retention.Advance(key, cursor, position, tie, now))
      ensures advanced <==> key !in old(cursors) || Retention.Later(position, tie, old(cursors)[key])
    {
      if key in cursors {
        var c := cursors[key];
        if position < c.position || (position == c.position && !Lex.Less(c.tie, tie)) { return false; }
        cursors := cursors[key := c.(cursor := cursor, position := position, tie := tie, updatedAt := now)];
      } else {
        cursors := cursors[key := Retention.Cursor(cursor, position, tie, now, now)];
      }
      return true;
    }

    /** A compare-and-set on the position. */
    method DeleteCursor(key: Retention.CursorKey, expectedPosition: nat, expectedTie: string) returns (deleted: bool)
      modifies `cursors
      ensures Everything() == Retention.Apply(old(Everything()), Retention.DeleteCursor(key, expectedPosition, expectedTie))
      ensures deleted <==> old(Retention.Matches(cursors, key, expectedPosition, expectedTie))
    {
      if key !in cursors || cursors[key].position != expectedPosition || cursors[key].tie != expectedTie { return false; }
      cursors := cursors - {key};
      return true;
    }

    /** Answers how many turns, receipts and cursors were deleted. */
    method Cleanup(recordsBefore: Option<int>, cursorsBefore: Option<int>, guard: int)
      returns (turnsDeleted: nat, inboxDeleted: nat, cursorsDeleted: nat)
      modifies this
      ensures Everything() == Retention.Apply(old(Everything()), Retention.Cleanup(recordsBefore, cursorsBefore, guard))
      ensures turnsDeleted == |Removed(old(turns), turns)| && inboxDeleted == |Removed(old(inbox), inbox)|
      ensures cursorsDeleted == |Removed(old(cursors), cursors)|
    {
      ghost var w := Everything();
      turnsDeleted, inboxDeleted := DeleteRecords(recordsBefore, guard);
      cursorsDeleted := DeleteCursors(cursorsBefore);
      assert Everything() == Retention.World(Retention.CleanedDb(w, recordsBefore, guard), Retention.CleanedCursors(w.cursors, cursorsBefore));
    }

    method DeleteRecords(before: Option<int>, guard: int) returns (turnsDeleted: nat, inboxDeleted: nat)
      modifies `turns, `outbox, `cards, `inbox
      ensures Data() == Retention.CleanedDb(old(Everything()), before, guard)
      ensures turnsDeleted == |Removed(old(turns), turns)| && inboxDeleted == |Removed(old(inbox), inbox)|
    {
      NothingRemoved(turns);
      NothingRemoved(inbox);
      turnsDeleted, inboxDeleted := 0, 0;
      if before.Some? {
        ghost var w := Everything();
        turnsDeleted := DeleteTurns(before.value, w.db);
        ghost var mid := Data();
        inboxDeleted := DeleteReceipts(before.value, guard, mid, w.cursors);
        Retention.CleanedInTwoSteps(w, before.value, guard, mid, Data());
      }
    }

    /** Their outputs and cards go with the turns. */
    method DeleteTurns(before: int, ghost db: Db) returns (deleted: nat)
      requires db == Data()
      modifies `turns, `outbox, `cards
      ensures Data() == Retention.WithoutTurns(db, Retention.GoneTurns(db, before))
      ensures deleted == |Removed(old(turns), turns)|
    {
      var gone := Retention.GoneTurns(Data(), before);
      TheseRemoved(turns, gone);
      turns := turns - gone;
      outbox := map o | o in outbox && outbox[o].identity.turn !in gone :: outbox[o];
      cards := map c | c in cards && cards[c].turn !in gone :: cards[c];
      return |gone|;
    }

    method DeleteReceipts(before: int, guard: int, ghost db: Db, ghost kept: map<Retention.CursorKey, Retention.Cursor>) returns (deleted: nat)
      requires db == Data() && kept == cursors
      modifies `inbox
      ensures Data() == Retention.WithoutReceipts(db, Retention.GoneReceipts(db, kept, before, guard))
      ensures deleted == |Removed(old(inbox), inbox)|
    {
      var gone := Retention.GoneReceipts(Data(), cursors, before, guard);
      TheseRemoved(inbox, gone);
      inbox := inbox - gone;
      return |gone|;
    }

    method DeleteCursors(before: Option<int>) returns (deleted: nat)
      modifies `cursors
      ensures cursors == Retention.CleanedCursors(old(cursors), before)
      ensures deleted == |Removed(old(cursors), cursors)|
    {
      if before == None {
        NothingRemoved(cursors);
        return 0;
      }
      var gone := set k | k in cursors && cursors[k].updatedAt < before.value;
      TheseRemoved(cursors, gone);
      cursors := cursors - gone;
      assert cursors == Retention.CleanedCursors(old(cursors), before);
      return |gone|;
    }
  }

  /** The keys that are gone. */
  function Removed<K, V>(before: map<K, V>, after: map<K, V>): set<K> {
    before.Keys - after.Keys
  }

  lemma NothingRemoved<K, V>(m: map<K, V>)
    ensures |Removed(m, m)| == 0
  {
    assert Removed(m, m) == {};
  }

  lemma TheseRemoved<K, V>(m: map<K, V>, gone: set<K>)
    requires gone <= m.Keys
    ensures Removed(m, m - gone) == gone
  {
  }
}
