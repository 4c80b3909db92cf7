/**
 * What a cleanup deletes apart from receipts, exactly, and how long a record
 * lasts: until a horizon lies after its last change.
 */
module RetentionHorizon {
  import opened Options
  import opened Retention
  import ChannelDb
  import RetentionFencing
  import Inbox = InboxTable
  import Turns = TurnTable
  import Outbox = OutboxTable
  import Cards = CardTable
  import Lex

  // ---- one cleanup ----

  /** Every output and every card of the turn has reached its end. */
  ghost predicate NothingLeftToDo(db: ChannelDb.Db, turn: string) {
    (forall o | o in db.outbox && db.outbox[o].identity.turn == turn ::
       db.outbox[o].status == Outbox.Delivered || db.outbox[o].status == Outbox.Failed || db.outbox[o].status == Outbox.Cancelled)
    && (forall c | c in db.cards && db.cards[c].turn == turn ::
          db.cards[c].status == Cards.Completed || db.cards[c].status == Cards.Aborted || db.cards[c].status == Cards.Failed)
  }

  predicate Closed(r: Turns.Row) {
    r.status == Turns.Completed || r.status == Turns.Failed || r.status == Turns.Interrupted || r.status == Turns.Cancelled
  }

  /** A turn goes exactly when it is closed, was last changed before the horizon, and nothing of it is left to do. */
  lemma TurnDeletedExactly(w: World, horizon: Option<int>, cursorsBefore: Option<int>, guard: int, t: string)
    requires t in w.db.turns
    ensures var u := Apply(w, Cleanup(horizon, cursorsBefore, guard)).db;
            (t !in u.turns <==> horizon.Some? && Closed(w.db.turns[t]) && w.db.turns[t].updatedAt < horizon.value && NothingLeftToDo(w.db, t))
            && (t in u.turns ==> u.turns[t] == w.db.turns[t])
  {
    if NothingLeftToDo(w.db, t) {
      assert !HasOpenRows(w.db, t);
    } else {
      assert HasOpenRows(w.db, t);
    }
  }

  /** Outputs and cards go exactly with their turn, and nothing in them changes. */
  lemma RowsGoWithTheirTurn(w: World, horizon: Option<int>, cursorsBefore: Option<int>, guard: int)
    ensures var u := Apply(w, Cleanup(horizon, cursorsBefore, guard)).db;
            (forall o :: o in u.outbox <==> o in w.db.outbox && !(w.db.outbox[o].identity.turn in w.db.turns && w.db.outbox[o].identity.turn !in u.turns))
            && (forall o | o in u.outbox :: u.outbox[o] == w.db.outbox[o])
            && (forall c :: c in u.cards <==> c in w.db.cards && !(w.db.cards[c].turn in w.db.turns && w.db.cards[c].turn !in u.turns))
            && (forall c | c in u.cards :: u.cards[c] == w.db.cards[c])
  {
  }

  /** Some backfill may read the message again: a cursor of its chat, or of its topic, stands no more than the guard after it. */
  predicate MayBeReadAgain(cursors: map<CursorKey, Cursor>, r: Inbox.Row, guard: int) {
    var chat := if r.identity.chat.Some? then r.identity.chat.value else "";
    exists k :: k in cursors && k.provider == r.identity.provider && k.account == r.identity.account && cursors[k].position <= r.createdAt + guard
                && (k.chat == chat || (r.identity.thread.Some? && k.chat == chat + "#thread:" + r.identity.thread.value))
  }

  lemma NeededIsReadAgain(cursors: map<CursorKey, Cursor>, r: Inbox.Row, guard: int)
    ensures Needed(cursors, r, guard) == MayBeReadAgain(cursors, r, guard)
  {
    if Needed(cursors, r, guard) {
      var k :| k in cursors && InWindow(k, cursors[k], r, guard);
      assert cursors[k].position <= r.createdAt + guard;
    }
    if MayBeReadAgain(cursors, r, guard) {
      var chat := if r.identity.chat.Some? then r.identity.chat.value else "";
      var k :| k in cursors && k.provider == r.identity.provider && k.account == r.identity.account && cursors[k].position <= r.createdAt + guard
               && (k.chat == chat || (r.identity.thread.Some? && k.chat == chat + "#thread:" + r.identity.thread.value));
      assert InWindow(k, cursors[k], r, guard);
    }
  }

  /** A receipt goes exactly when it is finished and old, no turn that stays links to it, and no backfill may read its message again. */
  lemma ReceiptDeletedExactly(w: World, horizon: Option<int>, cursorsBefore: Option<int>, guard: int, id: string)
    requires id in w.db.inbox
    ensures var u := Apply(w, Cleanup(horizon, cursorsBefore, guard)).db; var r := w.db.inbox[id];
            (id !in u.inbox <==> horizon.Some? && (r.status == Inbox.Processed || r.status == Inbox.Ignored || r.status == Inbox.Failed)
                                 && r.updatedAt < horizon.value && !Linked(u.turns, id) && !MayBeReadAgain(w.cursors, r, guard))
            && (id in u.inbox ==> u.inbox[id] == r)
  {
    NeededIsReadAgain(w.cursors, w.db.inbox[id], guard);
  }

  /** A cursor goes exactly when a horizon for cursors is given and it last moved before that. */
  lemma CursorDeletedExactly(w: World, horizon: Option<int>, cursorsBefore: Option<int>, guard: int, k: CursorKey)
    requires k in w.cursors
    ensures var u := Apply(w, Cleanup(horizon, cursorsBefore, guard)).cursors;
            (k !in u <==> cursorsBefore.Some? && w.cursors[k].updatedAt < cursorsBefore.value) && (k in u ==> u[k] == w.cursors[k])
  {
  }

  // ---- how long a record lasts ----

  /** Every cleanup of the run has its horizon at `at` or before. */
  predicate HorizonsUpTo(ops: seq<Op>, at: int) {
    forall n | 0 <= n < |ops| && ops[n].Cleanup? && ops[n].recordsBefore.Some? :: ops[n].recordsBefore.value <= at
  }

  lemma StepKeepsClosedTurn(w: World, op: Op, t: string)
    requires ChannelDb.Consistent(w.db) && t in w.db.turns && Closed(w.db.turns[t])
    requires op.Cleanup? && op.recordsBefore.Some? ==> op.recordsBefore.value <= w.db.turns[t].updatedAt
    ensures var u := Apply(w, op).db.turns; t in u && u[t] == w.db.turns[t].(inbox := u[t].inbox)
  {
    if op.OnDb? && op.op.OnTurn? {
      ChannelDb.TurnAfter(w.db, op.op.t, t);
      Turns.TerminalKept(w.db.turns[t], op.op.t, t, ChannelDb.EffectsOf(w.db, t));
    }
  }

  /** A closed turn is kept, with how it ended, until some cleanup has a horizon after the moment it was closed. */
  lemma {:induction false} ClosedTurnLasts(w: World, ops: seq<Op>, t: string)
    requires ChannelDb.Consistent(w.db) && t in w.db.turns && Closed(w.db.turns[t]) && HorizonsUpTo(ops, w.db.turns[t].updatedAt)
    ensures var u := Run(w, ops).db.turns; t in u && u[t] == w.db.turns[t].(inbox := u[t].inbox)
    decreases |ops|
  {
    if ops != [] {
      var front := ops[..|ops| - 1];
      forall n | 0 <= n < |front| && front[n].Cleanup? && front[n].recordsBefore.Some? ensures front[n].recordsBefore.value <= w.db.turns[t].updatedAt {
        assert front[n] == ops[n];
      }
      ClosedTurnLasts(w, front, t);
      RetentionFencing.RunConsistent(w, front);
      StepKeepsClosedTurn(Run(w, front), ops[|ops| - 1], t);
    }
  }

  /** The first horizon after that moment deletes it, unless work of it is left. */
  lemma OldTurnGoes(w: World, ops: seq<Op>, t: string, horizon: int, cursorsBefore: Option<int>, guard: int)
    requires ChannelDb.Consistent(w.db) && t in w.db.turns && Closed(w.db.turns[t]) && HorizonsUpTo(ops, w.db.turns[t].updatedAt)
    requires horizon > w.db.turns[t].updatedAt && NothingLeftToDo(Run(w, ops).db, t)
    ensures t !in Apply(Run(w, ops), Cleanup(Some(horizon), cursorsBefore, guard)).db.turns
  {
    ClosedTurnLasts(w, ops, t);
    TurnDeletedExactly(Run(w, ops), Some(horizon), cursorsBefore, guard, t);
  }

  // ---- moving a cursor ----

  /** A move lands exactly when it goes strictly up; it stores what it was given, keeps the creation time, and leaves the other cursors. */
  lemma AdvanceTakes(w: World, k: CursorKey, cursor: string, position: nat, tie: string, now: int)
    ensures var u := Apply(w, Advance(k, cursor, position, tie, now));
            u.db == w.db && u.cursors.Keys == w.cursors.Keys + {k} && (forall i | i in w.cursors && i != k :: u.cursors[i] == w.cursors[i])
            && if k !in w.cursors then u.cursors[k] == Cursor(cursor, position, tie, now, now)
               else if position > w.cursors[k].position || (position == w.cursors[k].position && Lex.Less(w.cursors[k].tie, tie)) then
                 u.cursors[k] == Cursor(cursor, position, tie, w.cursors[k].createdAt, now)
               else u.cursors[k] == w.cursors[k]
  {
  }

  /** Forgetting a cursor removes exactly it, and only while it stands where it was read. */
  lemma ForgottenExactly(w: World, k: CursorKey, position: nat, tie: string)
    ensures var u := Apply(w, DeleteCursor(k, position, tie));
            u.db == w.db && (forall i | i in w.cursors && i != k :: i in u.cursors && u.cursors[i] == w.cursors[i]) && u.cursors.Keys <= w.cursors.Keys
            && (k in w.cursors ==> (k !in u.cursors <==> w.cursors[k].position == position && w.cursors[k].tie == tie)
                                   && (k in u.cursors ==> u.cursors[k] == w.cursors[k]))
  {
  }

  /** A quiet cursor lasts until a horizon for cursors lies after its last move; every move that lands starts that time anew. */
  predicate CursorHorizonsUpTo(ops: seq<Op>, at: int) {
    forall n | 0 <= n < |ops| ::
      (ops[n].Cleanup? && ops[n].cursorsBefore.Some? ==> ops[n].cursorsBefore.value <= at)
      && (ops[n].Advance? ==> ops[n].now >= at)
  }

  lemma {:induction false} CursorLasts(w: World, ops: seq<Op>, k: CursorKey, at: int)
    requires k in w.cursors && w.cursors[k].updatedAt >= at && CursorHorizonsUpTo(ops, at)
    requires forall n | 0 <= n < |ops| :: !(ops[n].DeleteCursor? && ops[n].key == k)
    ensures k in Run(w, ops).cursors && Run(w, ops).cursors[k].updatedAt >= at
    decreases |ops|
  {
    if ops != [] {
      CursorLasts(w, ops[..|ops| - 1], k, at);
    }
  }
}
