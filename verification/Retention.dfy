/**
 * Cursors and retention. A transport re-reads everything after its cursor
 * (minus a guard) when it reconnects, so the receipts in that window are what
 * keeps an old message from being executed again. Cleanup must not delete them.
 */
module Retention {
  import opened Options
  import opened ChannelDb
  import Inbox = InboxTable
  import Turns = TurnTable
  import Outbox = OutboxTable
  import Cards = CardTable
  import Lex

  datatype CursorKey = CursorKey(provider: string, account: string, scope: string, chat: string)
  datatype Cursor = Cursor(cursor: string, position: nat, tie: string, createdAt: int, updatedAt: int)

  datatype World = World(db: Db, cursors: map<CursorKey, Cursor>)

  datatype Op =
    | OnDb(op: ChannelDb.Op)
    | Advance(key: CursorKey, cursor: string, position: nat, tie: string, now: int)
    | DeleteCursor(key: CursorKey, position: nat, tie: string)
    | Cleanup(recordsBefore: Option<int>, cursorsBefore: Option<int>, guard: int)

  // ---- cursors ----

  /** Strictly later in (position, tie-breaker) order. */
  predicate Later(position: nat, tie: string, c: Cursor) {
    position > c.position || (position == c.position && Lex.Less(c.tie, tie))
  }

  /** The upsert with its conditional update. */
  function Advanced(cursors: map<CursorKey, Cursor>, key: CursorKey, cursor: string, position: nat, tie: string, now: int): map<CursorKey, Cursor> {
    if key !in cursors then cursors[key := Cursor(cursor, position, tie, now, now)]
    else if Later(position, tie, cursors[key]) then
      cursors[key := cursors[key].(cursor := cursor, position := position, tie := tie, updatedAt := now)]
    else cursors
  }

  predicate Matches(cursors: map<CursorKey, Cursor>, key: CursorKey, position: nat, tie: string) {
    key in cursors && cursors[key].position == position && cursors[key].tie == tie
  }

  // ---- cleanup ----

  function Chat(x: Inbox.Identity): string {
    x.chat.OrElse("")
  }

  /** The cursor of the message's chat, or of its topic. */
  predicate Follows(key: CursorKey, x: Inbox.Identity) {
    key.provider == x.provider && key.account == x.account
    && (key.chat == Chat(x) || (x.thread.Some? && key.chat == Chat(x) + "#thread:" + x.thread.value))
  }

  /** The receipt lies in the window some backfill may read again. */
  predicate InWindow(key: CursorKey, c: Cursor, r: Inbox.Row, guard: int) {
    Follows(key, r.identity) && r.createdAt >= c.position - guard
  }

  predicate Needed(cursors: map<CursorKey, Cursor>, r: Inbox.Row, guard: int) {
    exists k :: k in cursors && InWindow(k, cursors[k], r, guard)
  }

  predicate HasOpenRows(db: Db, turn: string) {
    (exists o :: o in db.outbox && db.outbox[o].identity.turn == turn && !Outbox.Terminal(db.outbox[o].status))
    || (exists c :: c in db.cards && db.cards[c].turn == turn && !Cards.Terminal(db.cards[c].status))
  }

  function GoneTurns(db: Db, before: int): set<string> {
    set t | t in db.turns && Turns.Terminal(db.turns[t].status) && db.turns[t].updatedAt < before && !HasOpenRows(db, t)
  }

  /** Deleting turns cascades to their outputs and cards. */
  function WithoutTurns(db: Db, gone: set<string>): Db {
    db.(turns := db.turns - gone,
        outbox := map o | o in db.outbox && db.outbox[o].identity.turn !in gone :: db.outbox[o],
        cards := map c | c in db.cards && db.cards[c].turn !in gone :: db.cards[c])
  }

  predicate Linked(turns: Turns.Table, id: string) {
    exists t :: t in turns && turns[t].inbox == Some(id)
  }

  function GoneReceipts(db: Db, cursors: map<CursorKey, Cursor>, before: int, guard: int): set<string> {
    set id | id in db.inbox && Inbox.Terminal(db.inbox[id].status) && db.inbox[id].updatedAt < before
             && !Linked(db.turns, id) && !Needed(cursors, db.inbox[id], guard)
  }

  function WithoutReceipts(db: Db, gone: set<string>): Db {
    db.(inbox := db.inbox - gone)
  }

  function CleanedDb(w: World, recordsBefore: Option<int>, guard: int): Db {
    if recordsBefore == None then w.db
    else
      var db := WithoutTurns(w.db, GoneTurns(w.db, recordsBefore.value));
      WithoutReceipts(db, GoneReceipts(db, w.cursors, recordsBefore.value, guard))
  }

  lemma CleanedInTwoSteps(w: World, before: int, guard: int, mid: Db, after: Db)
    requires mid == WithoutTurns(w.db, GoneTurns(w.db, before))
    requires after == WithoutReceipts(mid, GoneReceipts(mid, w.cursors, before, guard))
    ensures CleanedDb(w, Some(before), guard) == after
  {
  }

  function CleanedCursors(cursors: map<CursorKey, Cursor>, before: Option<int>): map<CursorKey, Cursor> {
    if before == None then cursors
    else map k | k in cursors && cursors[k].updatedAt >= before.value :: cursors[k]
  }

  ghost function Apply(w: World, op: Op): World {
    match op
    case OnDb(o) => w.(db := ChannelDb.Apply(w.db, o))
    case Advance(k, c, p, t, now) => w.(cursors := Advanced(w.cursors, k, c, p, t, now))
    case DeleteCursor(k, p, t) => w.(cursors := if Matches(w.cursors, k, p, t) then w.cursors - {k} else w.cursors)
    case Cleanup(r, c, g) => World(CleanedDb(w, r, g), CleanedCursors(w.cursors, c))
  }

  ghost function Run(w: World, ops: seq<Op>): World
    decreases |ops|
  {
    if ops == [] then w else Apply(Run(w, ops[..|ops| - 1]), ops[|ops| - 1])
  }

  // ---- one cleanup ----

  /** What a cleanup deletes: an old finished receipt that no surviving turn links to and no cursor may read again. */
  ghost predicate Deletes(w: World, op: Op, id: string) {
    op.Cleanup? && op.recordsBefore.Some? && id in w.db.inbox
    && Inbox.Terminal(w.db.inbox[id].status) && w.db.inbox[id].updatedAt < op.recordsBefore.value
    && (forall t | t in w.db.turns && w.db.turns[t].inbox == Some(id) :: t in GoneTurns(w.db, op.recordsBefore.value))
    && (forall k | k in w.cursors :: !InWindow(k, w.cursors[k], w.db.inbox[id], op.guard))
  }

  /** A receipt leaves the table exactly when a cleanup deletes it; otherwise it stays the receipt of its message. */
  lemma DeletedExactly(w: World, op: Op, id: string)
    requires id in w.db.inbox
    ensures var u := Apply(w, op).db.inbox;
            (id !in u <==> Deletes(w, op, id))
            && (id in u ==> u[id].identity == w.db.inbox[id].identity && u[id].createdAt == w.db.inbox[id].createdAt)
  {
    match op
    case OnDb(o) => StatementKeepsReceipt(w.db, o, id);
    case Cleanup(before, _, guard) =>
      if before.Some? {
        SurvivingLinks(w.db, before.value, id);
      }
    case Advance(_, _, _, _, _) =>
    case DeleteCursor(_, _, _) =>
  }

  lemma SurvivingLinks(db: Db, before: int, id: string)
    ensures Linked(WithoutTurns(db, GoneTurns(db, before)).turns, id) <==>
            exists t :: t in db.turns && db.turns[t].inbox == Some(id) && t !in GoneTurns(db, before)
  {
    var left := WithoutTurns(db, GoneTurns(db, before)).turns;
    if t :| t in left && left[t].inbox == Some(id) {
      assert t in db.turns && db.turns[t].inbox == Some(id) && t !in GoneTurns(db, before);
    }
    if t :| t in db.turns && db.turns[t].inbox == Some(id) && t !in GoneTurns(db, before) {
      assert t in left && left[t].inbox == Some(id);
    }
  }

  lemma StatementKeepsReceipt(db: Db, op: ChannelDb.Op, id: string)
    requires id in db.inbox
    ensures var u := ChannelDb.Apply(db, op).inbox;
            id in u && u[id].identity == db.inbox[id].identity && u[id].createdAt == db.inbox[id].createdAt
  {
  }

  /** Cleanup never deletes a receipt in the window of a cursor of its chat or topic. */
  lemma WindowIsKept(w: World, recordsBefore: Option<int>, cursorsBefore: Option<int>, guard: int, id: string, k: CursorKey)
    requires id in w.db.inbox && k in w.cursors && InWindow(k, w.cursors[k], w.db.inbox[id], guard)
    ensures var u := Apply(w, Cleanup(recordsBefore, cursorsBefore, guard));
            id in u.db.inbox && u.db.inbox[id] == w.db.inbox[id]
  {
  }

  /** Nothing unfinished is deleted: open turns, unsettled outputs and open cards survive, and so do the turns they belong to. */
  lemma OpenWorkIsKept(w: World, recordsBefore: Option<int>, cursorsBefore: Option<int>, guard: int)
    ensures var u := Apply(w, Cleanup(recordsBefore, cursorsBefore, guard));
            (forall t | t in w.db.turns && (!Turns.Terminal(w.db.turns[t].status) || HasOpenRows(w.db, t)) ::
               t in u.db.turns && u.db.turns[t] == w.db.turns[t])
            && (forall o | o in w.db.outbox && !Outbox.Terminal(w.db.outbox[o].status) :: o in u.db.outbox && u.db.outbox[o] == w.db.outbox[o])
            && (forall c | c in w.db.cards && !Cards.Terminal(w.db.cards[c].status) :: c in u.db.cards && u.db.cards[c] == w.db.cards[c])
            && (forall id | id in w.db.inbox && !Inbox.Terminal(w.db.inbox[id].status) :: id in u.db.inbox)
  {
  }

  // ---- cursors over a run ----

  /** The cursor is there before and after every statement of the run. */
  ghost predicate Stays(w: World, ops: seq<Op>, k: CursorKey) {
    forall n | 0 <= n <= |ops| :: k in Run(w, ops[..n]).cursors
  }

  predicate NotBelow(c: Cursor, d: Cursor) {
    d.position > c.position || (d.position == c.position && (d.tie == c.tie || Lex.Less(c.tie, d.tie)))
  }

  lemma StaysPrefix(w: World, ops: seq<Op>, k: CursorKey)
    requires ops != [] && Stays(w, ops, k)
    ensures Stays(w, ops[..|ops| - 1], k) && k in Run(w, ops[..|ops| - 1]).cursors && k in Run(w, ops).cursors
  {
    var front := ops[..|ops| - 1];
    forall n | 0 <= n <= |front| ensures k in Run(w, front[..n]).cursors {
      assert front[..n] == ops[..n];
    }
    assert front[..|front|] == front && ops[..|ops|] == ops;
  }

  lemma StepNotBelow(w: World, op: Op, k: CursorKey)
    requires k in w.cursors && k in Apply(w, op).cursors
    ensures NotBelow(w.cursors[k], Apply(w, op).cursors[k])
  {
  }

  lemma NotBelowIsTransitive(c: Cursor, d: Cursor, e: Cursor)
    requires NotBelow(c, d) && NotBelow(d, e)
    ensures NotBelow(c, e)
  {
    if c.tie != d.tie && d.tie != e.tie && Lex.Less(c.tie, d.tie) && Lex.Less(d.tie, e.tie) {
      Lex.Transitive(c.tie, d.tie, e.tie);
    }
  }

  /** While it is not deleted a cursor only moves up in (position, tie-breaker) order. */
  lemma {:induction false} CursorsOnlyMoveUp(w: World, ops: seq<Op>, k: CursorKey)
    requires k in w.cursors && Stays(w, ops, k)
    ensures k in Run(w, ops).cursors && NotBelow(w.cursors[k], Run(w, ops).cursors[k])
    decreases |ops|
  {
    if ops != [] {
      var front := ops[..|ops| - 1];
      StaysPrefix(w, ops, k);
      CursorsOnlyMoveUp(w, front, k);
      StepNotBelow(Run(w, front), ops[|ops| - 1], k);
      NotBelowIsTransitive(w.cursors[k], Run(w, front).cursors[k], Run(w, ops).cursors[k]);
    }
  }

  // ---- deduplication over a run ----

  ghost predicate ConstantGuard(ops: seq<Op>, guard: int) {
    forall n | 0 <= n < |ops| :: ops[n].Cleanup? ==> ops[n].guard == guard
  }

  /** No cleanup of the run deletes the receipt. */
  ghost predicate Spared(w: World, ops: seq<Op>, id: string) {
    forall n | 0 <= n < |ops| :: !Deletes(Run(w, ops[..n]), ops[n], id)
  }

  /** The receipt is there before and after every statement of the run. */
  ghost predicate Survives(w: World, ops: seq<Op>, id: string) {
    forall n | 0 <= n <= |ops| :: id in Run(w, ops[..n]).db.inbox
  }

  lemma SparedFront(w: World, ops: seq<Op>, id: string)
    requires ops != [] && Spared(w, ops, id)
    ensures Spared(w, ops[..|ops| - 1], id) && !Deletes(Run(w, ops[..|ops| - 1]), ops[|ops| - 1], id)
  {
    var front := ops[..|ops| - 1];
    forall n | 0 <= n < |front| ensures !Deletes(Run(w, front[..n]), front[n], id) {
      assert front[..n] == ops[..n] && front[n] == ops[n];
    }
  }

  lemma {:induction false} SparedReceipt(w: World, ops: seq<Op>, id: string)
    requires id in w.db.inbox && Spared(w, ops, id)
    ensures var u := Run(w, ops).db.inbox;
            id in u && u[id].identity == w.db.inbox[id].identity && u[id].createdAt == w.db.inbox[id].createdAt
    decreases |ops|
  {
    if ops != [] {
      SparedFront(w, ops, id);
      SparedReceipt(w, ops[..|ops| - 1], id);
      DeletedExactly(Run(w, ops[..|ops| - 1]), ops[|ops| - 1], id);
    }
  }

  /** A receipt survives a run exactly when every cleanup of the run spares it. */
  lemma SurvivesExactlyWhenSpared(w: World, ops: seq<Op>, id: string)
    requires id in w.db.inbox
    ensures Survives(w, ops, id) <==> Spared(w, ops, id)
  {
    if Spared(w, ops, id) {
      forall n | 0 <= n <= |ops| ensures id in Run(w, ops[..n]).db.inbox {
        forall k | 0 <= k < n ensures !Deletes(Run(w, ops[..n][..k]), ops[..n][k], id) {
          assert ops[..n][..k] == ops[..k];
        }
        SparedReceipt(w, ops[..n], id);
      }
    }
    if Survives(w, ops, id) {
      forall n | 0 <= n < |ops| ensures !Deletes(Run(w, ops[..n]), ops[n], id) {
        assert ops[..n + 1][..n] == ops[..n] && ops[..n + 1][n] == ops[n];
        assert id in Run(w, ops[..n]).db.inbox && id in Run(w, ops[..n + 1]).db.inbox;
        DeletedExactly(Run(w, ops[..n]), ops[n], id);
      }
    }
  }

  /** `recordChannelInbox` reports `created`. */
  predicate Created(w: World, x: Inbox.Identity) {
    forall o | o in w.db.inbox :: !Inbox.SameMessage(w.db.inbox[o].identity, x)
  }

  /** A statement that records the message again. */
  predicate Records(op: Op, x: Inbox.Identity) {
    op.OnDb? && op.op.OnInbox? && op.op.i.Insert? && Inbox.SameMessage(op.op.i.identity, x)
  }

  /** The receipt `id` is the only one of the message. */
  predicate OnlyReceipt(w: World, id: string, x: Inbox.Identity) {
    forall o | o in w.db.inbox && Inbox.SameMessage(w.db.inbox[o].identity, x) :: o == id
  }

  lemma WhereReceiptsComeFrom(w: World, op: Op, o: string)
    requires o in Apply(w, op).db.inbox
    ensures var x := Apply(w, op).db.inbox[o].identity;
            (o in w.db.inbox && w.db.inbox[o].identity == x) || (op.OnDb? && op.op.OnInbox? && op.op.i.Insert? && op.op.i.identity == x)
  {
    if op.OnDb? && o in w.db.inbox {
      StatementKeepsReceipt(w.db, op.op, o);
    }
  }

  /** The receipts of the message, of which there are none but `id`, do not come back. */
  lemma StepOnlyReceipt(w: World, op: Op, id: string, x: Inbox.Identity)
    requires OnlyReceipt(w, id, x) && !Records(op, x)
    ensures OnlyReceipt(Apply(w, op), id, x) && (Created(w, x) ==> Created(Apply(w, op), x))
  {
    forall o | o in Apply(w, op).db.inbox && Inbox.SameMessage(Apply(w, op).db.inbox[o].identity, x)
      ensures o in w.db.inbox && Inbox.SameMessage(w.db.inbox[o].identity, x)
    {
      WhereReceiptsComeFrom(w, op, o);
    }
  }

  /** Without a new recording the message stays known exactly as long as its receipt is spared. */
  lemma {:induction false} KnownWhileSpared(w: World, ops: seq<Op>, id: string, x: Inbox.Identity)
    requires id in w.db.inbox && Inbox.SameMessage(w.db.inbox[id].identity, x) && OnlyReceipt(w, id, x)
    requires forall n | 0 <= n < |ops| :: !Records(ops[n], x)
    ensures OnlyReceipt(Run(w, ops), id, x) && (Created(Run(w, ops), x) <==> !Spared(w, ops, id))
    decreases |ops|
  {
    if ops == [] {
      assert !Created(w, x);
    } else {
      var front, last := ops[..|ops| - 1], ops[|ops| - 1];
      var before := Run(w, front);
      KnownWhileSpared(w, front, id, x);
      StepOnlyReceipt(before, last, id, x);
      if Spared(w, front, id) {
        SparedReceipt(w, front, id);
        DeletedExactly(before, last, id);
        SparedLast(w, ops, id);
      } else if Spared(w, ops, id) {
        SparedFront(w, ops, id);
      }
    }
  }

  lemma SparedLast(w: World, ops: seq<Op>, id: string)
    requires ops != [] && Spared(w, ops[..|ops| - 1], id)
    ensures Spared(w, ops, id) <==> !Deletes(Run(w, ops[..|ops| - 1]), ops[|ops| - 1], id)
  {
    var front := ops[..|ops| - 1];
    if !Deletes(Run(w, front), ops[|ops| - 1], id) {
      forall n | 0 <= n < |ops| ensures !Deletes(Run(w, ops[..n]), ops[n], id) {
        if n < |front| {
          assert front[..n] == ops[..n] && front[n] == ops[n];
        } else {
          assert ops[..n] == front;
        }
      }
    }
  }

  /**
   * Deduplication and retention, exactly: a message that is not recorded anew
   * in the meantime counts as new at the end of a run exactly when some cleanup
   * of the run deleted its receipt, that is: finished, old, linked by no turn
   * that stays, and outside the window of every cursor stored at that cleanup.
   */
  lemma CountsAsNewExactlyWhen(w: World, ops: seq<Op>, id: string, x: Inbox.Identity)
    requires id in w.db.inbox && Inbox.SameMessage(w.db.inbox[id].identity, x) && OnlyReceipt(w, id, x)
    requires forall n | 0 <= n < |ops| :: !Records(ops[n], x)
    ensures Created(Run(w, ops), x) <==> exists n :: 0 <= n < |ops| && Deletes(Run(w, ops[..n]), ops[n], id)
  {
    KnownWhileSpared(w, ops, id, x);
  }

  /** At each cleanup of the run some cursor, not always the same, has the message in its window. */
  ghost predicate CoveredAtCleanups(w: World, ops: seq<Op>, x: Inbox.Identity, createdAt: int) {
    forall n | 0 <= n < |ops| && ops[n].Cleanup? :: CoveredAt(Run(w, ops[..n]), x, createdAt, ops[n].guard)
  }

  predicate CoveredAt(w: World, x: Inbox.Identity, createdAt: int, guard: int) {
    exists k :: k in w.cursors && Covers(k, w.cursors[k], x, createdAt, guard)
  }

  predicate Covers(k: CursorKey, c: Cursor, x: Inbox.Identity, createdAt: int, guard: int) {
    Follows(k, x) && createdAt >= c.position - guard
  }

  lemma {:induction false} CoveredIsSpared(w: World, ops: seq<Op>, id: string)
    requires id in w.db.inbox && CoveredAtCleanups(w, ops, w.db.inbox[id].identity, w.db.inbox[id].createdAt)
    ensures Spared(w, ops, id)
    decreases |ops|
  {
    if ops != [] {
      var front, last := ops[..|ops| - 1], ops[|ops| - 1];
      forall n | 0 <= n < |front| && front[n].Cleanup?
        ensures CoveredAt(Run(w, front[..n]), w.db.inbox[id].identity, w.db.inbox[id].createdAt, front[n].guard)
      {
        assert front[..n] == ops[..n] && front[n] == ops[n];
      }
      CoveredIsSpared(w, front, id);
      SparedReceipt(w, front, id);
      if last.Cleanup? {
        var k :| k in Run(w, front).cursors
                 && Covers(k, Run(w, front).cursors[k], w.db.inbox[id].identity, w.db.inbox[id].createdAt, last.guard);
        assert InWindow(k, Run(w, front).cursors[k], Run(w, front).db.inbox[id], last.guard);
      }
      SparedLast(w, ops, id);
    }
  }

  /**
   * Deduplication outlives retention: a message that some cursor of its chat or
   * topic has in its window at every cleanup is recognised, whatever is
   * recorded, advanced, deleted and set again between the cleanups.
   */
  lemma ReplayedMessageIsKnown(w: World, ops: seq<Op>, id: string, x: Inbox.Identity)
    requires id in w.db.inbox && Inbox.SameMessage(w.db.inbox[id].identity, x)
    requires CoveredAtCleanups(w, ops, w.db.inbox[id].identity, w.db.inbox[id].createdAt)
    ensures !Created(Run(w, ops), x)
  {
    CoveredIsSpared(w, ops, id);
    SparedReceipt(w, ops, id);
  }

  /** The cursor is stored at every cleanup of the run, and not above where it is at the end. */
  ghost predicate AtEveryCleanup(w: World, ops: seq<Op>, k: CursorKey) {
    k in Run(w, ops).cursors
    && forall n | 0 <= n < |ops| && ops[n].Cleanup? ::
         k in Run(w, ops[..n]).cursors && Run(w, ops[..n]).cursors[k].position <= Run(w, ops).cursors[k].position
  }

  /** So one cursor that is there at every cleanup and ends no lower keeps its whole backfill window known. */
  lemma WindowOfCursorIsKnown(w: World, ops: seq<Op>, id: string, k: CursorKey, guard: int, x: Inbox.Identity)
    requires id in w.db.inbox && Inbox.SameMessage(w.db.inbox[id].identity, x) && ConstantGuard(ops, guard)
    requires AtEveryCleanup(w, ops, k) && InWindow(k, Run(w, ops).cursors[k], w.db.inbox[id], guard)
    ensures !Created(Run(w, ops), x)
  {
    forall n | 0 <= n < |ops| && ops[n].Cleanup?
      ensures CoveredAt(Run(w, ops[..n]), w.db.inbox[id].identity, w.db.inbox[id].createdAt, ops[n].guard)
    {
      assert Covers(k, Run(w, ops[..n]).cursors[k], w.db.inbox[id].identity, w.db.inbox[id].createdAt, ops[n].guard);
    }
    ReplayedMessageIsKnown(w, ops, id, x);
  }

  lemma {:induction false} StaysBetween(w: World, ops: seq<Op>, k: CursorKey, n: nat)
    requires k in w.cursors && Stays(w, ops, k) && n <= |ops|
    ensures k in Run(w, ops[..n]).cursors && k in Run(w, ops).cursors && NotBelow(Run(w, ops[..n]).cursors[k], Run(w, ops).cursors[k])
    decreases |ops|
  {
    if n == |ops| {
      assert ops[..n] == ops;
    } else {
      var front := ops[..|ops| - 1];
      StaysPrefix(w, ops, k);
      StaysBetween(w, front, k, n);
      assert front[..n] == ops[..n];
      StepNotBelow(Run(w, front), ops[|ops| - 1], k);
      NotBelowIsTransitive(Run(w, ops[..n]).cursors[k], Run(w, front).cursors[k], Run(w, ops).cursors[k]);
    }
  }

  /** A cursor nobody deletes is such a cursor. */
  lemma StayingCursorServes(w: World, ops: seq<Op>, k: CursorKey)
    requires k in w.cursors && Stays(w, ops, k)
    ensures AtEveryCleanup(w, ops, k)
  {
    StaysBetween(w, ops, k, 0);
    forall n | 0 <= n < |ops| && ops[n].Cleanup?
      ensures k in Run(w, ops[..n]).cursors && Run(w, ops[..n]).cursors[k].position <= Run(w, ops).cursors[k].position
    {
      StaysBetween(w, ops, k, n);
    }
  }

  // ---- the limit of that guarantee ----

  const MESSAGE := Inbox.Identity("feishu", "main", "m1", "feishu:c", Some("c"), None)
  const KEY := CursorKey("feishu", "main", "backfill", "c")

  ghost function Before(): World {
    World(Db(map["r" := Inbox.Fresh(MESSAGE, Inbox.Received, 1_000, 1_000).(status := Inbox.Processed)], map[], map[], map[]),
          map[KEY := Cursor("p", 5_000, "", 0, 0)])
  }

  ghost function Reset(): seq<Op> {
    [Cleanup(Some(2_000), None, 100), DeleteCursor(KEY, 5_000, ""), Advance(KEY, "q", 1_000, "", 6_000)]
  }

  lemma RunThree(w: World, a: Op, b: Op, c: Op)
    ensures Run(w, [a, b, c]) == Apply(Apply(Apply(w, a), b), c)
  {
    var s := [a, b, c];
    assert s[..|s| - 1] == [a, b];
    assert [a, b][..|[a, b]| - 1] == [a];
    assert [a][..|[a]| - 1] == [];
    assert Run(w, []) == w;
    assert Run(w, [a]) == Apply(w, a);
    assert Run(w, [a, b]) == Apply(Apply(w, a), b);
  }

  /** A cursor deleted and set again at a lower position opens a window whose receipts are gone: the same message counts as new. */
  lemma DeletedCursorReopensTheWindow()
    ensures !Created(Before(), MESSAGE) && ConstantGuard(Reset(), 100)
    ensures var u := Run(Before(), Reset());
            KEY in u.cursors && Follows(KEY, MESSAGE)
            && Before().db.inbox["r"].createdAt >= u.cursors[KEY].position - 100 && Created(u, MESSAGE)
  {
    var w := Before();
    assert "r" in w.db.inbox;
    var a := Apply(w, Reset()[0]);
    assert !Needed(w.cursors, w.db.inbox["r"], 100);
    assert "r" !in a.db.inbox;
    assert a.db.inbox == map[];
    var b := Apply(a, Reset()[1]);
    assert KEY !in b.cursors;
    var c := Apply(b, Reset()[2]);
    assert c.cursors[KEY].position == 1_000;
    RunThree(w, Reset()[0], Reset()[1], Reset()[2]);
    assert Run(w, Reset()) == c;
    assert KEY in c.cursors;
    assert Follows(KEY, MESSAGE);
    assert Created(c, MESSAGE);
  }
}
