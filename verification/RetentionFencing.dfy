/**
 * Lease fencing while retention deletes rows. A row's life runs from its
 * insertion to the cleanup that deletes it; within one life the claims of the
 * row are fenced as ever, and after it no claim writes anything.
 */
module RetentionFencing {
  import opened Options
  import opened LeaseFence
  import opened Retention
  import ChannelDb
  import Inbox = InboxTable
  import Turns = TurnTable
  import Outbox = OutboxTable

  predicate StoredRow(db: ChannelDb.Db, k: ChannelDb.Key) {
    match k
    case InboxRow(id) => id in db.inbox
    case TurnRow(id) => id in db.turns
    case OutboxRow(id) => id in db.outbox
  }

  /** The claim a statement hands out for a row. */
  function GrantOf(w: World, op: Op, k: ChannelDb.Key): Option<Claim> {
    if op.OnDb? then ChannelDb.GrantOf(w.db, op.op, k) else None
  }

  /** No cleanup of the run ends the life of row `k`. */
  ghost predicate NotDeleted(w: World, ops: seq<Op>, k: ChannelDb.Key) {
    forall n | 0 <= n < |ops| && ops[n].Cleanup? && StoredRow(Run(w, ops[..n]).db, k) :: StoredRow(Apply(Run(w, ops[..n]), ops[n]).db, k)
  }

  lemma StepConsistent(w: World, op: Op)
    requires ChannelDb.Consistent(w.db)
    ensures ChannelDb.Consistent(Apply(w, op).db)
  {
    if op.OnDb? {
      assert ChannelDb.Run(w.db, [op.op]) == ChannelDb.Apply(w.db, op.op) by {
        assert [op.op][..0] == [];
        assert ChannelDb.Run(w.db, []) == w.db;
      }
      ChannelDb.RunConsistent(w.db, [op.op]);
    }
  }

  lemma {:induction false} RunConsistent(w: World, ops: seq<Op>)
    requires ChannelDb.Consistent(w.db)
    ensures ChannelDb.Consistent(Run(w, ops).db)
    decreases |ops|
  {
    if ops != [] {
      RunConsistent(w, ops[..|ops| - 1]);
      StepConsistent(Run(w, ops[..|ops| - 1]), ops[|ops| - 1]);
    }
  }

  /** A cleanup that does not delete the row leaves its lease alone. */
  lemma CleanupKeepsView(w: World, op: Op, k: ChannelDb.Key)
    requires !op.OnDb? && (StoredRow(w.db, k) ==> StoredRow(Apply(w, op).db, k))
    ensures ChannelDb.ViewOf(Apply(w, op).db, k) == ChannelDb.ViewOf(w.db, k)
  {
  }

  lemma StepFenced(w: World, op: Op, k: ChannelDb.Key)
    requires ChannelDb.Consistent(w.db) && (op.Cleanup? && StoredRow(w.db, k) ==> StoredRow(Apply(w, op).db, k))
    ensures Fenced(ChannelDb.ViewOf(w.db, k), Moment(GrantOf(w, op, k), ChannelDb.ViewOf(Apply(w, op).db, k)))
  {
    if op.OnDb? {
      ChannelDb.StepFenced(w.db, op.op, k);
    } else {
      CleanupKeepsView(w, op, k);
    }
  }

  /** The lease history of one row along a run. */
  ghost function Trace(w: World, ops: seq<Op>, k: ChannelDb.Key): (h: seq<Moment>)
    ensures |h| == |ops|
    decreases |ops|
  {
    if ops == [] then []
    else
      var front := ops[..|ops| - 1];
      Trace(w, front, k) + [Moment(GrantOf(Run(w, front), ops[|ops| - 1], k), ChannelDb.ViewOf(Run(w, ops).db, k))]
  }

  lemma {:induction false} TraceAt(w: World, ops: seq<Op>, k: ChannelDb.Key, n: nat)
    requires n <= |ops|
    ensures ViewAt(ChannelDb.ViewOf(w.db, k), Trace(w, ops, k), n) == ChannelDb.ViewOf(Run(w, ops[..n]).db, k)
    ensures n < |ops| ==> Trace(w, ops, k)[n].grant == GrantOf(Run(w, ops[..n]), ops[n], k)
    decreases |ops|
  {
    if ops != [] {
      var front := ops[..|ops| - 1];
      if n < |ops| {
        assert front[..n] == ops[..n];
        TraceAt(w, front, k, n);
      } else {
        assert ops[..n] == ops;
      }
    }
  }

  lemma TraceFencedAt(w: World, ops: seq<Op>, k: ChannelDb.Key, i: nat)
    requires ChannelDb.Consistent(w.db) && NotDeleted(w, ops, k) && i < |ops|
    ensures FencedAt(ChannelDb.ViewOf(w.db, k), Trace(w, ops, k), i)
  {
    TraceAt(w, ops, k, i);
    TraceAt(w, ops, k, i + 1);
    RunConsistent(w, ops[..i]);
    assert ops[..i + 1][..i] == ops[..i];
    StepFenced(Run(w, ops[..i]), ops[i], k);
  }

  lemma TraceIsHistory(w: World, ops: seq<Op>, k: ChannelDb.Key)
    requires ChannelDb.Consistent(w.db) && NotDeleted(w, ops, k)
    ensures History(ChannelDb.ViewOf(w.db, k), Trace(w, ops, k))
  {
    forall i: nat | i < |ops| ensures FencedAt(ChannelDb.ViewOf(w.db, k), Trace(w, ops, k), i) {
      TraceFencedAt(w, ops, k, i);
    }
  }

  ghost predicate HandedOut(w: World, ops: seq<Op>, k: ChannelDb.Key, n: nat, c: Claim) {
    n < |ops| && GrantOf(Run(w, ops[..n]), ops[n], k) == Some(c)
  }

  ghost predicate CanWriteAfter(w: World, ops: seq<Op>, k: ChannelDb.Key, n: nat, c: Claim) {
    n <= |ops| && CanWrite(ChannelDb.ViewOf(Run(w, ops[..n]).db, k), c)
  }

  /** Within one life of a row, cleanups or not, at most one of all its claims can still write. */
  lemma OneWriterPerLife(w: World, ops: seq<Op>, k: ChannelDb.Key, n: nat, i: nat, j: nat, c: Claim, d: Claim)
    requires ChannelDb.Consistent(w.db) && NotDeleted(w, ops, k) && i < n && j < n
    requires HandedOut(w, ops, k, i, c) && CanWriteAfter(w, ops, k, n, c)
    requires HandedOut(w, ops, k, j, d) && CanWriteAfter(w, ops, k, n, d)
    ensures i == j && c == d
  {
    TraceIsHistory(w, ops, k);
    TraceAt(w, ops, k, i);
    TraceAt(w, ops, k, j);
    TraceAt(w, ops, k, n);
    OneWriter(ChannelDb.ViewOf(w.db, k), Trace(w, ops, k), n, i, j);
  }

  /** And a claim that lost the row has lost it for the rest of that life. */
  lemma LostForLife(w: World, ops: seq<Op>, k: ChannelDb.Key, i: nat, m: nat, n: nat, c: Claim)
    requires ChannelDb.Consistent(w.db) && NotDeleted(w, ops, k) && i < m <= n <= |ops|
    requires HandedOut(w, ops, k, i, c) && !CanWriteAfter(w, ops, k, m, c)
    ensures !CanWriteAfter(w, ops, k, n, c)
  {
    TraceIsHistory(w, ops, k);
    TraceAt(w, ops, k, i);
    TraceAt(w, ops, k, m);
    TraceAt(w, ops, k, n);
    NeverAgain(ChannelDb.ViewOf(w.db, k), Trace(w, ops, k), i, m, n);
  }

  /** A row somebody can still write is never deleted: a cleanup leaves its lease alone. */
  lemma HeldRowsAreKept(w: World, op: Op, k: ChannelDb.Key, c: Claim)
    requires ChannelDb.Consistent(w.db) && op.Cleanup? && CanWrite(ChannelDb.ViewOf(w.db, k), c)
    ensures StoredRow(Apply(w, op).db, k) && CanWrite(ChannelDb.ViewOf(Apply(w, op).db, k), c)
  {
    OpenWorkIsKept(w, op.recordsBefore, op.cursorsBefore, op.guard);
    CleanupKeepsView(w, op, k);
  }

  /** The statement that starts a new life of a row. */
  predicate Inserts(op: Op, k: ChannelDb.Key) {
    op.OnDb?
    && match (op.op, k)
       case (OnInbox(i), InboxRow(id)) => i.Insert? && i.id == id
       case (OnTurn(t), TurnRow(id)) => t.Insert? && t.id == id
       case (OnOutbox(o), OutboxRow(id)) => o.Insert? && o.id == id
       case _ => false
  }

  lemma StepStaysGone(w: World, op: Op, k: ChannelDb.Key)
    requires !StoredRow(w.db, k) && !Inserts(op, k)
    ensures !StoredRow(Apply(w, op).db, k)
  {
  }

  /** After its life no claim of a row can write, until the same id is inserted again. */
  lemma {:induction false} DeletedRowTakesNoWrite(w: World, ops: seq<Op>, k: ChannelDb.Key, c: Claim)
    requires !StoredRow(w.db, k) && forall n | 0 <= n < |ops| :: !Inserts(ops[n], k)
    ensures !StoredRow(Run(w, ops).db, k) && !CanWrite(ChannelDb.ViewOf(Run(w, ops).db, k), c)
    decreases |ops|
  {
    if ops != [] {
      DeletedRowTakesNoWrite(w, ops[..|ops| - 1], k, c);
      StepStaysGone(Run(w, ops[..|ops| - 1]), ops[|ops| - 1], k);
    }
  }
}
