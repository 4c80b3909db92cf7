/**
 * The `channel_outbox` table: one row per physical channel output. Each
 * statement is a compare-and-set on one row (or on every row that matches), so
 * a row function answers None when its `WHERE` does not match.
 */
module OutboxTable {
  import opened Options
  import opened LeaseFence

  datatype Kind = Text | Image | File | Card | Mutation

  datatype Status =
    | Pending | Claimed | RetryWait | Uploading | Uploaded | Sending
    | Delivered | Uncertain | Failed | Cancelled

  /** The columns fixed when the row is inserted. */
  datatype Identity = Identity(
    turn: string, ordinal: nat, kind: Kind, key: string, hash: string,
    provider: string, account: string, source: string)

  datatype Row = Row(
    identity: Identity, status: Status,
    messageId: Option<string>, uploadKey: Option<string>,
    availableAt: int, owner: Option<string>, token: nat, expires: Option<int>,
    attempt: nat, revision: nat, error: Option<string>,
    createdAt: int, updatedAt: int, deliveredAt: Option<int>)

  type Table = map<string, Row>

  predicate Leased(s: Status) {
    s in {Claimed, Uploading, Uploaded, Sending}
  }

  /** The statuses that keep a turn from completing. */
  predicate Unsettled(s: Status) {
    s in {Pending, Claimed, RetryWait, Uploading, Uploaded, Sending, Uncertain}
  }

  predicate Terminal(s: Status) {
    s in {Delivered, Failed, Cancelled}
  }

  function ViewOf(r: Row): View {
    View(r.token, if Leased(r.status) then r.owner else None)
  }

  function ViewIn(t: Table, id: string): View {
    if id in t then ViewOf(t[id]) else View(0, None)
  }

  /** An owner and an expiry exactly in the leased statuses. */
  predicate LeaseShape(r: Row) {
    Leased(r.status) == r.owner.Some? && r.owner.Some? == r.expires.Some?
  }

  /** The test `lease_owner = ? AND lease_token = ? AND lease_expires_at > ?`. */
  predicate Held(r: Row, c: Claim, now: int) {
    r.owner == Some(c.owner) && r.token == c.token && r.expires.Some? && r.expires.value > now
  }

  // ---- enqueue ----

  function Fresh(identity: Identity, availableAt: int, now: int): Row {
    Row(identity, Pending, None, None, availableAt, None, 0, None, 0, 0, None, now, now, None)
  }

  /** The unique constraints: primary key, idempotency key, (turn, ordinal). */
  predicate Insertable(t: Table, id: string, x: Identity) {
    id !in t
    && forall o | o in t ::
         t[o].identity.key != x.key && !(t[o].identity.turn == x.turn && t[o].identity.ordinal == x.ordinal)
  }

  ghost predicate UniqueKeys(t: Table) {
    forall a, b | a in t && b in t ::
      (t[a].identity.key == t[b].identity.key
       || (t[a].identity.turn == t[b].identity.turn && t[a].identity.ordinal == t[b].identity.ordinal))
      ==> a == b
  }

  /** INSERT OR IGNORE. */
  ghost function Enqueue(t: Table, id: string, x: Identity, availableAt: int, now: int): Table {
    if Insertable(t, id, x) then t[id := Fresh(x, availableAt, now)] else t
  }

  /** The columns a repeated enqueue must agree on; the provider is not among them. */
  predicate SameRequest(x: Identity, y: Identity) {
    x.key == y.key && x.hash == y.hash && x.turn == y.turn && x.ordinal == y.ordinal
    && x.kind == y.kind && x.source == y.source && x.account == y.account
  }

  // ---- lease ----

  function ClaimRow(r: Row, owner: string, leaseMs: int, now: int): Option<Row> {
    if leaseMs > 0 && r.status in {Pending, RetryWait} && r.availableAt <= now && r.owner == None then
      Some(r.(status := Claimed, owner := Some(owner), token := r.token + 1, expires := Some(now + leaseMs),
              attempt := r.attempt + 1, revision := r.revision + 1, updatedAt := now))
    else None
  }

  /** The three fenced status moves of `transitionClaimedOutbox`. */
  datatype Mark = MarkUploading | MarkUploaded(key: string) | MarkSending

  predicate MarkFrom(m: Mark, s: Status) {
    match m
    case MarkUploading => s == Claimed
    case MarkUploaded(_) => s in {Claimed, Uploading}
    case MarkSending => s in {Claimed, Uploaded}
  }

  function MarkTo(m: Mark): Status {
    match m
    case MarkUploading => Uploading
    case MarkUploaded(_) => Uploaded
    case MarkSending => Sending
  }

  function MarkRow(r: Row, c: Claim, m: Mark, now: int): Option<Row> {
    if MarkFrom(m, r.status) && Held(r, c, now) then
      Some(r.(status := MarkTo(m), uploadKey := if m.MarkUploaded? then Some(m.key) else r.uploadKey,
              error := None, revision := r.revision + 1, updatedAt := now))
    else None
  }

  function CompleteRow(r: Row, c: Claim, messageId: string, now: int): Option<Row> {
    if r.status in {Claimed, Uploaded, Sending} && Held(r, c, now) then
      Some(r.(status := Delivered, messageId := Some(messageId), deliveredAt := Some(now), owner := None,
              expires := None, error := None, revision := r.revision + 1, updatedAt := now))
    else None
  }

  function FailRow(r: Row, c: Claim, error: string, retryAt: Option<int>, uncertain: bool, now: int): Option<Row> {
    if Leased(r.status) && Held(r, c, now) then
      Some(r.(status := if uncertain then Uncertain else if retryAt.Some? then RetryWait else Failed,
              error := Some(error), availableAt := retryAt.OrElse(r.availableAt), owner := None,
              expires := None, revision := r.revision + 1, updatedAt := now))
    else None
  }

  // ---- reconciliation ----

  const PRE_SEND_EXPIRED := "Delivery worker lease expired before send"
  const SEND_EXPIRED := "Delivery lease expired after send began; reconcile provider receipt before retry"

  predicate Expired(r: Row, now: int) {
    r.expires.Some? && r.expires.value <= now
  }

  function ReconcileRow(r: Row, now: int): Row {
    if !Expired(r, now) || !Leased(r.status) then r
    else
      var freed := r.(owner := None, expires := None, token := r.token + 1, revision := r.revision + 1, updatedAt := now);
      if r.status == Sending then freed.(status := Uncertain, error := Some(r.error.OrElse(SEND_EXPIRED)))
      else freed.(status := RetryWait, availableAt := now, error := Some(r.error.OrElse(PRE_SEND_EXPIRED)))
  }

  /** The rows the two reconciling updates match. */
  function Retryable(t: Table, now: int): set<string> {
    set id | id in t && Expired(t[id], now) && Leased(t[id].status) && t[id].status != Sending
  }

  function Stuck(t: Table, now: int): set<string> {
    set id | id in t && Expired(t[id], now) && t[id].status == Sending
  }

  /** The table with the rows in `done` reconciled. */
  function Reconciled(t: Table, done: set<string>, now: int): Table {
    map id | id in t :: if id in done then ReconcileRow(t[id], now) else t[id]
  }

  datatype Resolution = AsDelivered(messageId: string) | AsFailed(error: string)

  function ResolveRow(r: Row, expectedRevision: nat, how: Resolution, now: int): Option<Row> {
    if r.status == Uncertain && r.revision == expectedRevision then
      Some(match how
           case AsDelivered(m) => r.(status := Delivered, messageId := Some(m), deliveredAt := Some(now), error := None,
                                     revision := r.revision + 1, updatedAt := now)
           case AsFailed(e) => r.(status := Failed, deliveredAt := None, error := Some(e),
                                  revision := r.revision + 1, updatedAt := now))
    else None
  }

  /** `markFeishuCapacityReplacementDelivered`: a failed parent retired once its replacement pages are out. */
  function RetireRow(r: Row, marker: string, now: int): Option<Row> {
    if r.status == Failed then
      Some(r.(status := Cancelled, error := Some(marker), revision := r.revision + 1, updatedAt := now))
    else None
  }

  // ---- statements on the table ----

  datatype Op =
    | Insert(id: string, identity: Identity, availableAt: int, now: int)
    | ClaimOp(id: string, owner: string, leaseMs: int, now: int)
    | MarkOp(id: string, claim: Claim, mark: Mark, now: int)
    | CompleteOp(id: string, claim: Claim, messageId: string, now: int)
    | FailOp(id: string, claim: Claim, error: string, retryAt: Option<int>, uncertain: bool, now: int)
    | ReconcileOp(now: int)
    | ResolveOp(id: string, revision: nat, how: Resolution, now: int)
    | RetireOp(id: string, marker: string, now: int)

  function Put(t: Table, id: string, r: Option<Row>): Table {
    if r.Some? then t[id := r.value] else t
  }

  /** What a one-row statement writes to row `id`; None when it does not name or match it. */
  function RowWrite(t: Table, op: Op, id: string): Option<Row>
    requires id in t
  {
    match op
    case ClaimOp(i, o, ms, now) => if i == id then ClaimRow(t[id], o, ms, now) else None
    case MarkOp(i, c, m, now) => if i == id then MarkRow(t[id], c, m, now) else None
    case CompleteOp(i, c, m, now) => if i == id then CompleteRow(t[id], c, m, now) else None
    case FailOp(i, c, e, at, u, now) => if i == id then FailRow(t[id], c, e, at, u, now) else None
    case ReconcileOp(now) => Some(ReconcileRow(t[id], now))
    case ResolveOp(i, v, h, now) => if i == id then ResolveRow(t[id], v, h, now) else None
    case RetireOp(i, m, now) => if i == id then RetireRow(t[id], m, now) else None
    case Insert(_, _, _, _) => None
  }

  function RowAfter(t: Table, op: Op, id: string): Row
    requires id in t
  {
    RowWrite(t, op, id).OrElse(t[id])
  }

  ghost function Apply(t: Table, op: Op): Table {
    match op
    case Insert(id, x, at, now) => Enqueue(t, id, x, at, now)
    case _ => map id | id in t :: RowAfter(t, op, id)
  }

  /** The claim a statement hands out for row `id`. */
  function GrantOf(t: Table, op: Op, id: string): Option<Claim> {
    match op
    case ClaimOp(i, o, ms, now) =>
      if i == id && id in t && ClaimRow(t[id], o, ms, now).Some? then Some(Claim(o, t[id].token + 1)) else None
    case _ => None
  }

  lemma ApplyAt(t: Table, op: Op, id: string)
    requires id in t
    ensures id in Apply(t, op) && Apply(t, op)[id] == RowAfter(t, op, id)
  {
  }

  /** A statement that names one row is a compare-and-set on that row. */
  lemma OneRow(t: Table, op: Op, id: string)
    requires !op.Insert? && !op.ReconcileOp? && op.id == id
    ensures Apply(t, op) == if id in t then Put(t, id, RowWrite(t, op, id)) else t
  {
  }

  /** Reconciling the matching rows one after another is the statement on the whole table. */
  lemma ReconciledIsApply(t: Table, now: int)
    ensures Reconciled(t, Retryable(t, now) + Stuck(t, now), now) == Apply(t, ReconcileOp(now))
  {
  }

  lemma ReconcileNext(t: Table, done: set<string>, id: string, now: int)
    requires id in t && id !in done
    ensures Reconciled(t, done, now)[id] == t[id]
    ensures Reconciled(t, done, now)[id := ReconcileRow(t[id], now)] == Reconciled(t, done + {id}, now)
  {
  }

  /** Every statement keeps the unique constraints and never rewrites an identity or removes a row. */
  lemma {:induction false} IdentityIsForever(t: Table, op: Op)
    requires UniqueKeys(t)
    ensures UniqueKeys(Apply(t, op))
    ensures forall id | id in t :: id in Apply(t, op) && Apply(t, op)[id].identity == t[id].identity
    ensures forall id | id in Apply(t, op) && id !in t :: Apply(t, op)[id].status == Pending && Apply(t, op)[id].token == 0
  {
    var u := Apply(t, op);
    forall id | id in t ensures id in u && u[id].identity == t[id].identity {
      ApplyAt(t, op, id);
    }
  }

  lemma LeaseShapeKept(t: Table, op: Op, id: string)
    requires id in t && LeaseShape(t[id])
    ensures LeaseShape(RowAfter(t, op, id))
  {
  }

  /** The lease discipline of the outbox, statement by statement. */
  lemma RowFenced(t: Table, op: Op, id: string)
    requires id in t ==> LeaseShape(t[id])
    ensures Fenced(ViewIn(t, id), Moment(GrantOf(t, op, id), ViewIn(Apply(t, op), id)))
  {
  }

  /** A fenced write only ever succeeds for the claim that can write, whatever `now` its holder passes. */
  lemma WriteNeedsClaim(r: Row, c: Claim, now: int, m: Mark, s: string, at: Option<int>, u: bool)
    ensures MarkRow(r, c, m, now).Some? ==> CanWrite(ViewOf(r), c)
    ensures CompleteRow(r, c, s, now).Some? ==> CanWrite(ViewOf(r), c)
    ensures FailRow(r, c, s, at, u, now).Some? ==> CanWrite(ViewOf(r), c)
  {
  }

  /** Conversely a claim that can write has a clock value at which its failure write lands. */
  lemma ClaimCanWrite(r: Row, c: Claim)
    requires LeaseShape(r) && CanWrite(ViewOf(r), c)
    ensures FailRow(r, c, "", None, true, r.expires.value - 1).Some?
  {
  }

  /** Reconciliation sends back exactly the expired rows whose send had not begun, and settles none whose send had. */
  lemma ReconcileOutcome(t: Table, now: int, id: string)
    requires id in t && LeaseShape(t[id])
    ensures var r, s := t[id], RowAfter(t, ReconcileOp(now), id);
            (s.status == RetryWait && r.status != RetryWait <==> Expired(r, now) && r.status in {Claimed, Uploading, Uploaded})
            && (s.status == Uncertain && r.status != Uncertain <==> Expired(r, now) && r.status == Sending)
            && (s != r ==> s.owner == None && s.token == r.token + 1 && Expired(r, now))
            && (s.status == RetryWait && r.status != RetryWait ==> s.availableAt == now)
  {
  }

  /** A settled delivery is final: no statement moves a row out of `delivered` or `cancelled`. */
  lemma TerminalKept(t: Table, op: Op, id: string)
    requires id in t && LeaseShape(t[id]) && t[id].status in {Delivered, Cancelled}
    ensures RowAfter(t, op, id) == t[id]
  {
  }
}
