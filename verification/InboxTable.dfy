/**
 * The `channel_inbox` table: one row per external message, the durable receipt
 * that deduplicates provider redeliveries. Unlike the other two leased tables
 * an expired `processing` row can be claimed again.
 */
module InboxTable {
  import opened Options
  import opened LeaseFence

  datatype Status = Received | Admitted | Queued | Processing | Processed | Ignored | Failed

  datatype Identity = Identity(
    provider: string, account: string, message: string, source: string,
    chat: Option<string>, thread: Option<string>)

  datatype Row = Row(
    identity: Identity, status: Status,
    availableAt: int, owner: Option<string>, token: nat, expires: Option<int>,
    attempt: nat, error: Option<string>, createdAt: int, updatedAt: int, completedAt: Option<int>)

  type Table = map<string, Row>

  predicate Terminal(s: Status) {
    s in {Processed, Ignored, Failed}
  }

  function ViewOf(r: Row): View {
    View(r.token, if r.status == Processing then r.owner else None)
  }

  function ViewIn(t: Table, id: string): View {
    if id in t then ViewOf(t[id]) else View(0, None)
  }

  /**
   * The owner and the expiry come and go together, and only a processing row
   * has them. (`transitionChannelInbox` can name `processing` without a lease,
   * so the converse is not promised here.)
   */
  predicate LeaseShape(r: Row) {
    r.owner.Some? == r.expires.Some? && (r.owner.Some? ==> r.status == Processing)
  }

  predicate Held(r: Row, c: Claim, now: int) {
    r.owner == Some(c.owner) && r.token == c.token && r.expires.Some? && r.expires.value > now
  }

  function Fresh(x: Identity, status: Status, availableAt: int, now: int): Row {
    Row(x, status, availableAt, None, 0, None, 0, None, now, now, None)
  }

  predicate SameMessage(x: Identity, y: Identity) {
    x.provider == y.provider && x.account == y.account && x.message == y.message
  }

  predicate Insertable(t: Table, id: string, x: Identity, status: Status) {
    id !in t && status in {Received, Admitted, Queued} && forall o | o in t :: !SameMessage(t[o].identity, x)
  }

  /** Naming a row also admits the states before `queued`. */
  function ClaimRow(r: Row, byId: bool, owner: string, leaseMs: int, now: int): Option<Row> {
    if leaseMs > 0
       && ((r.status in (if byId then {Received, Admitted, Queued} else {Queued}) && r.availableAt <= now && r.owner == None)
           || (r.status == Processing && r.expires.Some? && r.expires.value <= now)) then
      Some(r.(status := Processing, owner := Some(owner), token := r.token + 1, expires := Some(now + leaseMs),
              attempt := r.attempt + 1, updatedAt := now))
    else None
  }

  function UpdateRow(r: Row, c: Claim, error: Option<string>, now: int): Option<Row> {
    if r.status == Processing && Held(r, c, now) then Some(r.(error := error, updatedAt := now)) else None
  }

  function RenewRow(r: Row, c: Claim, leaseMs: int, now: int): Option<Row> {
    if leaseMs > 0 && r.status == Processing && Held(r, c, now) then
      Some(r.(expires := Some(now + leaseMs), updatedAt := now))
    else None
  }

  datatype Ending = AsProcessed | AsIgnored | AsFailed

  function EndStatus(e: Ending): Status {
    match e
    case AsProcessed => Processed
    case AsIgnored => Ignored
    case AsFailed => Failed
  }

  function FinishRow(r: Row, c: Claim, e: Ending, error: Option<string>, now: int): Option<Row> {
    if r.status == Processing && Held(r, c, now) then
      Some(r.(status := EndStatus(e), error := error, completedAt := Some(now), updatedAt := now,
              owner := None, expires := None))
    else None
  }

  function RequeueRow(r: Row, c: Claim, error: string, retryAt: int, now: int): Option<Row> {
    if r.status == Processing && Held(r, c, now) then
      Some(r.(status := Queued, error := Some(error), availableAt := retryAt, updatedAt := now,
              owner := None, expires := None))
    else None
  }

  function IgnoreDeferredRow(r: Row, reason: string, now: int): Option<Row> {
    if r.status == Queued && r.owner == None then
      Some(r.(status := Ignored, error := Some(reason), completedAt := Some(now), updatedAt := now, expires := None))
    else None
  }

  /** Accepts any pair of statuses, but only while nobody holds the row. */
  function TransitionRow(r: Row, expected: Status, next: Status, error: Option<string>, availableAt: Option<int>, now: int): Option<Row> {
    if r.status == expected && r.owner == None then
      Some(r.(status := next, error := error, availableAt := availableAt.OrElse(r.availableAt),
              completedAt := if Terminal(next) then Some(now) else None, updatedAt := now))
    else None
  }

  datatype Op =
    | Insert(id: string, identity: Identity, status: Status, availableAt: int, now: int)
    | TransitionOp(id: string, expected: Status, next: Status, error: Option<string>, deferTo: Option<int>, now: int)
    | ClaimOp(id: string, byId: bool, owner: string, leaseMs: int, now: int)
    | UpdateOp(id: string, claim: Claim, error: Option<string>, now: int)
    | RenewOp(id: string, claim: Claim, leaseMs: int, now: int)
    | FinishOp(id: string, claim: Claim, ending: Ending, error: Option<string>, now: int)
    | RequeueOp(id: string, claim: Claim, reason: string, retryAt: int, now: int)
    | IgnoreDeferredOp(id: string, reason: string, now: int)

  function RowWrite(r: Row, op: Op, id: string): Option<Row> {
    match op
    case Insert(_, _, _, _, _) => None
    case TransitionOp(i, x, y, e, at, now) => if i == id then TransitionRow(r, x, y, e, at, now) else None
    case ClaimOp(i, b, o, ms, now) => if i == id then ClaimRow(r, b, o, ms, now) else None
    case UpdateOp(i, c, e, now) => if i == id then UpdateRow(r, c, e, now) else None
    case RenewOp(i, c, ms, now) => if i == id then RenewRow(r, c, ms, now) else None
    case FinishOp(i, c, e, err, now) => if i == id then FinishRow(r, c, e, err, now) else None
    case RequeueOp(i, c, e, at, now) => if i == id then RequeueRow(r, c, e, at, now) else None
    case IgnoreDeferredOp(i, reason, now) => if i == id then IgnoreDeferredRow(r, reason, now) else None
  }

  function RowAfter(r: Row, op: Op, id: string): Row {
    RowWrite(r, op, id).OrElse(r)
  }

  function GrantOf(t: Table, op: Op, id: string): Option<Claim> {
    match op
    case ClaimOp(i, b, o, ms, now) =>
      if i == id && id in t && ClaimRow(t[id], b, o, ms, now).Some? then Some(Claim(o, t[id].token + 1)) else None
    case _ => None
  }

  lemma LeaseShapeKept(r: Row, op: Op, id: string)
    requires LeaseShape(r)
    ensures LeaseShape(RowAfter(r, op, id))
  {
  }

  lemma RowFenced(t: Table, op: Op, id: string)
    requires id in t && LeaseShape(t[id])
    ensures Fenced(ViewOf(t[id]), Moment(GrantOf(t, op, id), ViewOf(RowAfter(t[id], op, id))))
  {
  }

  lemma WriteNeedsClaim(r: Row, c: Claim, now: int, ms: int, e: Ending, x: Option<string>, s: string, at: int)
    ensures UpdateRow(r, c, x, now).Some? ==> CanWrite(ViewOf(r), c)
    ensures RenewRow(r, c, ms, now).Some? ==> CanWrite(ViewOf(r), c)
    ensures FinishRow(r, c, e, x, now).Some? ==> CanWrite(ViewOf(r), c)
    ensures RequeueRow(r, c, s, at, now).Some? ==> CanWrite(ViewOf(r), c)
  {
  }

  lemma ClaimCanWrite(r: Row, c: Claim)
    requires LeaseShape(r) && CanWrite(ViewOf(r), c)
    ensures FinishRow(r, c, AsFailed, None, r.expires.value - 1).Some?
  {
  }

  /** Without the general transition a finished receipt is final. */
  lemma TerminalKept(r: Row, op: Op, id: string)
    requires LeaseShape(r) && Terminal(r.status) && !op.TransitionOp?
    ensures RowAfter(r, op, id) == r
  {
  }
}
