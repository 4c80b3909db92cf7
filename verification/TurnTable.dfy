/**
 * The `turn_runs` table: one row per Agent execution. Execution is claimed
 * under a lease and never re-claimed by expiry: an expired lease is closed as
 * `interrupted`.
 */
module TurnTable {
  import opened Options
  import opened LeaseFence

  datatype Status =
    | Queued | Running | RetryWait | WaitingUser | Finalizing
    | Completed | Failed | Interrupted | Cancelled

  datatype Identity = Identity(
    key: string, provider: string, account: string, source: string,
    agent: Option<string>, correlation: Option<string>)

  datatype Row = Row(
    identity: Identity, inbox: Option<string>, status: Status,
    availableAt: int, owner: Option<string>, token: nat, expires: Option<int>, heartbeatAt: Option<int>,
    attempt: nat, revision: nat, result: Option<string>, error: Option<string>,
    createdAt: int, updatedAt: int, startedAt: Option<int>, completedAt: Option<int>)

  type Table = map<string, Row>

  predicate Leased(s: Status) {
    s in {Running, Finalizing}
  }

  predicate Terminal(s: Status) {
    s in {Completed, Failed, Interrupted, Cancelled}
  }

  function ViewOf(r: Row): View {
    View(r.token, if Leased(r.status) then r.owner else None)
  }

  function ViewIn(t: Table, id: string): View {
    if id in t then ViewOf(t[id]) else View(0, None)
  }

  predicate LeaseShape(r: Row) {
    Leased(r.status) == r.owner.Some? && r.owner.Some? == r.expires.Some?
  }

  predicate Held(r: Row, c: Claim, now: int) {
    r.owner == Some(c.owner) && r.token == c.token && r.expires.Some? && r.expires.value > now
  }

  const DELIVERED_EFFECT := "[manual_reconciliation] A channel side effect was already delivered before Turn completion; manual reconciliation required"
  const PROCESS_STOPPED := "[manual_reconciliation] Process stopped after Agent execution began; manual reconciliation required"

  function Fresh(x: Identity, inbox: Option<string>, availableAt: int, now: int): Row {
    Row(x, inbox, Queued, availableAt, None, 0, None, None, 0, 0, None, None, now, now, None, None)
  }

  predicate Insertable(t: Table, id: string, x: Identity, inbox: Option<string>) {
    id !in t && forall o | o in t :: t[o].identity.key != x.key && (inbox.Some? ==> t[o].inbox != inbox)
  }

  function ClaimRow(r: Row, owner: string, leaseMs: int, now: int): Option<Row> {
    if leaseMs > 0 && r.status in {Queued, RetryWait} && r.availableAt <= now && r.owner == None then
      Some(r.(status := Running, owner := Some(owner), token := r.token + 1, expires := Some(now + leaseMs),
              heartbeatAt := Some(now), attempt := r.attempt + 1, revision := r.revision + 1,
              startedAt := Some(r.startedAt.OrElse(now)), updatedAt := now))
    else None
  }

  function HeartbeatRow(r: Row, c: Claim, leaseMs: int, now: int): Option<Row> {
    if leaseMs > 0 && Leased(r.status) && Held(r, c, now) then
      Some(r.(heartbeatAt := Some(now), expires := Some(now + leaseMs), updatedAt := now))
    else None
  }

  function FinalizingRow(r: Row, c: Claim, now: int): Option<Row> {
    if r.status == Running && Held(r, c, now) then
      Some(r.(status := Finalizing, revision := r.revision + 1, updatedAt := now))
    else None
  }

  function WaitRow(r: Row, c: Claim, result: Option<string>, now: int): Option<Row> {
    if Leased(r.status) && Held(r, c, now) then
      Some(r.(status := WaitingUser, result := result, owner := None, expires := None,
              heartbeatAt := Some(now), revision := r.revision + 1, updatedAt := now))
    else None
  }

  function ResumeRow(r: Row, expectedRevision: nat, availableAt: int, now: int): Option<Row> {
    if r.status == WaitingUser && r.revision == expectedRevision then
      Some(r.(status := Queued, availableAt := availableAt, result := None, error := None,
              revision := r.revision + 1, updatedAt := now))
    else None
  }

  function RetryRow(r: Row, c: Claim, availableAt: int, error: string, now: int): Option<Row> {
    if r.status == Running && Held(r, c, now) then
      Some(r.(status := RetryWait, availableAt := availableAt, error := Some(error), owner := None,
              expires := None, revision := r.revision + 1, updatedAt := now))
    else None
  }

  datatype Ending = AsCompleted | AsFailed | AsCancelled

  function EndStatus(e: Ending): Status {
    match e
    case AsCompleted => Completed
    case AsFailed => Failed
    case AsCancelled => Cancelled
  }

  /** `unsettled`: some outbox row of the turn is not settled yet. */
  function CompleteRow(r: Row, c: Claim, e: Ending, result: Option<string>, error: Option<string>, unsettled: bool, now: int): Option<Row> {
    if Leased(r.status) && Held(r, c, now) && (e != AsCompleted || !unsettled) then
      Some(r.(status := EndStatus(e), result := result, error := error, completedAt := Some(now),
              owner := None, expires := None, revision := r.revision + 1, updatedAt := now))
    else None
  }

  /** The lease-free closings share one shape: bump the token so a live owner loses its fence. */
  function CloseRow(r: Row, s: Status, error: Option<string>, completedAt: int, now: int): Row {
    r.(status := s, completedAt := Some(completedAt), updatedAt := now, error := error, owner := None, expires := None,
       token := r.token + 1, revision := r.revision + 1)
  }

  function InterruptRow(r: Row, s: Status, reason: string, now: int): Option<Row> {
    if Terminal(r.status) then None else Some(CloseRow(r, s, Some(reason), now, now))
  }

  function CompleteRecoveredRow(r: Row, now: int): Option<Row> {
    if Terminal(r.status) then None
    else Some(CloseRow(r, Completed, None, r.completedAt.OrElse(now), now))
  }

  /** Never overrides an unexpired execution lease. */
  predicate LeaseLive(r: Row, now: int) {
    Leased(r.status) && r.owner.Some? && r.expires.Some? && r.expires.value > now
  }

  function FenceDeliveredRow(r: Row, delivered: bool, now: int): Row {
    if !Terminal(r.status) && !LeaseLive(r, now) && delivered then CloseRow(r, Interrupted, Some(DELIVERED_EFFECT), now, now)
    else r
  }

  function InterruptExpiredRow(r: Row, now: int): Row {
    if Leased(r.status) && r.expires.Some? && r.expires.value <= now then
      CloseRow(r, Interrupted, Some(r.error.OrElse(PROCESS_STOPPED)), now, now)
    else r
  }

  /** Cancelled without a token bump: a `retry_wait` row has no owner. */
  function CancelWaitingRow(r: Row, reason: string, now: int): Row {
    r.(status := Cancelled, completedAt := Some(now), updatedAt := now, error := Some(reason), owner := None,
       expires := None, revision := r.revision + 1)
  }

  /** `correlation_id NOT IN (...)` is not true of NULL once the list is non-empty. */
  predicate StaleWait(r: Row, before: int, keep: set<string>) {
    r.status == RetryWait && r.updatedAt < before
    && (keep == {} || (r.identity.correlation.Some? && r.identity.correlation.value !in keep))
  }

  predicate WithdrawnWait(r: Row, provider: string, account: string, agent: Option<string>, inputs: set<string>) {
    r.status == RetryWait && r.identity.provider == provider && r.identity.account == account
    && r.identity.agent == agent && r.identity.correlation.Some? && r.identity.correlation.value in inputs
  }

  datatype Op =
    | Insert(id: string, identity: Identity, inbox: Option<string>, availableAt: int, now: int)
    | LinkOp(id: string, inboxRow: string)
    | ClaimOp(id: string, owner: string, leaseMs: int, now: int)
    | HeartbeatOp(id: string, claim: Claim, leaseMs: int, now: int)
    | FinalizingOp(id: string, claim: Claim, now: int)
    | WaitOp(id: string, claim: Claim, result: Option<string>, now: int)
    | ResumeOp(id: string, revision: nat, availableAt: int, now: int)
    | RetryOp(id: string, claim: Claim, availableAt: int, reason: string, now: int)
    | CompleteOp(id: string, claim: Claim, ending: Ending, result: Option<string>, error: Option<string>, now: int)
    | InterruptOp(id: string, reason: string, now: int)
    | CancelOp(id: string, reason: string, now: int)
    | CompleteRecoveredOp(id: string, now: int)
    | FenceOneOp(id: string, now: int)
    | FenceAllOp(now: int)
    | InterruptExpiredOp(now: int)
    | CancelStaleOp(before: int, reason: string, keep: set<string>, now: int)
    | CancelWithdrawnOp(provider: string, account: string, agent: Option<string>, inputs: set<string>, reason: string, now: int)

  /** What the other tables say about a turn: an unsettled outbox row, a delivered effect. */
  datatype Effects = Effects(unsettled: bool, delivered: bool)

  /** What a statement makes of row `id`; None when its `WHERE` does not match it. */
  function RowWrite(r: Row, op: Op, id: string, fx: Effects): Option<Row> {
    match op
    case Insert(_, _, _, _, _) => None
    case LinkOp(i, inboxRow) => if i == id && r.inbox == None then Some(r.(inbox := Some(inboxRow))) else None
    case ClaimOp(i, o, ms, now) => if i == id then ClaimRow(r, o, ms, now) else None
    case HeartbeatOp(i, c, ms, now) => if i == id then HeartbeatRow(r, c, ms, now) else None
    case FinalizingOp(i, c, now) => if i == id then FinalizingRow(r, c, now) else None
    case WaitOp(i, c, res, now) => if i == id then WaitRow(r, c, res, now) else None
    case ResumeOp(i, v, at, now) => if i == id then ResumeRow(r, v, at, now) else None
    case RetryOp(i, c, at, e, now) => if i == id then RetryRow(r, c, at, e, now) else None
    case CompleteOp(i, c, e, res, err, now) => if i == id then CompleteRow(r, c, e, res, err, fx.unsettled, now) else None
    case InterruptOp(i, reason, now) => if i == id then InterruptRow(r, Interrupted, reason, now) else None
    case CancelOp(i, reason, now) => if i == id then InterruptRow(r, Cancelled, reason, now) else None
    case CompleteRecoveredOp(i, now) => if i == id then CompleteRecoveredRow(r, now) else None
    case FenceOneOp(i, now) =>
      if i == id && fx.delivered then InterruptRow(r, Interrupted, DELIVERED_EFFECT, now) else None
    case FenceAllOp(now) => Some(FenceDeliveredRow(r, fx.delivered, now))
    case InterruptExpiredOp(now) => Some(InterruptExpiredRow(r, now))
    case CancelStaleOp(before, reason, keep, now) =>
      if StaleWait(r, before, keep) then Some(CancelWaitingRow(r, reason, now)) else None
    case CancelWithdrawnOp(p, a, g, ins, reason, now) =>
      if WithdrawnWait(r, p, a, g, ins) then Some(CancelWaitingRow(r, reason, now)) else None
  }

  function RowAfter(r: Row, op: Op, id: string, fx: Effects): Row {
    RowWrite(r, op, id, fx).OrElse(r)
  }

  function GrantOf(t: Table, op: Op, id: string): Option<Claim> {
    match op
    case ClaimOp(i, o, ms, now) =>
      if i == id && id in t && ClaimRow(t[id], o, ms, now).Some? then Some(Claim(o, t[id].token + 1)) else None
    case _ => None
  }

  lemma LeaseShapeKept(r: Row, op: Op, id: string, fx: Effects)
    requires LeaseShape(r)
    ensures LeaseShape(RowAfter(r, op, id, fx))
  {
  }

  lemma RowFenced(t: Table, op: Op, id: string, fx: Effects)
    requires id in t && LeaseShape(t[id])
    ensures Fenced(ViewOf(t[id]), Moment(GrantOf(t, op, id), ViewOf(RowAfter(t[id], op, id, fx))))
  {
  }

  /** Every column of a terminal row except the link to its inbox receipt is final. */
  lemma TerminalKept(r: Row, op: Op, id: string, fx: Effects)
    requires LeaseShape(r) && Terminal(r.status)
    ensures RowAfter(r, op, id, fx) == r.(inbox := RowAfter(r, op, id, fx).inbox)
    ensures r.inbox.Some? ==> RowAfter(r, op, id, fx) == r
  {
  }

  /** A fenced write only ever succeeds for the claim that can write. */
  lemma WriteNeedsClaim(r: Row, c: Claim, now: int, ms: int, e: Ending, x: Option<string>, y: Option<string>, u: bool, at: int, s: string)
    ensures HeartbeatRow(r, c, ms, now).Some? ==> CanWrite(ViewOf(r), c)
    ensures FinalizingRow(r, c, now).Some? ==> CanWrite(ViewOf(r), c)
    ensures WaitRow(r, c, x, now).Some? ==> CanWrite(ViewOf(r), c)
    ensures RetryRow(r, c, at, s, now).Some? ==> CanWrite(ViewOf(r), c)
    ensures CompleteRow(r, c, e, x, y, u, now).Some? ==> CanWrite(ViewOf(r), c)
  {
  }

  lemma ClaimCanWrite(r: Row, c: Claim)
    requires LeaseShape(r) && CanWrite(ViewOf(r), c)
    ensures CompleteRow(r, c, AsFailed, None, None, true, r.expires.value - 1).Some?
  {
  }

  /** A successful explicit retry or resume of row `id`. */
  predicate Reruns(r: Row, op: Op, id: string, fx: Effects) {
    (op.RetryOp? || op.ResumeOp?) && RowWrite(r, op, id, fx).Some?
  }

  /** The executions a row has had or is still entitled to. */
  function Entitled(r: Row): nat {
    r.attempt + if r.status in {Queued, RetryWait} then 1 else 0
  }

  /** Only an explicit retry or resume entitles a turn to one more execution. */
  lemma EntitlementGrowsOnlyByRerun(r: Row, op: Op, id: string, fx: Effects)
    requires LeaseShape(r)
    ensures Entitled(RowAfter(r, op, id, fx)) <= Entitled(r) + if Reruns(r, op, id, fx) then 1 else 0
  {
  }

  /** The only statements that make a row `completed`. */
  lemma WhoCompletes(r: Row, op: Op, id: string, fx: Effects)
    requires LeaseShape(r) && r.status != Completed && RowAfter(r, op, id, fx).status == Completed
    ensures (op.CompleteOp? && op.id == id && op.ending == AsCompleted && !fx.unsettled && CanWrite(ViewOf(r), op.claim))
            || (op.CompleteRecoveredOp? && op.id == id && !Terminal(r.status))
  {
  }

  /** The startup fence on one row. */
  lemma FenceRowOutcome(r: Row, delivered: bool, now: int)
    requires LeaseShape(r)
    ensures var s := FenceDeliveredRow(r, delivered, now); !Terminal(s.status) && delivered ==> s == r && LeaseLive(r, now)
  {
  }
}
