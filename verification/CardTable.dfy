/**
 * The `streaming_cards` table: the durable record of a live card. Writers are
 * fenced by the revision they last read, not by a lease; `recovering` doubles
 * as a recovery lease that goes stale with `updated_at`.
 */
module CardTable {
  import opened Options
  import opened LeaseFence

  datatype Status = Creating | Streaming | Recovering | Completed | Aborted | Failed

  /** The parts of the stored snapshot that recovery reads or writes; `body` stands for the rest. */
  datatype Snapshot = Snapshot(body: string, recoveryAttempts: nat, explicitStop: bool, staticFallback: bool)

  datatype Row = Row(
    turn: string, provider: string, messageId: Option<string>, cardId: Option<string>, version: nat,
    snapshot: Snapshot, status: Status, revision: nat, error: Option<string>,
    createdAt: int, updatedAt: int, completedAt: Option<int>)

  type Table = map<string, Row>

  predicate Terminal(s: Status) {
    s in {Completed, Aborted, Failed}
  }

  const EMPTY_SNAPSHOT := Snapshot("", 0, false, false)
  const RECOVERING_ERROR := "Streaming card recovery in progress"

  function Fresh(turn: string, provider: string, messageId: Option<string>, cardId: Option<string>, streaming: bool, now: int): Row {
    Row(turn, provider, messageId, cardId, 0, EMPTY_SNAPSHOT, if streaming then Streaming else Creating, 0, None, now, now, None)
  }

  /** A field is written only when present; the error always is. */
  datatype Patch = Patch(
    status: Option<Status>, messageId: Option<Option<string>>, cardId: Option<Option<string>>,
    version: Option<nat>, snapshot: Option<Snapshot>, error: Option<string>)

  function UpdateRow(r: Row, expectedRevision: nat, p: Patch, now: int): Option<Row> {
    if r.revision == expectedRevision && !Terminal(r.status) then
      Some(r.(status := p.status.OrElse(r.status), messageId := p.messageId.OrElse(r.messageId),
              cardId := p.cardId.OrElse(r.cardId), version := p.version.OrElse(r.version),
              snapshot := p.snapshot.OrElse(r.snapshot), error := p.error,
              completedAt := if p.status.Some? && Terminal(p.status.value) then Some(now) else r.completedAt,
              revision := r.revision + 1, updatedAt := now))
    else None
  }

  function RecoveryLease(ms: int): int {
    if ms > 1_000 then ms else 1_000
  }

  function ClaimRecoveryRow(r: Row, expectedRevision: nat, now: int, leaseMs: int): Option<Row> {
    if r.revision == expectedRevision
       && (r.status in {Creating, Streaming} || (r.status == Recovering && r.updatedAt <= now - RecoveryLease(leaseMs))) then
      Some(r.(status := Recovering, error := Some(RECOVERING_ERROR), revision := r.revision + 1, updatedAt := now))
    else None
  }

  /** The two notes any writer may add without knowing the revision. */
  function NoteRow(r: Row, stop: bool, now: int): Row {
    r.(snapshot := if stop then r.snapshot.(explicitStop := true) else r.snapshot.(staticFallback := true),
       revision := r.revision + 1, updatedAt := now)
  }

  /** A reservation the provider never saw. */
  predicate Unpublished(r: Row, expectedRevision: nat) {
    r.revision == expectedRevision && r.status == Creating && r.messageId == None && r.cardId == None
  }

  datatype Op =
    | Insert(id: string, turn: string, provider: string, messageId: Option<string>, cardId: Option<string>, streaming: bool, now: int)
    | UpdateOp(id: string, revision: nat, patch: Patch, now: int)
    | ClaimRecoveryOp(id: string, revision: nat, leaseMs: int, now: int)
    | NoteOp(id: string, stop: bool, now: int)
    | RemoveOp(id: string, turn: string, revision: nat, claim: Claim, strict: bool, now: int)

  function RowWrite(r: Row, op: Op, id: string): Option<Row> {
    match op
    case UpdateOp(i, v, p, now) => if i == id then UpdateRow(r, v, p, now) else None
    case ClaimRecoveryOp(i, v, ms, now) => if i == id then ClaimRecoveryRow(r, v, now, ms) else None
    case NoteOp(i, stop, now) => if i == id then Some(NoteRow(r, stop, now)) else None
    case Insert(_, _, _, _, _, _, _) => None
    case RemoveOp(_, _, _, _, _, _) => None
  }

  function RowAfter(r: Row, op: Op, id: string): Row {
    RowWrite(r, op, id).OrElse(r)
  }

  function Put(t: Table, id: string, r: Option<Row>): Table {
    if r.Some? then t[id := r.value] else t
  }

  /** `mayRemove` is what the turn and the outbox say about removing the reservation. */
  function Apply(t: Table, op: Op, mayRemove: bool): Table {
    match op
    case Insert(id, turn, p, m, c, s, now) => if id in t then t else t[id := Fresh(turn, p, m, c, s, now)]
    case RemoveOp(id, turn, v, _, _, _) => if id in t && t[id].turn == turn && Unpublished(t[id], v) && mayRemove then t - {id} else t
    case _ => if op.id in t then Put(t, op.id, RowWrite(t[op.id], op, op.id)) else t
  }

  /** A finished card keeps its status; only notes still touch it. */
  lemma TerminalKept(r: Row, op: Op, id: string)
    requires Terminal(r.status)
    ensures RowAfter(r, op, id).status == r.status && RowAfter(r, op, id).completedAt == r.completedAt
  {
  }
}
