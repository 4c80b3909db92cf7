/**
 * `deliverChannelOutboxItem` as a step machine over the outbox table. A call
 * runs from one await to the next without interruption; at each await it can be
 * overtaken by other calls, reconciliation and the operator, or never resume
 * because its process died. Every step reads whatever clock value it is given.
 *
 * The world also keeps the log of physical sends, which no code reads.
 */
module OutboxDelivery {
  import opened Options
  import opened LeaseFence
  import opened OutboxTable
  import opened Text

  datatype Config = Config(
    request: Identity, upload: bool, owner: string, leaseMs: int, availableAt: Option<int>,
    replayOnce: bool, failInsteadOfWait: bool)

  /** Where a call is suspended. The names ending in InFlight wait for the provider, the others for the `afterPersist` hook. */
  datatype Phase =
    | AtClaimed | AtUploading | UploadInFlight | AtUploaded | AtSending
    | SendInFlight | ReplayWait | ReplayInFlight | AtDelivered | Done

  /** What is known about one physical send. `Retracted`: refused in hindsight by an authoritative refusal of its replay. */
  datatype SendState = Unsent | InFlight | Acknowledged | Ambiguous | Rejected | Retracted

  datatype Outcome = ODelivered | OUncertain | OFailed | ORetryWait | OBusy | OCancelled | OLeaseLost
  datatype Result = Result(item: string, outcome: Outcome)

  datatype Call =
    | Refused(config: Config, result: Option<Result>)
    | Working(config: Config, row: string, claim: Claim, uploadKey: Option<string>, phase: Phase,
              first: SendState, second: SendState, result: Option<Result>)

  /** What ends a wait. `Reject` is a DefinitiveChannelDeliveryError, `Break` any other error, `Die` the end of the process. */
  datatype Signal =
    | Proceed | Reply(text: string) | Reject(retryAt: Option<int>, authoritative: bool) | Break | Die

  datatype Send = Send(call: nat, replay: bool, row: string, key: string)

  datatype World = World(table: Table, calls: map<nat, Call>, log: seq<Send>)

  datatype Event =
    | Start(call: nat, config: Config, newId: string, now: int, claimAt: int)
    | Resume(call: nat, signal: Signal, aborted: bool, now: int)
    | Aside(op: Op)

  // ---- the pure mappings ----

  function ResultOf(id: string, r: Row): Result {
    Result(id, match r.status
               case Delivered => ODelivered
               case Uncertain => OUncertain
               case Failed => OFailed
               case Cancelled => OCancelled
               case RetryWait => ORetryWait
               case _ => OBusy)
  }

  function LeaseLost(t: Table, id: string): Result {
    if id in t && t[id].status in {Delivered, Uncertain} then ResultOf(id, t[id]) else Result(id, OLeaseLost)
  }

  // ---- the first segment: sibling check, enqueue, claim ----

  ghost predicate UncertainSibling(t: Table, turn: string, id: string) {
    id in t && t[id].identity.turn == turn && t[id].status == Uncertain
  }

  /** The row a repeated enqueue resolves to: by key, else by (turn, ordinal). */
  ghost function FindRow(t: Table, x: Identity): Option<string> {
    if exists id :: id in t && t[id].identity.key == x.key then
      var id :| id in t && t[id].identity.key == x.key; Some(id)
    else if exists id :: id in t && t[id].identity.turn == x.turn && t[id].identity.ordinal == x.ordinal then
      var id :| id in t && t[id].identity.turn == x.turn && t[id].identity.ordinal == x.ordinal; Some(id)
    else None
  }

  /** The enqueue and the claim each read the clock. */
  ghost function StartCall(t: Table, config: Config, newId: string, now: int, claimAt: int): (Table, Call) {
    var x := config.request;
    if config.upload && x.kind !in {Image, File} then (t, Refused(config, None))
    else if exists id :: UncertainSibling(t, x.turn, id) then
      var id :| UncertainSibling(t, x.turn, id);
      (t, Refused(config, Some(ResultOf(id, t[id]))))
    else
      var u := Enqueue(t, newId, x, config.availableAt.OrElse(now), now);
      var found := FindRow(u, x);
      if found == None || !SameRequest(u[found.value].identity, x) then (t, Refused(config, None))
      else
        ClaimFound(u, config, found.value, claimAt)
  }

  function ClaimFound(t: Table, config: Config, id: string, now: int): (Table, Call)
    requires id in t
  {
    var r := t[id];
    if r.status in {Delivered, Uncertain, Failed, Cancelled} then (t, Refused(config, Some(ResultOf(id, r))))
    else if config.leaseMs <= 0 then (t, Refused(config, None))
    else
      var claimed := ClaimRow(r, config.owner, config.leaseMs, now);
      if claimed == None then (t, Refused(config, Some(ResultOf(id, r))))
      else (t[id := claimed.value],
            Working(config, id, Claim(config.owner, claimed.value.token), r.uploadKey, AtClaimed, Unsent, Unsent, None))
  }

  // ---- the later segments ----

  function End(c: Call, result: Option<Result>): Call
    requires c.Working?
  {
    c.(phase := Done, result := result)
  }

  /** A marked row and the next wait, or the end of a call whose lease is gone. */
  function Advance(t: Table, c: Call, m: Mark, next: Phase, now: int): (Table, Call)
    requires c.Working?
  {
    if c.row in t && MarkRow(t[c.row], c.claim, m, now).Some? then
      (t[c.row := MarkRow(t[c.row], c.claim, m, now).value],
       c.(phase := next, uploadKey := if m.MarkUploaded? then Some(m.key) else c.uploadKey))
    else (t, End(c, Some(LeaseLost(t, c.row))))
  }

  /** The outer catch: classify by the stored status, persist, report. */
  function FailWith(t: Table, c: Call, rejected: bool, retryAt: Option<int>, now: int): (Table, Call)
    requires c.Working?
  {
    if c.row !in t then (t, End(c, Some(LeaseLost(t, c.row))))
    else
      var uncertain := t[c.row].status == Sending && !rejected;
      var at := if rejected && !c.config.failInsteadOfWait then retryAt else None;
      var failed := FailRow(t[c.row], c.claim, "delivery error", at, uncertain, now);
      if failed == None then (t, End(c, Some(LeaseLost(t, c.row))))
      else (t[c.row := failed.value], End(c, Some(ResultOf(c.row, failed.value))))
  }

  /** The provider acknowledged the send with a message id. */
  function Acknowledge(t: Table, c: Call, messageId: string, now: int): (Table, Call)
    requires c.Working?
  {
    if c.row in t && CompleteRow(t[c.row], c.claim, messageId, now).Some? then
      (t[c.row := CompleteRow(t[c.row], c.claim, messageId, now).value], c.(phase := AtDelivered))
    else (t, End(c, Some(LeaseLost(t, c.row))))
  }

  /** A non-blank message id; a blank one is an ordinary error, because the message may be visible. */
  predicate Receipt(s: Signal) {
    s.Reply? && Trim(s.text) != ""
  }

  function FirstSendReturned(t: Table, c: Call, s: Signal, aborted: bool, now: int): (Table, Call)
    requires c.Working?
  {
    if s.Die? then (t, End(c, None))
    else if Receipt(s) then Acknowledge(t, c.(first := Acknowledged), Trim(s.text), now)
    else if s.Reject? then FailWith(t, c.(first := Rejected), true, s.retryAt, now)
    else if c.config.replayOnce && c.row in t && t[c.row].status == Sending && !aborted then
      (t, c.(phase := ReplayWait, first := Ambiguous))
    else FailWith(t, c.(first := Ambiguous), false, None, now)
  }

  /** Only an authoritative refusal (content or target) of the replay also speaks for the first request. */
  function ReplayReturned(t: Table, c: Call, s: Signal, now: int): (Table, Call)
    requires c.Working?
  {
    if s.Die? then (t, End(c, None))
    else if Receipt(s) then Acknowledge(t, c.(second := Acknowledged), Trim(s.text), now)
    else if s.Reject? && s.authoritative then
      FailWith(t, c.(first := Retracted, second := Rejected), true, s.retryAt, now)
    else FailWith(t, c.(second := if s.Reject? then Rejected else Ambiguous), false, None, now)
  }

  function UploadReturned(t: Table, c: Call, s: Signal, now: int): (Table, Call)
    requires c.Working?
  {
    match s
    case Die => (t, End(c, None))
    case Reject(at, _) => FailWith(t, c, true, at, now)
    case Reply(k) =>
      if Trim(k) == "" then FailWith(t, c, true, None, now)
      else Advance(t, c, MarkUploaded(Trim(k)), AtUploaded, now)
    case _ => FailWith(t, c, false, None, now)
  }

  /** The hook after the first persist is outside the try block: an error there leaves the lease to expire. */
  function AfterClaimed(t: Table, c: Call, s: Signal, now: int): (Table, Call)
    requires c.Working?
  {
    if s.Die? || s.Reject? || s.Break? then (t, End(c, None))
    else if c.config.upload && c.uploadKey == None then Advance(t, c, MarkUploading, AtUploading, now)
    else Advance(t, c, MarkSending, AtSending, now)
  }

  /** The hook at a later persist: crash, error (handled by the outer catch), or go on with `onward`. */
  function AfterHook(t: Table, c: Call, s: Signal, onward: (Table, Call), now: int): (Table, Call)
    requires c.Working?
  {
    match s
    case Die => (t, End(c, None))
    case Reject(at, _) => FailWith(t, c, true, at, now)
    case Break => FailWith(t, c, false, None, now)
    case _ => onward
  }

  /** One segment of a working call. */
  function ResumeCall(t: Table, c: Call, s: Signal, aborted: bool, now: int): (Table, Call)
    requires c.Working?
  {
    match c.phase
    case AtClaimed => AfterClaimed(t, c, s, now)
    case AtUploading => AfterHook(t, c, s, (t, c.(phase := UploadInFlight)), now)
    case UploadInFlight => UploadReturned(t, c, s, now)
    case AtUploaded => AfterHook(t, c, s, Advance(t, c, MarkSending, AtSending, now), now)
    case AtSending => AfterHook(t, c, s, (t, c.(phase := SendInFlight, first := InFlight)), now)
    case SendInFlight => FirstSendReturned(t, c, s, aborted, now)
    case ReplayWait => if s.Die? then (t, End(c, None)) else (t, c.(phase := ReplayInFlight, second := InFlight))
    case ReplayInFlight => ReplayReturned(t, c, s, now)
    case AtDelivered =>
      AfterHook(t, c, s, (t, End(c, if c.row in t then Some(ResultOf(c.row, t[c.row])) else None)), now)
    case Done => (t, c)
  }

  /** The sends a segment made: a state left `Unsent` is a new physical request. */
  function SendsOf(id: nat, c: Call, d: Call): seq<Send>
    requires c.Working? && d.Working?
  {
    (if c.first == Unsent && d.first != Unsent then [Send(id, false, c.row, c.config.request.key)] else [])
    + (if c.second == Unsent && d.second != Unsent then [Send(id, true, c.row, c.config.request.key)] else [])
  }

  /** What other actors do to the table: reconcilers, operators, other claimers that never get to send, other enqueuers. */
  predicate AsideOp(op: Op) {
    op.Insert? || op.ClaimOp? || op.ReconcileOp? || op.ResolveOp? || op.RetireOp?
  }

  ghost function Step(w: World, e: Event): World {
    match e
    case Start(i, config, newId, now, claimAt) =>
      if i in w.calls then w
      else
        var (t, c) := StartCall(w.table, config, newId, now, claimAt);
        w.(table := t, calls := w.calls[i := c])
    case Resume(i, s, aborted, now) =>
      if i !in w.calls || !w.calls[i].Working? then w
      else
        var c := w.calls[i];
        var (t, d) := ResumeCall(w.table, c, s, aborted, now);
        World(t, w.calls[i := d], w.log + if d.Working? then SendsOf(i, c, d) else [])
    case Aside(op) => if AsideOp(op) then w.(table := Apply(w.table, op)) else w
  }

  ghost function Run(w: World, events: seq<Event>): World
    decreases |events|
  {
    if events == [] then w
    else Step(Run(w, events[..|events| - 1]), events[|events| - 1])
  }
}
