/**
 * At most one claim of an idempotency key ever makes a send that was not
 * refused, over every interleaving of deliveries, crashes, reconciliations and
 * clock values.
 */
module AtMostOnce {
  import opened Options
  import opened LeaseFence
  import opened OutboxTable
  import opened OutboxDelivery

  /** A send whose message may be visible. */
  predicate Open(s: SendState) {
    s in {InFlight, Acknowledged, Ambiguous}
  }

  /** The call may still send, or has sent something that was not refused. */
  predicate Hot(c: Call) {
    c.Working? && (c.phase in {AtSending, SendInFlight, ReplayWait, ReplayInFlight} || Open(c.first) || Open(c.second))
  }

  /** Statuses from which a row can still reach `sending`. */
  predicate Startable(s: Status) {
    s in {Pending, Claimed, RetryWait, Uploading, Uploaded}
  }

  /** A replay follows a first send and needs leave; only its own refusal takes the first send back. */
  predicate Replayed(c: Call)
    requires c.Working?
  {
    (c.second != Unsent ==> c.first != Unsent && c.config.replayOnce) && (c.first == Retracted ==> c.second == Rejected)
  }

  predicate Shape(c: Call)
    requires c.Working?
  {
    match c.phase
    case SendInFlight => c.first == InFlight && c.second == Unsent
    case ReplayWait => c.first == Ambiguous && c.second == Unsent && c.config.replayOnce
    case ReplayInFlight => c.first == Ambiguous && c.second == InFlight && c.config.replayOnce
    case AtDelivered => Replayed(c)
    case Done => Replayed(c)
    case _ => c.first == Unsent && c.second == Unsent
  }

  /** A call only reports `delivered` for a row that is. */
  predicate Truthful(t: Table, result: Option<Result>) {
    result.Some? && result.value.outcome == ODelivered ==>
      result.value.item in t && t[result.value.item].status == Delivered
  }

  predicate CallOk(t: Table, c: Call) {
    Truthful(t, c.result)
    && (c.Working? ==>
          c.row in t && t[c.row].identity.key == c.config.request.key && c.claim.token <= t[c.row].token && Shape(c)
          && (Hot(c) ==> !Startable(t[c.row].status) && (t[c.row].status == Sending ==> t[c.row].token == c.claim.token))
          && (c.phase == AtDelivered ==> t[c.row].status == Delivered))
  }

  predicate PairOk(c: Call, d: Call) {
    c.Working? && d.Working? && c.row == d.row ==> c.claim.token != d.claim.token && !(Hot(c) && Hot(d))
  }

  predicate SendOk(calls: map<nat, Call>, s: Send) {
    s.call in calls && calls[s.call].Working? && s.row == calls[s.call].row && s.key == calls[s.call].config.request.key
    && StateOf(calls, s) != Unsent
  }

  function StateOf(calls: map<nat, Call>, s: Send): SendState {
    if s.call in calls && calls[s.call].Working? then
      if s.replay then calls[s.call].second else calls[s.call].first
    else Unsent
  }

  ghost predicate Shapes(t: Table) {
    forall id | id in t :: LeaseShape(t[id])
  }

  ghost predicate CallsOk(t: Table, calls: map<nat, Call>) {
    forall i | i in calls :: CallOk(t, calls[i])
  }

  ghost predicate PairsOk(calls: map<nat, Call>) {
    forall i, j | i in calls && j in calls && i != j :: PairOk(calls[i], calls[j])
  }

  ghost predicate LogOk(calls: map<nat, Call>, log: seq<Send>) {
    (forall k | 0 <= k < |log| :: SendOk(calls, log[k]))
    && forall k, l | 0 <= k < l < |log| :: log[k].call != log[l].call || log[k].replay != log[l].replay
  }

  ghost predicate Inv(w: World) {
    UniqueKeys(w.table) && Shapes(w.table) && CallsOk(w.table, w.calls) && PairsOk(w.calls) && LogOk(w.calls, w.log)
  }

  // ---- one segment of one call ----

  predicate NotForgotten(c: Call, d: Call)
    requires c.Working? && d.Working?
  {
    (c.first != Unsent ==> d.first != Unsent) && (c.second != Unsent ==> d.second != Unsent)
  }

  /** A segment touches at most the call's own row, and only while its claim holds it. */
  predicate Move(t: Table, c: Call, t': Table, d: Call)
    requires c.Working? && c.row in t
  {
    d.Working? && d.config == c.config && d.row == c.row && d.claim == c.claim && c.row in t'
    && t' == t[c.row := t'[c.row]]
    && (t'[c.row] == t[c.row] || RowMove(t[c.row], c.claim, t'[c.row]))
    && (Hot(d) ==> Hot(c) || t'[c.row] != t[c.row])
    && NotForgotten(c, d) && CallOk(t', d)
  }

  predicate RowMove(r: Row, c: Claim, s: Row) {
    Leased(r.status) && r.token == c.token && s.identity == r.identity && s.token == r.token && LeaseShape(s)
    && s.revision == r.revision + 1
  }

  lemma AdvanceMoves(t: Table, c: Call, m: Mark, next: Phase, now: int)
    requires c.Working? && CallOk(t, c) && LeaseShape(t[c.row])
    requires c.first == Unsent && c.second == Unsent
    requires (m == MarkSending && next == AtSending) || (m != MarkSending && next in {AtUploading, AtUploaded})
    ensures var (t', d) := Advance(t, c, m, next, now); Move(t, c, t', d)
  {
  }

  /** The outer catch never reopens a row some send of this call may have reached. */
  lemma FailMoves(t: Table, c: Call, d: Call, rejected: bool, retryAt: Option<int>, now: int)
    requires c.Working? && CallOk(t, c) && LeaseShape(t[c.row])
    requires d.Working? && d.config == c.config && d.row == c.row && d.claim == c.claim && NotForgotten(c, d)
    requires Replayed(d)
    requires Open(d.first) || Open(d.second) ==> Hot(c) && (!rejected || t[c.row].status == Delivered)
    ensures var (t', e) := FailWith(t, d, rejected, retryAt, now); Move(t, c, t', e)
  {
  }

  lemma AcknowledgeMoves(t: Table, c: Call, d: Call, id: string, now: int)
    requires c.Working? && CallOk(t, c) && LeaseShape(t[c.row]) && Hot(c)
    requires d.Working? && d.config == c.config && d.row == c.row && d.claim == c.claim && NotForgotten(c, d)
    requires d.result == c.result
    requires d.first != Unsent && Replayed(d)
    ensures var (t', e) := Acknowledge(t, d, id, now); Move(t, c, t', e)
  {
  }

  predicate BeforeSend(p: Phase) {
    p in {AtClaimed, AtUploading, UploadInFlight, AtUploaded}
  }

  lemma ResumeMoves(t: Table, c: Call, s: Signal, aborted: bool, now: int)
    requires c.Working? && CallOk(t, c) && LeaseShape(t[c.row])
    ensures var (t', d) := ResumeCall(t, c, s, aborted, now); Move(t, c, t', d)
  {
    if BeforeSend(c.phase) {
      EarlyMoves(t, c, s, aborted, now);
    } else {
      LateMoves(t, c, s, aborted, now);
    }
  }

  lemma EarlyMoves(t: Table, c: Call, s: Signal, aborted: bool, now: int)
    requires c.Working? && CallOk(t, c) && LeaseShape(t[c.row]) && BeforeSend(c.phase)
    ensures var (t', d) := ResumeCall(t, c, s, aborted, now); Move(t, c, t', d)
  {
    if c.phase == AtClaimed {
      AfterClaimedMoves(t, c, s, now);
    } else if c.phase == UploadInFlight {
      UploadMoves(t, c, s, now);
    } else if c.phase == AtUploaded {
      AdvanceMoves(t, c, MarkSending, AtSending, now);
      AfterHookMoves(t, c, s, Advance(t, c, MarkSending, AtSending, now), now);
    } else {
      AfterHookMoves(t, c, s, (t, c.(phase := UploadInFlight)), now);
    }
  }

  lemma LateMoves(t: Table, c: Call, s: Signal, aborted: bool, now: int)
    requires c.Working? && CallOk(t, c) && LeaseShape(t[c.row]) && !BeforeSend(c.phase)
    ensures var (t', d) := ResumeCall(t, c, s, aborted, now); Move(t, c, t', d)
  {
    if c.phase == SendInFlight {
      FirstReturnMoves(t, c, s, aborted, now);
    } else if c.phase == ReplayInFlight {
      ReplayReturnMoves(t, c, s, now);
    } else if c.phase == AtSending {
      assert CallOk(t, c.(phase := SendInFlight, first := InFlight));
      AfterHookMoves(t, c, s, (t, c.(phase := SendInFlight, first := InFlight)), now);
    } else if c.phase == AtDelivered {
      assert CallOk(t, End(c, Some(ResultOf(c.row, t[c.row]))));
      AfterHookMoves(t, c, s, (t, End(c, Some(ResultOf(c.row, t[c.row])))), now);
    } else if c.phase == ReplayWait {
      assert CallOk(t, c.(phase := ReplayInFlight, second := InFlight)) && CallOk(t, End(c, None));
    }
  }

  lemma AfterHookMoves(t: Table, c: Call, s: Signal, onward: (Table, Call), now: int)
    requires c.Working? && CallOk(t, c) && LeaseShape(t[c.row]) && Move(t, c, onward.0, onward.1)
    requires c.phase in {AtUploading, AtUploaded, AtSending, AtDelivered}
    ensures var (t', d) := AfterHook(t, c, s, onward, now); Move(t, c, t', d)
  {
  }

  lemma AfterClaimedMoves(t: Table, c: Call, s: Signal, now: int)
    requires c.Working? && CallOk(t, c) && LeaseShape(t[c.row]) && c.phase == AtClaimed
    ensures var (t', d) := AfterClaimed(t, c, s, now); Move(t, c, t', d)
  {
  }

  lemma UploadMoves(t: Table, c: Call, s: Signal, now: int)
    requires c.Working? && CallOk(t, c) && LeaseShape(t[c.row]) && c.phase == UploadInFlight
    ensures var (t', d) := UploadReturned(t, c, s, now); Move(t, c, t', d)
  {
    HookMoves(t, c, s, now);
    if s.Reply? {
      FailMoves(t, c, c, true, None, now);
      AdvanceMoves(t, c, MarkUploaded(Text.Trim(s.text)), AtUploaded, now);
    } else if s.Proceed? {
      FailMoves(t, c, c, false, None, now);
    }
  }

  lemma HookMoves(t: Table, c: Call, s: Signal, now: int)
    requires c.Working? && CallOk(t, c) && LeaseShape(t[c.row])
    requires c.phase in {AtUploading, UploadInFlight, AtUploaded, AtSending, AtDelivered}
    ensures s.Die? ==> Move(t, c, t, End(c, None))
    ensures s.Break? ==> var (t', d) := FailWith(t, c, false, None, now); Move(t, c, t', d)
    ensures s.Reject? ==> var (t', d) := FailWith(t, c, true, s.retryAt, now); Move(t, c, t', d)
  {
  }

  lemma FirstReturnMoves(t: Table, c: Call, s: Signal, aborted: bool, now: int)
    requires c.Working? && CallOk(t, c) && LeaseShape(t[c.row]) && c.phase == SendInFlight
    ensures var (t', d) := FirstSendReturned(t, c, s, aborted, now); Move(t, c, t', d)
  {
    if Receipt(s) {
      AcknowledgeMoves(t, c, c.(first := Acknowledged), Text.Trim(s.text), now);
    } else if s.Reject? {
      FailMoves(t, c, c.(first := Rejected), true, s.retryAt, now);
    } else if !s.Die? {
      FailMoves(t, c, c.(first := Ambiguous), false, None, now);
    }
  }

  lemma ReplayReturnMoves(t: Table, c: Call, s: Signal, now: int)
    requires c.Working? && CallOk(t, c) && LeaseShape(t[c.row]) && c.phase == ReplayInFlight
    ensures var (t', d) := ReplayReturned(t, c, s, now); Move(t, c, t', d)
  {
    if Receipt(s) {
      AcknowledgeMoves(t, c, c.(second := Acknowledged), Text.Trim(s.text), now);
    } else if s.Reject? && s.authoritative {
      FailMoves(t, c, c.(first := Retracted, second := Rejected), true, s.retryAt, now);
    } else if !s.Die? {
      FailMoves(t, c, c.(second := if s.Reject? then Rejected else Ambiguous), false, None, now);
    }
  }

  // ---- the invariant over the whole world ----

  /** Another call survives a move of call `i`. */
  lemma BystanderOk(w: World, i: nat, j: nat, t': Table, d: Call)
    requires Inv(w) && i in w.calls && w.calls[i].Working? && w.calls[i].row in w.table
    requires Move(w.table, w.calls[i], t', d) && j in w.calls && j != i
    ensures CallOk(t', w.calls[j]) && PairOk(w.calls[j], d) && PairOk(d, w.calls[j])
  {
  }

  lemma MoveKeepsTable(w: World, i: nat, t': Table, d: Call)
    requires Inv(w) && i in w.calls && w.calls[i].Working? && w.calls[i].row in w.table
    requires Move(w.table, w.calls[i], t', d)
    ensures UniqueKeys(t') && Shapes(t')
  {
  }

  lemma MoveKeepsLog(calls: map<nat, Call>, log: seq<Send>, i: nat, d: Call)
    requires LogOk(calls, log) && i in calls && calls[i].Working? && d.Working?
    requires d.config == calls[i].config && d.row == calls[i].row && NotForgotten(calls[i], d)
    ensures LogOk(calls[i := d], log + SendsOf(i, calls[i], d))
  {
  }

  lemma ResumeKeepsInv(w: World, i: nat, s: Signal, aborted: bool, now: int)
    requires Inv(w)
    ensures Inv(Step(w, Resume(i, s, aborted, now)))
  {
    if i in w.calls && w.calls[i].Working? {
      var c := w.calls[i];
      assert CallOk(w.table, c);
      assert LeaseShape(w.table[c.row]);
      ResumeMoves(w.table, c, s, aborted, now);
      var (t', d) := ResumeCall(w.table, c, s, aborted, now);
      var w' := Step(w, Resume(i, s, aborted, now));
      MoveKeepsTable(w, i, t', d);
      MoveKeepsLog(w.calls, w.log, i, d);
      forall j | j in w.calls && j != i ensures CallOk(t', w.calls[j]) && PairOk(w.calls[j], d) && PairOk(d, w.calls[j]) {
        BystanderOk(w, i, j, t', d);
      }
      assert CallsOk(t', w'.calls);
      forall j, k | j in w'.calls && k in w'.calls && j != k ensures PairOk(w'.calls[j], w'.calls[k]) {
        assert j != i && k != i ==> PairOk(w.calls[j], w.calls[k]);
      }
    }
  }

  // ---- a new call ----

  lemma EnqueueKeepsOthers(w: World, id: string, x: Identity, at: int, now: int)
    requires Inv(w)
    ensures Inv(w.(table := Enqueue(w.table, id, x, at, now)))
  {
  }

  /** A claim moves a row no call is hot for and takes a token no call has. */
  lemma ClaimBystander(w: World, j: nat, config: Config, id: string, now: int)
    requires Inv(w) && j in w.calls && id in w.table
    ensures var (t, c) := ClaimFound(w.table, config, id, now);
            CallOk(t, w.calls[j]) && PairOk(w.calls[j], c) && PairOk(c, w.calls[j])
  {
  }

  lemma ClaimKeepsTable(w: World, config: Config, id: string, now: int)
    requires Inv(w) && id in w.table
    ensures var (t, _) := ClaimFound(w.table, config, id, now); UniqueKeys(t) && Shapes(t)
  {
  }

  lemma ClaimedCallOk(t: Table, config: Config, id: string, now: int)
    requires id in t && t[id].identity.key == config.request.key
    ensures var (u, c) := ClaimFound(t, config, id, now); CallOk(u, c)
  {
  }

  lemma NewCallKeepsInv(w: World, i: nat, t: Table, c: Call)
    requires Inv(w) && i !in w.calls && UniqueKeys(t) && Shapes(t) && CallOk(t, c)
    requires forall j | j in w.calls :: CallOk(t, w.calls[j]) && PairOk(w.calls[j], c) && PairOk(c, w.calls[j])
    ensures Inv(World(t, w.calls[i := c], w.log))
  {
  }

  lemma ClaimKeepsInv(w: World, i: nat, config: Config, id: string, now: int)
    requires Inv(w) && i !in w.calls && id in w.table && w.table[id].identity.key == config.request.key
    ensures var (t, c) := ClaimFound(w.table, config, id, now); Inv(World(t, w.calls[i := c], w.log))
  {
    var (t, c) := ClaimFound(w.table, config, id, now);
    ClaimKeepsTable(w, config, id, now);
    ClaimedCallOk(w.table, config, id, now);
    forall j | j in w.calls ensures CallOk(t, w.calls[j]) && PairOk(w.calls[j], c) && PairOk(c, w.calls[j]) {
      ClaimBystander(w, j, config, id, now);
    }
    NewCallKeepsInv(w, i, t, c);
  }

  lemma RefusedKeepsInv(w: World, i: nat, c: Call)
    requires Inv(w) && i !in w.calls && c.Refused? && Truthful(w.table, c.result)
    ensures Inv(World(w.table, w.calls[i := c], w.log))
  {
  }

  lemma StartKeepsInv(w: World, i: nat, config: Config, newId: string, now: int, claimAt: int)
    requires Inv(w)
    ensures Inv(Step(w, Start(i, config, newId, now, claimAt)))
  {
    if i !in w.calls {
      var x := config.request;
      var (t, c) := StartCall(w.table, config, newId, now, claimAt);
      if (config.upload && x.kind !in {Image, File}) || exists id :: UncertainSibling(w.table, x.turn, id) {
        RefusedKeepsInv(w, i, c);
      } else {
        var at := config.availableAt.OrElse(now);
        EnqueueKeepsOthers(w, newId, x, at, now);
        var u := Enqueue(w.table, newId, x, at, now);
        var found := FindRow(u, x);
        if found == None || !SameRequest(u[found.value].identity, x) {
          RefusedKeepsInv(w, i, c);
        } else {
          ClaimKeepsInv(w.(table := u), i, config, found.value, claimAt);
        }
      }
    }
  }

  // ---- the other actors ----

  lemma AsideRow(t: Table, op: Op, id: string)
    requires id in t && AsideOp(op)
    ensures var s := RowAfter(t, op, id); var r := t[id];
            s.identity == r.identity && r.token <= s.token && (!Startable(r.status) ==> !Startable(s.status))
            && (s.status == Sending ==> s == r) && (r.status == Delivered ==> s.status == Delivered)
  {
  }

  lemma AsideKeepsCall(w: World, op: Op, i: nat)
    requires Inv(w) && AsideOp(op) && i in w.calls
    ensures CallOk(Apply(w.table, op), w.calls[i])
  {
    var c := w.calls[i];
    assert CallOk(w.table, c);
    if c.Working? {
      AsideRow(w.table, op, c.row);
      ApplyAt(w.table, op, c.row);
    }
    if c.result.Some? && c.result.value.outcome == ODelivered {
      AsideRow(w.table, op, c.result.value.item);
      ApplyAt(w.table, op, c.result.value.item);
    }
  }

  lemma ApplyKeepsShapes(t: Table, op: Op)
    requires Shapes(t)
    ensures Shapes(Apply(t, op))
  {
  }

  lemma AsideKeepsInv(w: World, op: Op)
    requires Inv(w)
    ensures Inv(Step(w, Aside(op)))
  {
    if AsideOp(op) {
      IdentityIsForever(w.table, op);
      ApplyKeepsShapes(w.table, op);
      forall i | i in w.calls ensures CallOk(Apply(w.table, op), w.calls[i]) {
        AsideKeepsCall(w, op, i);
      }
    }
  }

  /** The invariant holds in every reachable world. */
  lemma {:induction false} Always(w: World, events: seq<Event>)
    requires Inv(w)
    ensures Inv(Run(w, events))
    decreases |events|
  {
    if events != [] {
      var before := Run(w, events[..|events| - 1]);
      Always(w, events[..|events| - 1]);
      match events[|events| - 1]
      case Start(i, c, n, now, at) => StartKeepsInv(before, i, c, n, now, at);
      case Resume(i, s, a, now) => ResumeKeepsInv(before, i, s, a, now);
      case Aside(op) => AsideKeepsInv(before, op);
    }
  }

  /** A table as the schema and the statements leave it, with no delivery under way. */
  ghost predicate Consistent(t: Table) {
    UniqueKeys(t) && Shapes(t)
  }

  ghost function Begin(t: Table): World {
    World(t, map[], [])
  }

  lemma SameRowSameCall(w: World, a: Send, b: Send)
    requires Inv(w) && SendOk(w.calls, a) && SendOk(w.calls, b) && a.row == b.row
    requires Open(StateOf(w.calls, a)) && Open(StateOf(w.calls, b))
    ensures a.call == b.call
  {
  }

  /**
   * All sends of one idempotency key that were not refused belong to one claim
   * of one row, and are that call's first request and its one replay.
   */
  lemma OneVisibleClaim(t: Table, events: seq<Event>, k: nat, l: nat)
    requires Consistent(t)
    requires k < l < |Run(Begin(t), events).log|
    requires var w := Run(Begin(t), events); var a, b := w.log[k], w.log[l];
             a.key == b.key && Open(StateOf(w.calls, a)) && Open(StateOf(w.calls, b))
    ensures var w := Run(Begin(t), events); var a, b := w.log[k], w.log[l];
            a.call == b.call && a.row == b.row && a.replay != b.replay && w.calls[a.call].config.replayOnce
  {
    var w := Run(Begin(t), events);
    Always(Begin(t), events);
    var a, b := w.log[k], w.log[l];
    assert SendOk(w.calls, a) && SendOk(w.calls, b);
    assert CallOk(w.table, w.calls[a.call]) && CallOk(w.table, w.calls[b.call]);
    assert w.table[a.row].identity.key == a.key && w.table[b.row].identity.key == b.key;
    assert a.row == b.row;
    SameRowSameCall(w, a, b);
  }

  predicate IsOpen(calls: map<nat, Call>, s: Send, key: string, replay: bool) {
    s.key == key && s.replay == replay && Open(StateOf(calls, s))
  }

  /** How many of the logged first requests, or replays, for a key may have become visible. */
  function OpenSends(calls: map<nat, Call>, log: seq<Send>, key: string, replay: bool): nat {
    if log == [] then 0
    else OpenSends(calls, log[..|log| - 1], key, replay) + if IsOpen(calls, log[|log| - 1], key, replay) then 1 else 0
  }

  lemma {:induction false} NoneOpen(calls: map<nat, Call>, log: seq<Send>, key: string, replay: bool)
    requires forall k | 0 <= k < |log| :: !IsOpen(calls, log[k], key, replay)
    ensures OpenSends(calls, log, key, replay) == 0
  {
    if log != [] {
      NoneOpen(calls, log[..|log| - 1], key, replay);
    }
  }

  lemma {:induction false} AtMostOneOpen(calls: map<nat, Call>, log: seq<Send>, key: string, replay: bool)
    requires forall k, l | 0 <= k < l < |log| :: !(IsOpen(calls, log[k], key, replay) && IsOpen(calls, log[l], key, replay))
    ensures OpenSends(calls, log, key, replay) <= 1
  {
    if log != [] {
      if IsOpen(calls, log[|log| - 1], key, replay) {
        NoneOpen(calls, log[..|log| - 1], key, replay);
      } else {
        AtMostOneOpen(calls, log[..|log| - 1], key, replay);
      }
    }
  }

  /**
   * The delivery guarantee: whatever calls, crashes, clocks and reconciliations
   * happen, a key has at most one first request and one replay that were not
   * refused, and no unrefused replay unless the call that made it allows one.
   */
  lemma AtMostOneVisibleSend(t: Table, events: seq<Event>, key: string)
    requires Consistent(t)
    ensures var w := Run(Begin(t), events);
            OpenSends(w.calls, w.log, key, false) <= 1 && OpenSends(w.calls, w.log, key, true) <= 1
            && ((forall i | i in w.calls && w.calls[i].config.request.key == key :: !w.calls[i].config.replayOnce)
                ==> OpenSends(w.calls, w.log, key, true) == 0)
  {
    var w := Run(Begin(t), events);
    Always(Begin(t), events);
    forall replay: bool, k, l | 0 <= k < l < |w.log|
      ensures !(IsOpen(w.calls, w.log[k], key, replay) && IsOpen(w.calls, w.log[l], key, replay))
    {
      if w.log[k].key == w.log[l].key && Open(StateOf(w.calls, w.log[k])) && Open(StateOf(w.calls, w.log[l])) {
        OneVisibleClaim(t, events, k, l);
      }
    }
    AtMostOneOpen(w.calls, w.log, key, false);
    AtMostOneOpen(w.calls, w.log, key, true);
    if forall i | i in w.calls && w.calls[i].config.request.key == key :: !w.calls[i].config.replayOnce {
      forall k | 0 <= k < |w.log| ensures !IsOpen(w.calls, w.log[k], key, true) {
        assert SendOk(w.calls, w.log[k]);
        assert CallOk(w.table, w.calls[w.log[k].call]);
      }
      NoneOpen(w.calls, w.log, key, true);
    }
  }

  /** Two logged sends under the same claim: same row and token, whichever calls made them. */
  ghost predicate SameClaim(w: World, a: Send, b: Send) {
    a.call in w.calls && b.call in w.calls && w.calls[a.call].Working? && w.calls[b.call].Working?
    && a.row == b.row && w.calls[a.call].claim.token == w.calls[b.call].claim.token
  }

  /** Each claim sends at most once, plus one replay of the same row when its call allows it. */
  lemma SendsPerClaim(t: Table, events: seq<Event>, k: nat, l: nat)
    requires Consistent(t)
    requires k < l < |Run(Begin(t), events).log|
    requires SameClaim(Run(Begin(t), events), Run(Begin(t), events).log[k], Run(Begin(t), events).log[l])
    ensures var w := Run(Begin(t), events); var a, b := w.log[k], w.log[l];
            a.call == b.call && a.replay != b.replay && w.calls[a.call].config.replayOnce
  {
    var w := Run(Begin(t), events);
    Always(Begin(t), events);
    var a, b := w.log[k], w.log[l];
    assert SendOk(w.calls, a) && SendOk(w.calls, b);
    assert CallOk(w.table, w.calls[a.call]);
  }

  /** A call that reported `delivered` did so about a row that is delivered, now and in every later world. */
  lemma DeliveredIsTrue(t: Table, events: seq<Event>, i: nat)
    requires Consistent(t)
    requires var w := Run(Begin(t), events); i in w.calls && w.calls[i].result.Some?
                                             && w.calls[i].result.value.outcome == ODelivered
    ensures var w := Run(Begin(t), events); var item := w.calls[i].result.value.item;
            item in w.table && w.table[item].status == Delivered
  {
    Always(Begin(t), events);
    var w := Run(Begin(t), events);
    assert CallOk(w.table, w.calls[i]);
  }

  /** The call waits for its first send and still holds its row. */
  predicate AwaitsSend(t: Table, c: Call, now: int) {
    c.Working? && c.phase == SendInFlight && c.row in t && t[c.row].status == Sending && Held(t[c.row], c.claim, now)
  }

  /**
   * How the first send of a call that still holds its row ends: a receipt
   * delivers it with that id, an explicit rejection fails it or schedules the
   * retry it names, and anything else leaves doubt (after the one replay, where
   * the call allows it), never a retry.
   */
  lemma HowASendEnds(t: Table, c: Call, s: Signal, aborted: bool, now: int)
    requires AwaitsSend(t, c, now) && !s.Die?
    ensures var (u, d) := ResumeCall(t, c, s, aborted, now); var r := u[c.row];
            (r.status == Delivered <==> Receipt(s))
            && (Receipt(s) ==> r.messageId == Some(Text.Trim(s.text)))
            && (r.status == RetryWait <==> s.Reject? && s.retryAt.Some? && !c.config.failInsteadOfWait)
            && (r.status == RetryWait ==> r.availableAt == s.retryAt.value)
            && (r.status == Failed <==> s.Reject? && (s.retryAt == None || c.config.failInsteadOfWait))
            && (r.status == Uncertain <==> !Receipt(s) && !s.Reject? && !(c.config.replayOnce && !aborted))
            && (r.status == Sending <==> !Receipt(s) && !s.Reject? && c.config.replayOnce && !aborted)
            && (d.phase == ReplayWait <==> r.status == Sending)
  {
  }

  /** A first send counts as refused in hindsight only where its call allows replays, and then its replay was refused. */
  lemma RetractedNeedsAReplay(t: Table, events: seq<Event>, i: nat)
    requires Consistent(t)
    requires var w := Run(Begin(t), events); i in w.calls && w.calls[i].Working? && w.calls[i].first == Retracted
    ensures var c := Run(Begin(t), events).calls[i]; c.config.replayOnce && c.second == Rejected
  {
    Always(Begin(t), events);
    var w := Run(Begin(t), events);
    assert CallOk(w.table, w.calls[i]);
  }

  /** The call waits for its replay and still holds its row. */
  predicate AwaitsReplay(t: Table, c: Call, now: int) {
    c.Working? && c.phase == ReplayInFlight && c.first == Ambiguous && c.row in t && t[c.row].status == Sending && Held(t[c.row], c.claim, now)
  }

  /**
   * How a replay ends, and what may follow: an authoritative refusal takes the
   * first send back with it, and only when it also names a retry time (and the
   * call does not fail instead) can the row be claimed again, from that time on.
   * A receipt delivers; everything else leaves the row in doubt for an operator.
   */
  lemma HowAReplayEnds(t: Table, c: Call, s: Signal, aborted: bool, now: int, owner: string, leaseMs: int, later: int)
    requires AwaitsReplay(t, c, now) && !s.Die?
    ensures var (u, d) := ResumeCall(t, c, s, aborted, now); var r := u[c.row];
            d.Working? && (d.first == Retracted <==> s.Reject? && s.authoritative)
            && (r.status == Delivered <==> Receipt(s))
            && (r.status == Uncertain <==> !Receipt(s) && !(s.Reject? && s.authoritative))
            && (ClaimRow(r, owner, leaseMs, later).Some? <==>
                  leaseMs > 0 && s.Reject? && s.authoritative && s.retryAt.Some? && !c.config.failInsteadOfWait && s.retryAt.value <= later)
  {
  }
}
