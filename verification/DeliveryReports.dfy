/**
 * What a delivery tells its caller: the row it is about and how that row
 * stands, and that an undisturbed call whose provider answers delivers.
 */
module DeliveryReports {
  import opened Options
  import opened LeaseFence
  import opened OutboxTable
  import opened OutboxDelivery
  import opened AtMostOnce
  import opened Text
  import TextFacts

  // ---- every report is true ----

  /** The outcome names the status; `busy` stands for all others. */
  predicate Names(o: Outcome, s: Status) {
    (o == ODelivered <==> s == Delivered) && (o == OUncertain <==> s == Uncertain) && (o == OFailed <==> s == Failed)
    && (o == OCancelled <==> s == Cancelled) && (o == ORetryWait <==> s == RetryWait)
    && (o == OBusy <==> s in {Pending, Claimed, Uploading, Uploaded, Sending}) && o != OLeaseLost
  }

  /** A report about a row of the table, or that the lease was lost over a row that is neither delivered nor in doubt. */
  predicate Reports(t: Table, result: Result, id: string) {
    result.item == id
    && if result.outcome == OLeaseLost then !(id in t && t[id].status in {Delivered, Uncertain})
       else id in t && Names(result.outcome, t[id].status)
  }

  /** What a segment of call `c` over `t` left: an end, if it is one, with a report on the call's row. */
  predicate Honest(t: Table, c: Call, u: Table, d: Call)
    requires c.Working?
  {
    d.Working?
    && (d.phase == Done && d.result.Some? ==>
          Reports(u, d.result.value, c.row) && (d.result.value.outcome == OLeaseLost ==> u == t))
  }

  lemma AdvanceReports(t: Table, c: Call, m: Mark, next: Phase, now: int)
    requires c.Working? && next != Done
    ensures var (u, d) := Advance(t, c, m, next, now); Honest(t, c, u, d)
  {
  }

  lemma FailReports(t: Table, c: Call, d: Call, rejected: bool, retryAt: Option<int>, now: int)
    requires c.Working? && d.Working? && d.row == c.row
    ensures var (u, e) := FailWith(t, d, rejected, retryAt, now); Honest(t, c, u, e)
  {
  }

  lemma AcknowledgeReports(t: Table, c: Call, d: Call, id: string, now: int)
    requires c.Working? && d.Working? && d.row == c.row
    ensures var (u, e) := Acknowledge(t, d, id, now); Honest(t, c, u, e)
  {
  }

  lemma HookReports(t: Table, c: Call, s: Signal, onward: (Table, Call), now: int)
    requires c.Working? && Honest(t, c, onward.0, onward.1)
    ensures var (u, d) := AfterHook(t, c, s, onward, now); Honest(t, c, u, d)
  {
    FailReports(t, c, c, true, if s.Reject? then s.retryAt else None, now);
    FailReports(t, c, c, false, None, now);
  }

  lemma UploadReports(t: Table, c: Call, s: Signal, now: int)
    requires c.Working?
    ensures var (u, d) := UploadReturned(t, c, s, now); Honest(t, c, u, d)
  {
    FailReports(t, c, c, true, if s.Reject? then s.retryAt else None, now);
    FailReports(t, c, c, false, None, now);
    AdvanceReports(t, c, MarkUploaded(if s.Reply? then Trim(s.text) else ""), AtUploaded, now);
  }

  lemma FirstSendReports(t: Table, c: Call, s: Signal, aborted: bool, now: int)
    requires c.Working?
    ensures var (u, d) := FirstSendReturned(t, c, s, aborted, now); Honest(t, c, u, d)
  {
    AcknowledgeReports(t, c, c.(first := Acknowledged), if s.Reply? then Trim(s.text) else "", now);
    FailReports(t, c, c.(first := Rejected), true, if s.Reject? then s.retryAt else None, now);
    FailReports(t, c, c.(first := Ambiguous), false, None, now);
  }

  lemma ReplayReports(t: Table, c: Call, s: Signal, now: int)
    requires c.Working?
    ensures var (u, d) := ReplayReturned(t, c, s, now); Honest(t, c, u, d)
  {
    AcknowledgeReports(t, c, c.(second := Acknowledged), if s.Reply? then Trim(s.text) else "", now);
    FailReports(t, c, c.(first := Retracted, second := Rejected), true, if s.Reject? then s.retryAt else None, now);
    FailReports(t, c, c.(second := if s.Reject? then Rejected else Ambiguous), false, None, now);
  }

  /**
   * A segment that ends a call reports on the call's own row as the segment
   * leaves it. It reports a lost lease only when it could not write.
   */
  lemma SegmentReportsItsRow(t: Table, c: Call, s: Signal, aborted: bool, now: int)
    requires c.Working? && c.phase != Done
    ensures var (u, d) := ResumeCall(t, c, s, aborted, now);
            d.Working? && (d.phase == Done && d.result.Some? ==>
              Reports(u, d.result.value, c.row) && (d.result.value.outcome == OLeaseLost ==> u == t))
  {
    match c.phase
    case AtClaimed =>
      AdvanceReports(t, c, MarkUploading, AtUploading, now);
      AdvanceReports(t, c, MarkSending, AtSending, now);
    case AtUploading => HookReports(t, c, s, (t, c.(phase := UploadInFlight)), now);
    case UploadInFlight => UploadReports(t, c, s, now);
    case AtUploaded =>
      AdvanceReports(t, c, MarkSending, AtSending, now);
      HookReports(t, c, s, Advance(t, c, MarkSending, AtSending, now), now);
    case AtSending => HookReports(t, c, s, (t, c.(phase := SendInFlight, first := InFlight)), now);
    case SendInFlight => FirstSendReports(t, c, s, aborted, now);
    case ReplayWait =>
    case ReplayInFlight => ReplayReports(t, c, s, now);
    case AtDelivered => HookReports(t, c, s, (t, End(c, if c.row in t then Some(ResultOf(c.row, t[c.row])) else None)), now);
  }

  /** Only the death of the process, or an error of the first hook, ends a call without a report. */
  lemma SilentEnd(t: Table, c: Call, s: Signal, aborted: bool, now: int)
    requires c.Working? && c.phase != Done && c.row in t
    ensures var (_, d) := ResumeCall(t, c, s, aborted, now);
            d.Working? && (d.phase == Done && d.result == None <==> s.Die? || (c.phase == AtClaimed && (s.Reject? || s.Break?)))
  {
  }

  /** A first segment that ends the call reports on the uncertain sibling it met, or on the stored row of the request. */
  lemma StartReportsItsRow(t: Table, config: Config, newId: string, now: int, claimAt: int)
    ensures var (u, c) := StartCall(t, config, newId, now, claimAt);
            c.Refused? && c.result.Some? ==>
              var id := c.result.value.item;
              id in u && Reports(u, c.result.value, id) && c.result.value.outcome != OLeaseLost
              && (UncertainSibling(t, config.request.turn, id) || SameRequest(u[id].identity, config.request))
  {
  }

  /** No output of this turn is in doubt, whatever other turns' are. */
  ghost predicate NoDoubt(t: Table, turn: string) {
    forall o | o in t && t[o].identity.turn == turn :: t[o].status != Uncertain
  }

  /** The stored row of a request whose turn has no output in doubt. */
  ghost predicate Stands(t: Table, config: Config, id: string) {
    UniqueKeys(t) && id in t && SameRequest(t[id].identity, config.request)
    && NoDoubt(t, config.request.turn) && (config.upload ==> config.request.kind in {Image, File})
  }

  lemma StandingRowIsFound(t: Table, config: Config, id: string, newId: string, at: int, now: int)
    requires Stands(t, config, id)
    ensures Enqueue(t, newId, config.request, at, now) == t && FindRow(t, config.request) == Some(id)
  {
  }

  /** The stored row a request runs into: the one with its key, or else the one with its place in the turn. */
  ghost predicate RunsInto(t: Table, x: Identity, id: string) {
    id in t && (t[id].identity.key == x.key
                || (t[id].identity.turn == x.turn && t[id].identity.ordinal == x.ordinal && forall o | o in t :: t[o].identity.key != x.key))
  }

  /**
   * A request that runs into a stored output is refused as a conflict, storing
   * nothing, exactly when it differs from it in anything but the provider: in
   * key, payload hash, turn, ordinal, kind, source or account.
   */
  lemma ConflictIsRefused(t: Table, config: Config, id: string, newId: string, now: int, claimAt: int)
    requires UniqueKeys(t) && RunsInto(t, config.request, id) && config.leaseMs > 0
    requires NoDoubt(t, config.request.turn) && (config.upload ==> config.request.kind in {Image, File})
    ensures var (u, c) := StartCall(t, config, newId, now, claimAt);
            (c == Refused(config, None) <==> t[id].identity.(provider := "") != config.request.(provider := ""))
            && (c == Refused(config, None) ==> u == t)
  {
    var x := config.request;
    assert Enqueue(t, newId, x, config.availableAt.OrElse(now), now) == t;
    assert FindRow(t, x) == Some(id);
    assert SameRequest(t[id].identity, x) <==> t[id].identity.(provider := "") == x.(provider := "");
  }

  /** An upload of anything but an image or a file, and a lease that would not last, are errors of the caller. */
  lemma MisusedCallIsRefused(t: Table, config: Config, id: string, newId: string, now: int, claimAt: int)
    requires (config.upload && config.request.kind != Image && config.request.kind != File)
             || (Stands(t, config, id) && t[id].status in {Pending, RetryWait} && config.leaseMs <= 0)
    ensures StartCall(t, config, newId, now, claimAt) == (t, Refused(config, None))
  {
    if !(config.upload && config.request.kind != Image && config.request.kind != File) {
      StandingRowIsFound(t, config, id, newId, config.availableAt.OrElse(now), now);
    }
  }

  /** A repeated request for a settled output sends nothing and is answered with how it was settled: delivered, failed or cancelled. */
  lemma RepeatedRequestIsAnswered(t: Table, config: Config, id: string, newId: string, now: int, claimAt: int)
    requires Stands(t, config, id) && t[id].status in {Delivered, Failed, Cancelled}
    ensures var (u, c) := StartCall(t, config, newId, now, claimAt);
            u == t && c.Refused? && c.result.Some? && c.result.value.item == id && Names(c.result.value.outcome, t[id].status)
  {
    StandingRowIsFound(t, config, id, newId, config.availableAt.OrElse(now), now);
  }

  /** A turn with an output in doubt sends nothing more: every request is answered with a doubt of the turn. */
  lemma DoubtStopsTheTurn(t: Table, config: Config, doubt: string, newId: string, now: int, claimAt: int)
    requires doubt in t && t[doubt].identity.turn == config.request.turn && t[doubt].status == Uncertain
    requires config.upload ==> config.request.kind in {Image, File}
    ensures var (u, c) := StartCall(t, config, newId, now, claimAt);
            u == t && c.Refused? && c.result.Some? && c.result.value.outcome == OUncertain
            && c.result.value.item in t && t[c.result.value.item].identity.turn == config.request.turn && t[c.result.value.item].status == Uncertain
  {
    assert UncertainSibling(t, config.request.turn, doubt);
  }

  // ---- receipts are reported ----

  /** The call waits for its first send or its replay, and still holds its row. */
  predicate Awaits(t: Table, c: Call, now: int) {
    c.Working? && c.phase in {SendInFlight, ReplayInFlight} && c.row in t && t[c.row].status == Sending && Held(t[c.row], c.claim, now)
  }

  /**
   * An answer of spaces only is no receipt: the message may be visible, so the
   * row is left in doubt, or the one replay is asked for. A blank upload key is
   * a definite failure, because nothing was sent.
   */
  lemma BlankAnswer(t: Table, c: Call, text: string, aborted: bool, now: int)
    requires TextFacts.AllSpaces(text)
    requires Awaits(t, c, now) || (c.Working? && c.phase == UploadInFlight && c.row in t && t[c.row].status == Uploading && Held(t[c.row], c.claim, now))
    ensures var (u, d) := ResumeCall(t, c, Reply(text), aborted, now);
            d.Working? && c.row in u
            && if c.phase == SendInFlight && c.config.replayOnce && !aborted then u == t && d.phase == ReplayWait
               else d.phase == Done && d.result.Some?
                    && u[c.row].status == (if c.phase == UploadInFlight then Failed else Uncertain)
                    && d.result.value == Result(c.row, if c.phase == UploadInFlight then OFailed else OUncertain)
  {
    TextFacts.BlankExactly(text);
  }

  /**
   * The record of the sends says what the provider answered: a request that is
   * waited for becomes acknowledged by a receipt, refused by a refusal, and
   * ambiguous by anything else; only an authoritative refusal of its replay
   * takes a first request back.
   */
  lemma AnswersAreRecorded(t: Table, c: Call, s: Signal, aborted: bool, now: int)
    requires c.Working? && c.phase in {SendInFlight, ReplayInFlight} && !s.Die?
    ensures var (u, d) := ResumeCall(t, c, s, aborted, now);
            var answer := if s.Reply? && !TextFacts.AllSpaces(s.text) then Acknowledged else if s.Reject? then Rejected else Ambiguous;
            d.Working? && d.config == c.config && d.row == c.row && d.claim == c.claim
            && (c.phase == SendInFlight ==> d.first == answer && d.second == c.second)
            && (c.phase == ReplayInFlight ==> d.second == answer && d.first == if s.Reject? && s.authoritative then Retracted else c.first)
  {
    if s.Reply? {
      TextFacts.BlankExactly(s.text);
    }
  }

  /** A replay is asked for exactly after an ambiguous first send whose call allows it and was not aborted, and only while the row is still sending. */
  lemma ReplayExactlyWhen(t: Table, c: Call, s: Signal, aborted: bool, now: int)
    requires c.Working? && c.phase == SendInFlight && !s.Die?
    ensures var (u, d) := ResumeCall(t, c, s, aborted, now);
            var ambiguous := !s.Reject? && (s.Reply? ==> TextFacts.AllSpaces(s.text));
            d.Working? && (d.phase == ReplayWait <==> ambiguous && c.config.replayOnce && !aborted && c.row in t && t[c.row].status == Sending)
            && (d.phase == ReplayWait ==> u == t)
  {
    if s.Reply? {
      TextFacts.BlankExactly(s.text);
    }
  }

  /** The call works before or after its send and still holds its row. */
  predicate Works(t: Table, c: Call, now: int) {
    c.Working? && c.row in t && Held(t[c.row], c.claim, now)
    && match c.phase
       case AtUploading => t[c.row].status == Uploading
       case UploadInFlight => t[c.row].status == Uploading
       case AtUploaded => t[c.row].status == Uploaded
       case AtSending => t[c.row].status == Sending
       case _ => false
  }

  /**
   * What ends a call outside its send: a refusal schedules the retry it names,
   * unless the call is to fail instead, and fails the row otherwise; any other
   * error fails the row as long as the send has not begun, and leaves it in
   * doubt from then on.
   */
  lemma HowWorkEnds(t: Table, c: Call, s: Signal, aborted: bool, now: int)
    requires Works(t, c, now) && (s.Reject? || s.Break?)
    ensures var (u, d) := ResumeCall(t, c, s, aborted, now);
            d.Working? && d.phase == Done && c.row in u && d.result.Some? && d.result.value.item == c.row && Names(d.result.value.outcome, u[c.row].status)
            && u[c.row].status == (if s.Break? then (if c.phase == AtSending then Uncertain else Failed)
                                   else if s.retryAt.Some? && !c.config.failInsteadOfWait then RetryWait else Failed)
            && (u[c.row].status == RetryWait ==> u[c.row].availableAt == s.retryAt.value)
  {
  }

  /** An error of the last hook does not take a delivery back. */
  lemma LastHookKeepsTheDelivery(t: Table, c: Call, s: Signal, aborted: bool, now: int)
    requires c.Working? && c.phase == AtDelivered && c.row in t && t[c.row].status == Delivered && !s.Die?
    ensures var (u, d) := ResumeCall(t, c, s, aborted, now); u == t && d.Working? && d.phase == Done && d.result == Some(Result(c.row, ODelivered))
  {
  }

  /** A receipt delivers the row with the provider's id, and the call only waits for its last hook. */
  lemma ReceiptDelivers(t: Table, c: Call, s: Signal, aborted: bool, now: int)
    requires Awaits(t, c, now) && Receipt(s)
    ensures var (u, d) := ResumeCall(t, c, s, aborted, now);
            d.Working? && d.phase == AtDelivered && d.row == c.row && c.row in u
            && u[c.row].status == Delivered && u[c.row].messageId == Some(Trim(s.text)) && u[c.row].deliveredAt == Some(now)
  {
  }

  /**
   * Whatever else happened in the world meanwhile, a call that got its receipt
   * and whose hook went through reports its own row as delivered.
   */
  lemma AcknowledgedIsReported(t: Table, events: seq<Event>, i: nat, aborted: bool, now: int)
    requires Consistent(t)
    requires var w := Run(Begin(t), events); i in w.calls && w.calls[i].Working? && w.calls[i].phase == AtDelivered
    ensures var w := Run(Begin(t), events); var v := Step(w, Resume(i, Proceed, aborted, now));
            i in v.calls && v.calls[i].Working? && v.calls[i].phase == Done
            && v.calls[i].result == Some(Result(w.calls[i].row, ODelivered)) && v.table == w.table
  {
    var w := Run(Begin(t), events);
    Always(Begin(t), events);
    assert CallOk(w.table, w.calls[i]);
  }

  // ---- an undisturbed delivery delivers ----

  /** The request's row can be claimed at `now` and the turn has no output in doubt. */
  ghost predicate Deliverable(t: Table, config: Config, id: string, now: int) {
    Stands(t, config, id) && ClaimRow(t[id], config.owner, config.leaseMs, now).Some?
  }

  /** The stations of a call that goes straight through. */
  predicate AtStation(t: Table, c: Call, config: Config, id: string, phase: Phase, status: Status, term: int) {
    c.Working? && c.config == config && c.row == id && c.phase == phase && id in t && t[id].status == status
    && t[id].owner == Some(c.claim.owner) && t[id].token == c.claim.token && t[id].expires == Some(term)
  }

  lemma DeliverableStarts(t: Table, config: Config, id: string, newId: string, now: int)
    requires Deliverable(t, config, id, now)
    ensures var (u, c) := StartCall(t, config, newId, now, now);
            AtStation(u, c, config, id, AtClaimed, Claimed, now + config.leaseMs) && c.uploadKey == t[id].uploadKey
  {
    StandingRowIsFound(t, config, id, newId, config.availableAt.OrElse(now), now);
  }

  /** Without an upload left to do the next hook leads to the send. */
  lemma ClaimedGoesOn(t: Table, c: Call, config: Config, id: string, term: int, now: int)
    requires AtStation(t, c, config, id, AtClaimed, Claimed, term) && now < term
    ensures var (u, d) := ResumeCall(t, c, Proceed, false, now);
            if config.upload && c.uploadKey == None then AtStation(u, d, config, id, AtUploading, Uploading, term)
            else AtStation(u, d, config, id, AtSending, Sending, term)
  {
  }

  lemma UploadingGoesOn(t: Table, c: Call, config: Config, id: string, term: int, now: int)
    requires AtStation(t, c, config, id, AtUploading, Uploading, term)
    ensures var (u, d) := ResumeCall(t, c, Proceed, false, now); AtStation(u, d, config, id, UploadInFlight, Uploading, term)
  {
  }

  /** The key the provider gave for the file is stored, trimmed, before the send. */
  lemma UploadAnswered(t: Table, c: Call, config: Config, id: string, term: int, key: string, now: int)
    requires AtStation(t, c, config, id, UploadInFlight, Uploading, term) && Trim(key) != "" && now < term
    ensures var (u, d) := ResumeCall(t, c, Reply(key), false, now);
            AtStation(u, d, config, id, AtUploaded, Uploaded, term) && u[id].uploadKey == Some(Trim(key)) && d.uploadKey == Some(Trim(key))
  {
  }

  lemma UploadedGoesOn(t: Table, c: Call, config: Config, id: string, term: int, now: int)
    requires AtStation(t, c, config, id, AtUploaded, Uploaded, term) && now < term
    ensures var (u, d) := ResumeCall(t, c, Proceed, false, now); AtStation(u, d, config, id, AtSending, Sending, term)
  {
  }

  lemma SendingGoesOn(t: Table, c: Call, config: Config, id: string, term: int, now: int)
    requires AtStation(t, c, config, id, AtSending, Sending, term)
    ensures var (u, d) := ResumeCall(t, c, Proceed, false, now); AtStation(u, d, config, id, SendInFlight, Sending, term)
  {
  }

  /** The signals of a straight run from the claim on. */
  function Answers(upload: bool, key: string, receipt: string): seq<Signal> {
    (if upload then [Proceed, Proceed, Reply(key)] else []) + [Proceed, Proceed, Reply(receipt), Proceed]
  }

  function Straight(t: Table, c: Call, signals: seq<Signal>, now: int): (Table, Call)
    requires c.Working?
    decreases |signals|
  {
    if signals == [] then (t, c)
    else
      var (u, d) := ResumeCall(t, c, signals[0], false, now);
      if d.Working? then Straight(u, d, signals[1..], now) else (u, d)
  }

  lemma StraightStep(t: Table, c: Call, s: Signal, rest: seq<Signal>, now: int)
    requires c.Working?
    ensures var (u, d) := ResumeCall(t, c, s, false, now);
            d.Working? && Straight(t, c, [s] + rest, now) == Straight(u, d, rest, now)
  {
    assert ([s] + rest)[1..] == rest;
  }

  /** From the send hook on to the end. */
  lemma SendDelivers(t: Table, c: Call, config: Config, id: string, term: int, receipt: string, now: int)
    requires AtStation(t, c, config, id, AtSending, Sending, term) && now < term && Trim(receipt) != ""
    ensures var (u, d) := Straight(t, c, [Proceed] + ([Reply(receipt)] + ([Proceed] + [])), now); Delivers(u, d, id, Trim(receipt))
  {
    var (t2, c2) := ResumeCall(t, c, Proceed, false, now);
    SendingGoesOn(t, c, config, id, term, now);
    var (t3, c3) := ResumeCall(t2, c2, Reply(receipt), false, now);
    ReceiptDelivers(t2, c2, Reply(receipt), false, now);
    StraightStep(t, c, Proceed, [Reply(receipt)] + ([Proceed] + []), now);
    StraightStep(t2, c2, Reply(receipt), [Proceed] + [], now);
    StraightStep(t3, c3, Proceed, [], now);
  }

  /** The call ended with the report that its row is delivered, and it is, with this id. */
  predicate Delivers(t: Table, c: Call, id: string, receipt: string) {
    c.Working? && c.phase == Done && c.result == Some(Result(id, ODelivered))
    && id in t && t[id].status == Delivered && t[id].messageId == Some(receipt)
  }

  /** From the claim, or from a stored upload, on to the end. */
  lemma LastFourDeliver(t: Table, c: Call, config: Config, id: string, term: int, receipt: string, now: int)
    requires now < term && Trim(receipt) != ""
    requires AtStation(t, c, config, id, AtUploaded, Uploaded, term)
             || (AtStation(t, c, config, id, AtClaimed, Claimed, term) && !(config.upload && c.uploadKey == None))
    ensures var (u, d) := Straight(t, c, [Proceed] + ([Proceed] + ([Reply(receipt)] + ([Proceed] + []))), now); Delivers(u, d, id, Trim(receipt))
  {
    var (t1, c1) := ResumeCall(t, c, Proceed, false, now);
    if c.phase == AtClaimed {
      ClaimedGoesOn(t, c, config, id, term, now);
    } else {
      UploadedGoesOn(t, c, config, id, term, now);
    }
    StraightStep(t, c, Proceed, [Proceed] + ([Reply(receipt)] + ([Proceed] + [])), now);
    SendDelivers(t1, c1, config, id, term, receipt, now);
  }

  /** The upload stations, then the rest. */
  lemma UploadDelivers(t: Table, c: Call, config: Config, id: string, term: int, key: string, receipt: string, now: int)
    requires now < term && Trim(key) != "" && Trim(receipt) != ""
    requires AtStation(t, c, config, id, AtClaimed, Claimed, term) && config.upload && c.uploadKey == None
    ensures var (u, d) := Straight(t, c, Answers(true, key, receipt), now); Delivers(u, d, id, Trim(receipt))
  {
    var rest := [Proceed] + ([Proceed] + ([Reply(receipt)] + ([Proceed] + [])));
    var (t1, c1) := ResumeCall(t, c, Proceed, false, now);
    ClaimedGoesOn(t, c, config, id, term, now);
    var (t2, c2) := ResumeCall(t1, c1, Proceed, false, now);
    UploadingGoesOn(t1, c1, config, id, term, now);
    var (t3, c3) := ResumeCall(t2, c2, Reply(key), false, now);
    UploadAnswered(t2, c2, config, id, term, key, now);
    StraightStep(t, c, Proceed, [Proceed] + ([Reply(key)] + rest), now);
    StraightStep(t1, c1, Proceed, [Reply(key)] + rest, now);
    StraightStep(t2, c2, Reply(key), rest, now);
    LastFourDeliver(t3, c3, config, id, term, receipt, now);
    assert Answers(true, key, receipt) == [Proceed] + ([Proceed] + ([Reply(key)] + rest));
  }

  lemma ClaimedDelivers(t: Table, c: Call, config: Config, id: string, term: int, key: string, receipt: string, now: int)
    requires now < term && Trim(key) != "" && Trim(receipt) != "" && AtStation(t, c, config, id, AtClaimed, Claimed, term)
    ensures var (u, d) := Straight(t, c, Answers(config.upload && c.uploadKey == None, key, receipt), now); Delivers(u, d, id, Trim(receipt))
  {
    if config.upload && c.uploadKey == None {
      UploadDelivers(t, c, config, id, term, key, receipt, now);
    } else {
      LastFourDeliver(t, c, config, id, term, receipt, now);
      assert Answers(false, key, receipt) == [Proceed] + ([Proceed] + ([Reply(receipt)] + ([Proceed] + [])));
    }
  }

  /**
   * An undisturbed call delivers: it uploads where that is still to be done,
   * sends, stores the provider's ids and reports its row as delivered.
   */
  lemma UndisturbedCallDelivers(t: Table, config: Config, id: string, newId: string, now: int, key: string, receipt: string)
    requires Deliverable(t, config, id, now) && Trim(key) != "" && Trim(receipt) != ""
    ensures var (u, c) := StartCall(t, config, newId, now, now);
            c.Working?
            && var (v, d) := Straight(u, c, Answers(config.upload && t[id].uploadKey == None, key, receipt), now);
               Delivers(v, d, id, Trim(receipt))
  {
    var (u, c) := StartCall(t, config, newId, now, now);
    DeliverableStarts(t, config, id, newId, now);
    ClaimedDelivers(u, c, config, id, now + config.leaseMs, key, receipt, now);
  }
}
