/**
 * `deliverChannelOutboxItem` as the object a running call is: its local
 * variables as fields, one method per uninterrupted segment, each segment
 * calling the store's statements. Every segment is proved to be the step of the
 * delivery machine, so the guarantees over all interleavings of that machine
 * are guarantees about these bodies.
 */
module DeliveryCall {
  import opened Options
  import opened LeaseFence
  import opened OutboxTable
  import opened OutboxDelivery
  import opened Text
  import ChannelStore

  class Delivery {
    const config: Config
    var started: bool
    var row: string
    var claim: Claim
    var uploadKey: Option<string>
    var phase: Phase
    var result: Option<Result>
    ghost var first: SendState
    ghost var second: SendState

    ghost function Value(): Call
      reads this
    {
      if started then Working(config, row, claim, uploadKey, phase, first, second, result) else Refused(config, result)
    }

    constructor (config: Config)
      ensures this.config == config && Value() == Refused(config, None)
    {
      this.config := config;
      started := false;
      row, claim, uploadKey, phase, result := "", Claim("", 0), None, Done, None;
      first, second := Unsent, Unsent;
    }

    /** The stored row a repeated enqueue must agree with is unique, so the two lookups find the same one. */
    lemma FoundIsFindRow(t: Table, x: Identity, found: Option<string>)
      requires UniqueKeys(t)
      requires found.Some? ==>
                 found.value in t
                 && (t[found.value].identity.key == x.key
                     || (t[found.value].identity.turn == x.turn && t[found.value].identity.ordinal == x.ordinal
                         && forall id | id in t :: t[id].identity.key != x.key))
      requires found == None ==>
                 forall id | id in t :: t[id].identity.key != x.key && !(t[id].identity.turn == x.turn && t[id].identity.ordinal == x.ordinal)
      ensures found == FindRow(t, x)
    {
    }

    /** The first segment: sibling check, enqueue, claim. */
    method Begin(store: ChannelStore.Store, newId: string, now: int, claimAt: int)
      requires UniqueKeys(store.outbox) && !started && result == None
      modifies this, store`outbox
      ensures (config.upload && config.request.kind !in {Image, File}) || (forall id :: !UncertainSibling(old(store.outbox), config.request.turn, id)) ==>
                (store.outbox, Value()) == StartCall(old(store.outbox), config, newId, now, claimAt)
      ensures !(config.upload && config.request.kind !in {Image, File}) && (exists id :: UncertainSibling(old(store.outbox), config.request.turn, id)) ==>
                store.outbox == old(store.outbox)
                && exists id :: UncertainSibling(old(store.outbox), config.request.turn, id)
                                && Value() == Refused(config, Some(Result(id, OUncertain)))
    {
      var x := config.request;
      if config.upload && x.kind !in {Image, File} { return; }
      var sibling := store.FirstUncertain(x.turn);
      if sibling.Some? {
        assert UncertainSibling(store.outbox, x.turn, sibling.value);
        result := Some(ResultOf(sibling.value, store.outbox[sibling.value]));
        return;
      }
      var found := EnqueueAndFind(store, newId, now);
      if found.Some? && SameRequest(store.outbox[found.value].identity, x) {
        ClaimRowOf(store, found.value, claimAt);
      }
    }

    method EnqueueAndFind(store: ChannelStore.Store, newId: string, now: int) returns (found: Option<string>)
      requires UniqueKeys(store.outbox)
      modifies store`outbox
      ensures store.outbox == Enqueue(old(store.outbox), newId, config.request, config.availableAt.OrElse(now), now)
      ensures found == FindRow(store.outbox, config.request) && (found.Some? ==> found.value in store.outbox)
      ensures store.outbox != old(store.outbox) ==> found.Some? && store.outbox[found.value].identity == config.request
    {
      var at := config.availableAt.OrElse(now);
      store.EnqueueOutbox(newId, config.request, at, now);
      found := store.FindOutbox(config.request);
      IdentityIsForever(old(store.outbox), Insert(newId, config.request, at, now));
      FoundIsFindRow(store.outbox, config.request, found);
      assert Insertable(old(store.outbox), newId, config.request) ==> store.outbox[newId].identity == config.request;
    }

    /** Reports a settled row, or claims an open one. */
    method ClaimRowOf(store: ChannelStore.Store, id: string, now: int)
      requires id in store.outbox && !started && result == None
      modifies this, store`outbox
      ensures (store.outbox, Value()) == ClaimFound(old(store.outbox), config, id, now)
    {
      var r := store.outbox[id];
      if r.status in {Delivered, Uncertain, Failed, Cancelled} {
        result := Some(ResultOf(id, r));
        return;
      }
      if config.leaseMs <= 0 { return; }
      OneRow(store.outbox, ClaimOp(id, config.owner, config.leaseMs, now), id);
      var granted := store.ClaimOutbox(id, config.owner, config.leaseMs, now);
      if granted == None {
        result := Some(ResultOf(id, r));
        return;
      }
      started, row, claim, uploadKey, phase := true, id, granted.value, r.uploadKey, AtClaimed;
      first, second := Unsent, Unsent;
    }

    /** One later segment, after whatever ended the wait. */
    method Resume(store: ChannelStore.Store, s: Signal, aborted: bool, now: int)
      requires started
      modifies this, store`outbox
      ensures started && (store.outbox, Value()) == ResumeCall(old(store.outbox), old(Value()), s, aborted, now)
    {
      match phase {
        case AtClaimed =>
          if s.Die? || s.Reject? || s.Break? {
            Finish(None);
          } else if config.upload && uploadKey == None {
            Advance(store, MarkUploading, AtUploading, now);
          } else {
            Advance(store, MarkSending, AtSending, now);
          }
        case AtUploading =>
          var stop := HookFailed(store, s, now);
          if !stop {
            phase := UploadInFlight;
          }
        case UploadInFlight =>
          UploadAnswered(store, s, now);
        case AtUploaded =>
          var stop := HookFailed(store, s, now);
          if !stop {
            Advance(store, MarkSending, AtSending, now);
          }
        case AtSending =>
          var stop := HookFailed(store, s, now);
          if !stop {
            phase, first := SendInFlight, InFlight;
          }
        case SendInFlight =>
          FirstAnswered(store, s, aborted, now);
        case ReplayWait =>
          if s.Die? {
            Finish(None);
          } else {
            phase, second := ReplayInFlight, InFlight;
          }
        case ReplayInFlight =>
          ReplayAnswered(store, s, now);
        case AtDelivered =>
          var stop := HookFailed(store, s, now);
          if !stop {
            Finish(if row in store.outbox then Some(ResultOf(row, store.outbox[row])) else None);
          }
        case Done =>
      }
    }

    // ---- the pieces of a segment ----

    method Finish(how: Option<Result>)
      modifies `phase, `result
      ensures phase == Done && result == how
    {
      phase, result := Done, how;
    }

    /** A fenced status move and the next wait, or the end of a call whose lease is gone. */
    method Advance(store: ChannelStore.Store, m: Mark, next: Phase, now: int)
      requires started
      modifies `phase, `result, `uploadKey, store`outbox
      ensures (store.outbox, Value()) == OutboxDelivery.Advance(old(store.outbox), old(Value()), m, next, now)
    {
      OneRow(store.outbox, MarkOp(row, claim, m, now), row);
      var ok := store.TransitionClaimed(row, claim, m, now);
      if !ok {
        Finish(Some(LeaseLost(store.outbox, row)));
        return;
      }
      if m.MarkUploaded? {
        uploadKey := Some(m.key);
      }
      phase := next;
    }

    /** The outer catch: classify by the stored status, persist, report. */
    method Fail(store: ChannelStore.Store, rejected: bool, retryAt: Option<int>, now: int)
      requires started
      modifies `phase, `result, store`outbox
      ensures (store.outbox, Value()) == FailWith(old(store.outbox), old(Value()), rejected, retryAt, now)
    {
      if row !in store.outbox {
        Finish(Some(LeaseLost(store.outbox, row)));
        return;
      }
      var uncertain := store.outbox[row].status == Sending && !rejected;
      var at := if rejected && !config.failInsteadOfWait then retryAt else None;
      OneRow(store.outbox, FailOp(row, claim, "delivery error", at, uncertain, now), row);
      var ok := store.FailOutbox(row, claim, "delivery error", at, uncertain, now);
      if ok {
        Finish(Some(ResultOf(row, store.outbox[row])));
      } else {
        Finish(Some(LeaseLost(store.outbox, row)));
      }
    }

    method Complete(store: ChannelStore.Store, messageId: string, now: int)
      requires started
      modifies `phase, `result, store`outbox
      ensures (store.outbox, Value()) == Acknowledge(old(store.outbox), old(Value()), messageId, now)
    {
      OneRow(store.outbox, CompleteOp(row, claim, messageId, now), row);
      var ok := store.CompleteOutbox(row, claim, messageId, now);
      if ok {
        phase := AtDelivered;
      } else {
        Finish(Some(LeaseLost(store.outbox, row)));
      }
    }

    /** An `afterPersist` hook returned; answers whether the call ended there. */
    method HookFailed(store: ChannelStore.Store, s: Signal, now: int) returns (stop: bool)
      requires started
      modifies `phase, `result, store`outbox
      ensures stop <==> s.Die? || s.Reject? || s.Break?
      ensures !stop ==> store.outbox == old(store.outbox) && Value() == old(Value())
      ensures stop ==> (store.outbox, Value()) == AfterHook(old(store.outbox), old(Value()), s, (old(store.outbox), old(Value())), now)
    {
      if s.Die? {
        Finish(None);
        return true;
      }
      if s.Reject? || s.Break? {
        Fail(store, s.Reject?, if s.Reject? then s.retryAt else None, now);
        return true;
      }
      return false;
    }

    method UploadAnswered(store: ChannelStore.Store, s: Signal, now: int)
      requires started
      modifies `phase, `result, `uploadKey, store`outbox
      ensures (store.outbox, Value()) == UploadReturned(old(store.outbox), old(Value()), s, now)
    {
      if s.Die? {
        Finish(None);
      } else if s.Reject? {
        Fail(store, true, s.retryAt, now);
      } else if s.Reply? && Trim(s.text) == "" {
        Fail(store, true, None, now);
      } else if s.Reply? {
        Advance(store, MarkUploaded(Trim(s.text)), AtUploaded, now);
      } else {
        Fail(store, false, None, now);
      }
    }

    method FirstAnswered(store: ChannelStore.Store, s: Signal, aborted: bool, now: int)
      requires started
      modifies `phase, `result, `first, store`outbox
      ensures (store.outbox, Value()) == FirstSendReturned(old(store.outbox), old(Value()), s, aborted, now)
    {
      if s.Die? {
        Finish(None);
      } else if Receipt(s) {
        first := Acknowledged;
        Complete(store, Trim(s.text), now);
      } else if s.Reject? {
        first := Rejected;
        Fail(store, true, s.retryAt, now);
      } else if config.replayOnce && row in store.outbox && store.outbox[row].status == Sending && !aborted {
        phase, first := ReplayWait, Ambiguous;
      } else {
        first := Ambiguous;
        Fail(store, false, None, now);
      }
    }

    method ReplayAnswered(store: ChannelStore.Store, s: Signal, now: int)
      requires started
      modifies `phase, `result, `first, `second, store`outbox
      ensures (store.outbox, Value()) == ReplayReturned(old(store.outbox), old(Value()), s, now)
    {
      if s.Die? {
        Finish(None);
      } else if Receipt(s) {
        second := Acknowledged;
        Complete(store, Trim(s.text), now);
      } else if s.Reject? && s.authoritative {
        first, second := Retracted, Rejected;
        Fail(store, true, s.retryAt, now);
      } else {
        second := if s.Reject? then Rejected else Ambiguous;
        Fail(store, false, None, now);
      }
    }
  }
}
