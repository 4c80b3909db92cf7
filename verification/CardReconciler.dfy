/**
 * The reconciliation pass as code over the store: one object per card under
 * recovery, one method per stretch between two points at which the process can
 * die, and the sequential loop over the listed cards with the bulk statements
 * after it. Each stretch is proved to be the step of the recovery machine, a
 * visit and the pass to be the runs whose outcome `RecoveryPass` states.
 */
module CardReconciler {
  import opened Options
  import opened ChannelDb
  import opened CardRecovery
  import opened RecoveryVisit
  import opened RecoveryPass
  import Turns = TurnTable
  import Cards = CardTable
  import ChannelStore

  class Recovery {
    var active: bool
    var card: string
    var claimed: Cards.Row
    var phase: Phase
    var complete: bool

    /** The object is process `p` of world `w`, and the store holds its tables. */
    ghost predicate Mirrors(w: World, p: nat, store: ChannelStore.Store)
      reads this, store
    {
      w.db == store.Data() && (active <==> p in w.procs)
      && (active ==> w.procs[p] == Proc(card, claimed, phase, complete))
    }

    constructor ()
      ensures !active
    {
      active, card, phase, complete := false, "", Phase.Claimed, false;
      claimed := Cards.Fresh("", "", None, None, false, 0);
    }

    /** Skip foreign cards, honour execution leases, spare cards of this boot, then claim. */
    method Claim(store: ChannelStore.Store, ghost w: World, ghost p: nat, l: Listed, look: Look, now: int) returns (refusal: Verdict)
      requires Mirrors(w, p, store) && !active && TrueTo(l, w.db)
      modifies this, store`cards
      ensures Mirrors(Step(w, Begin(p, l.id, l.revision, look.live, look.createdBefore, look.seen, now)), p, store)
      ensures active <==> Claims(w.db, l.id, l.revision, look.live, look.createdBefore, look.seen, now)
      ensures active ==> phase == Phase.Claimed && l.id in w.db.cards && HasIdentity(claimed) == HasIdentity(w.db.cards[l.id])
      ensures !active ==> forall v: Visit | v.claimAt == now :: refusal == VerdictOf(w.db, l, look, v)
    {
      if l.provider != "feishu" { return Deferred; }
      if ActiveLease(store.Data(), l.turn, look.seen) { return if look.live then Passed else Deferred; }
      if look.live && look.createdBefore.Some? && l.createdAt > look.createdBefore.value { return Passed; }
      var got := store.ClaimCardRecovery(l.id, l.revision, LEASE_MS, now);
      if got == None { return if l.id in store.cards && !Cards.Terminal(store.cards[l.id].status) then Deferred else Passed; }
      active, card, claimed, phase, complete := true, l.id, got.value, Phase.Claimed, false;
      refusal := Passed;
    }

    /** No provider identity was stored: fence the card for manual reconciliation. */
    method FenceMissing(store: ChannelStore.Store, ghost w: World, ghost p: nat, now: int)
      requires Mirrors(w, p, store) && active && phase == Phase.Claimed && !HasIdentity(claimed)
      modifies this, store`cards
      ensures Mirrors(Step(w, Fence(p, now)), p, store)
      ensures active ==> phase.MustInterrupt?
    {
      var ok := store.UpdateCard(card, claimed.revision, Final(Cards.Failed, None, None, claimed.snapshot, Some(MISSING_IDENTITY)), now);
      if ok {
        phase := MustInterrupt(MISSING_IDENTITY);
      } else {
        active := false;
      }
    }

    /** With a persisted reply the turn has to be completed before the card may say so. */
    method DecideBody(store: ChannelStore.Store, ghost w: World, ghost p: nat, persisted: bool, now: int)
      requires Mirrors(w, p, store) && active && phase == Phase.Claimed && HasIdentity(claimed)
      modifies this, store`turns
      ensures Mirrors(Step(w, Decide(p, persisted, now)), p, store)
      ensures active && phase == Decided
    {
      if persisted {
        var turn := claimed.turn;
        OneTurn(store.Data(), Turns.CompleteRecoveredOp(turn, now), turn);
        var done := store.CompleteRecoveredTurn(turn, now);
        complete := done || (turn in store.turns && store.turns[turn].status == Turns.Completed);
      }
      phase := Decided;
    }

    method ProviderAnswered(store: ChannelStore.Store, ghost w: World, ghost p: nat, reply: Reply)
      requires Mirrors(w, p, store) && active && phase == Decided
      modifies this
      ensures Mirrors(Step(w, Answer(p, reply)), p, store)
      ensures active && phase == Answered(reply)
    {
      phase := Answered(reply);
    }

    /** Finalize under the claimed revision; a refusal or a lost fence counts as a failed attempt. */
    method SettleCard(store: ChannelStore.Store, ghost w: World, ghost p: nat, now: int)
      requires Mirrors(w, p, store) && active && phase.Answered?
      modifies this, store`cards
      ensures Mirrors(Step(w, Settle(p, now)), p, store)
      ensures active ==> phase.MustInterrupt?
    {
      if phase.reply.Refused? {
        GiveUpOrDefer(store, w, p, phase.reply.reached, phase.reply.unavailable, now);
        return;
      }
      var version := phase.reply.version;
      var patch := if complete then Final(Cards.Completed, Some(version), None, claimed.snapshot, None)
      else Final(Cards.Aborted, Some(version), None, claimed.snapshot, Some(INTERRUPTED));
      var ok := store.UpdateCard(card, claimed.revision, patch, now);
      if !ok {
        GiveUpOrDefer(store, w, p, false, false, now);
      } else if complete {
        active := false;
      } else {
        phase := MustInterrupt(CardRecovery.RESTARTED);
      }
    }

    /** The catch block: too many attempts or a target that is gone end the card, anything else releases it with the new count. */
    method GiveUpOrDefer(store: ChannelStore.Store, ghost w: World, ghost p: nat, reached: bool, unavailable: bool, now: int)
      requires w.db == store.Data() && p in w.procs && active && w.procs[p] == Proc(card, claimed, phase, complete)
      modifies this, store`cards
      ensures store.Data() == DbAfter(w.db, FailedPlan(w, p, reached, unavailable, now).op)
      ensures active <==> p in FailedPlan(w, p, reached, unavailable, now).procs
      ensures active ==> FailedPlan(w, p, reached, unavailable, now).procs[p] == Proc(card, claimed, phase, complete) && phase.MustInterrupt?
    {
      if card !in store.cards || store.cards[card].status != Cards.Recovering {
        active := false;
        return;
      }
      var attempts := claimed.snapshot.recoveryAttempts + if reached then 1 else 0;
      if unavailable || attempts >= MAX_ATTEMPTS {
        Close(store, Final(Cards.Failed, None, Some(attempts), claimed.snapshot, Some(GAVE_UP)), now);
        phase := MustInterrupt(GAVE_UP);
      } else {
        Close(store, Final(Cards.Streaming, None, Some(attempts), claimed.snapshot, Some("Deferred recovery")), now);
        active := false;
      }
    }

    /** Writes the card under the revision it has now. */
    method Close(store: ChannelStore.Store, patch: Cards.Patch, now: int)
      requires card in store.cards
      modifies store`cards
      ensures store.Data() == DbAfter(old(store.Data()), CardWrite(card, old(store.cards)[card].revision, patch, now))
    {
      var ok := store.UpdateCard(card, store.cards[card].revision, patch, now);
    }

    method InterruptOwnTurn(store: ChannelStore.Store, ghost w: World, ghost p: nat, now: int) returns (interrupted: bool)
      requires Mirrors(w, p, store) && active && phase.MustInterrupt?
      modifies this, store`turns
      ensures Mirrors(Step(w, Interrupt(p, now)), p, store)
      ensures !active
      ensures var turn := old(claimed.turn); interrupted <==> turn in old(store.turns) && !Turns.Terminal(old(store.turns)[turn].status)
    {
      interrupted := store.InterruptTurn(claimed.turn, phase.reason, now);
      active := false;
    }
  }

  // ---- one card, then all of them ----

  /** One card from the claim to its end, without a crash. */
  method RecoverCard(store: ChannelStore.Store, ghost w: World, l: Listed, look: Look, visit: Visit)
    returns (verdict: Verdict, interrupted: bool)
    requires w.db == store.Data() && w.procs == map[] && TrueTo(l, w.db)
    modifies store
    ensures store.Data() == RunAll(w, VisitEvents(w.db, l.id, l.revision, look, visit)).db
    ensures if Takes(w.db, l.id, l.revision, look, visit) then Visited(w.db, store.Data(), l.id, visit) else store.Data() == w.db
    ensures verdict == VerdictOf(w.db, l, look, visit) && interrupted == Interrupts(w.db, l.id, l.revision, look, visit)
  {
    var r := new Recovery();
    VisitIs(w, l.id, l.revision, look, visit);
    RunOne(w, Opening(l.id, l.revision, look, visit));
    verdict := r.Claim(store, w, 0, l, look, visit.claimAt);
    interrupted := false;
    if r.active {
      interrupted := FinishCard(store, r, w, l, look, visit);
      assert l.id in store.cards;
      verdict := if store.cards[l.id].status == Cards.Streaming then Deferred else Reconciled;
    }
  }

  /** The claimed card up to its end, and the interruption of its turn where that is due. */
  method FinishCard(store: ChannelStore.Store, r: Recovery, ghost w: World, l: Listed, look: Look, visit: Visit) returns (interrupted: bool)
    requires w.procs == map[] && Takes(w.db, l.id, l.revision, look, visit) && HasIdentity(r.claimed) == HasIdentity(w.db.cards[l.id])
    requires r.Mirrors(Step(w, Opening(l.id, l.revision, look, visit)), 0, store) && r.active && r.phase == Phase.Claimed
    modifies r, store
    ensures store.Data() == RunAll(w, VisitEvents(w.db, l.id, l.revision, look, visit)).db
    ensures interrupted == Interrupts(w.db, l.id, l.revision, look, visit)
  {
    ghost var card := w.db.cards[l.id];
    ghost var begun := Step(w, Opening(l.id, l.revision, look, visit));
    VisitFront(w, l.id, l.revision, look, visit);
    InterruptionLands(w.db, l.id, l.revision, look, visit);
    CloseCard(store, r, begun, visit);
    interrupted := false;
    if r.active {
      RunAppend(w, [Opening(l.id, l.revision, look, visit)] + Closing(card, visit), Interrupt(0, visit.interruptAt));
      interrupted := r.InterruptOwnTurn(store, RunAll(begun, Closing(card, visit)), 0, visit.interruptAt);
    }
  }

  /** Fence a card without identity, or close it with the reply. */
  method CloseCard(store: ChannelStore.Store, r: Recovery, ghost v: World, visit: Visit)
    requires r.Mirrors(v, 0, store) && r.active && r.phase == Phase.Claimed
    modifies r, store
    ensures r.Mirrors(RunAll(v, Closing(old(r.claimed), visit)), 0, store) && (r.active ==> r.phase.MustInterrupt?)
  {
    if !HasIdentity(r.claimed) {
      RunOne(v, Fence(0, visit.settleAt));
      r.FenceMissing(store, v, 0, visit.settleAt);
    } else {
      RunThree(v, Decide(0, visit.persisted, visit.decideAt), Answer(0, visit.reply), Settle(0, visit.settleAt));
      r.DecideBody(store, v, 0, visit.persisted, visit.decideAt);
      ghost var a := Step(v, Decide(0, visit.persisted, visit.decideAt));
      r.ProviderAnswered(store, a, 0, visit.reply);
      r.SettleCard(store, Step(a, Answer(0, visit.reply)), 0, visit.settleAt);
    }
  }

  /** The loop over the cards as they were listed, then the bulk statements on the turns. */
  method Pass(store: ChannelStore.Store, ghost w: World, cards: seq<Listed>, look: Look, visits: seq<Visit>, fenceAt: int, reapAt: int)
    returns (reconciled: nat, deferred: nat, interruptedTurns: nat)
    requires w.db == store.Data() && w.procs == map[] && |visits| == |cards| && forall l | l in cards :: TrueTo(l, w.db)
    modifies store
    ensures store.Data() == RunAll(w, PassEvents(w, cards, look, visits, fenceAt, reapAt)).db
    ensures reconciled == Tally(w, cards, look, visits, Reconciled) && deferred == Tally(w, cards, look, visits, Deferred)
    ensures interruptedTurns == InterruptedTurns(w, cards, look, visits, fenceAt, reapAt)
  {
    var fencedTurns: set<string>;
    reconciled, deferred, fencedTurns := VisitAll(store, w, cards, look, visits);
    PassDb(w, cards, look, visits, fenceAt, reapAt);
    interruptedTurns := |fencedTurns|;
    if !look.live {
      var fenced := store.FenceDeliveredTurns(fenceAt);
      interruptedTurns := interruptedTurns + |fenced|;
    }
    var reaped := store.InterruptExpiredTurns(reapAt);
    interruptedTurns := interruptedTurns + reaped;
  }

  method VisitAll(store: ChannelStore.Store, ghost w: World, cards: seq<Listed>, look: Look, visits: seq<Visit>)
    returns (reconciled: nat, deferred: nat, fenced: set<string>)
    requires w.db == store.Data() && w.procs == map[] && |visits| == |cards| && forall l | l in cards :: TrueTo(l, w.db)
    modifies store
    ensures store.Data() == RunAll(w, VisitsEvents(w, cards, look, visits)).db
    ensures reconciled == Tally(w, cards, look, visits, Reconciled) && deferred == Tally(w, cards, look, visits, Deferred)
    ensures fenced == Fenced(w, cards, look, visits)
  {
    reconciled, deferred, fenced := 0, 0, {};
    assert RunAll(w, VisitsEvents(w, cards[..0], look, visits[..0])) == w;
    for i := 0 to |cards|
      invariant store.Data() == Before(w, cards, look, visits, i).db
      invariant reconciled == Tally(w, cards[..i], look, visits[..i], Reconciled)
      invariant deferred == Tally(w, cards[..i], look, visits[..i], Deferred)
      invariant fenced == Fenced(w, cards[..i], look, visits[..i])
    {
      NothingUnderWay(w, cards, look, visits, i);
      NextVisit(w, cards, look, visits, i);
      ListingStays(w, cards, look, visits, i, cards[i]);
      TallyNext(w, cards, look, visits, i, Reconciled);
      TallyNext(w, cards, look, visits, i, Deferred);
      FencedNext(w, cards, look, visits, i);
      var verdict, interrupted := RecoverCard(store, Before(w, cards, look, visits, i), cards[i], look, visits[i]);
      if verdict == Reconciled {
        reconciled := reconciled + 1;
      } else if verdict == Deferred {
        deferred := deferred + 1;
      }
      if interrupted {
        fenced := fenced + {cards[i].turn};
      }
    }
    assert cards[..|cards|] == cards && visits[..|cards|] == visits;
  }
}
