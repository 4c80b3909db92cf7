/**
 * A whole reconciliation pass: the listed cards are visited one after the
 * other, each visit seeing what the ones before it left, and the bulk
 * statements on the turns follow at the end.
 */
module RecoveryPass {
  import opened Options
  import opened ChannelDb
  import opened CardRecovery
  import opened RecoveryBudget
  import opened RecoveryLimits
  import opened RecoveryVisit
  import Turns = TurnTable
  import Cards = CardTable

  /** A card as it was listed: its revision may have moved on since, its provider, turn and creation never do. */
  datatype Listed = Listed(id: string, revision: nat, provider: string, turn: string, createdAt: int)

  predicate TrueTo(l: Listed, db: Db) {
    l.id in db.cards ==> db.cards[l.id].provider == l.provider && db.cards[l.id].turn == l.turn && db.cards[l.id].createdAt == l.createdAt
  }

  ghost function VisitsEvents(w: World, cards: seq<Listed>, look: Look, visits: seq<Visit>): seq<Event>
    requires |visits| == |cards|
    decreases |cards|
  {
    if cards == [] then []
    else
      var n := |cards| - 1;
      var front := VisitsEvents(w, cards[..n], look, visits[..n]);
      front + VisitEvents(RunAll(w, front).db, cards[n].id, cards[n].revision, look, visits[n])
  }

  /** The world when visit `i` begins; with `i` the number of cards, when the last one is over. */
  ghost function Before(w: World, cards: seq<Listed>, look: Look, visits: seq<Visit>, i: nat): World
    requires |visits| == |cards| && i <= |cards|
  {
    RunAll(w, VisitsEvents(w, cards[..i], look, visits[..i]))
  }

  /** At startup turns with a visible effect are fenced; every pass reaps expired execution leases. */
  function Bulk(look: Look, fenceAt: int, reapAt: int): seq<Event> {
    (if look.live then [] else [Aside(OnTurn(Turns.FenceAllOp(fenceAt)))]) + [Aside(OnTurn(Turns.InterruptExpiredOp(reapAt)))]
  }

  ghost function PassEvents(w: World, cards: seq<Listed>, look: Look, visits: seq<Visit>, fenceAt: int, reapAt: int): seq<Event>
    requires |visits| == |cards|
  {
    VisitsEvents(w, cards, look, visits) + Bulk(look, fenceAt, reapAt)
  }

  // ---- what the pass reports ----

  datatype Verdict = Reconciled | Deferred | Passed

  /** How a visit counts: closed, left for later, or not this pass's business. The first three questions are put to the listing. */
  function VerdictOf(db: Db, l: Listed, look: Look, v: Visit): Verdict {
    if l.provider != "feishu" then Deferred
    else if ActiveLease(db, l.turn, look.seen) then (if look.live then Passed else Deferred)
    else if look.live && look.createdBefore.Some? && l.createdAt > look.createdBefore.value then Passed
    else if l.id !in db.cards then Passed
    else
      var r := db.cards[l.id];
      if Cards.ClaimRecoveryRow(r, l.revision, v.claimAt, LEASE_MS) == None then (if Cards.Terminal(r.status) then Passed else Deferred)
      else if CardEnd(r, TurnCompletes(db, r.turn), v).0 == Cards.Streaming then Deferred
      else Reconciled
  }

  /** How many visits of the pass came to a verdict. */
  ghost function Tally(w: World, cards: seq<Listed>, look: Look, visits: seq<Visit>, verdict: Verdict): nat
    requires |visits| == |cards|
    decreases |cards|
  {
    if cards == [] then 0
    else
      var n := |cards| - 1;
      Tally(w, cards[..n], look, visits[..n], verdict)
      + if VerdictOf(Before(w, cards, look, visits, n).db, cards[n], look, visits[n]) == verdict then 1 else 0
  }

  /** The turns the visits interrupted. */
  ghost function Fenced(w: World, cards: seq<Listed>, look: Look, visits: seq<Visit>): set<string>
    requires |visits| == |cards|
    decreases |cards|
  {
    if cards == [] then {}
    else
      var n := |cards| - 1;
      var db := Before(w, cards, look, visits, n).db;
      Fenced(w, cards[..n], look, visits[..n])
      + if Interrupts(db, cards[n].id, cards[n].revision, look, visits[n]) then {cards[n].turn} else {}
  }

  lemma FencedNext(w: World, cards: seq<Listed>, look: Look, visits: seq<Visit>, i: nat)
    requires |visits| == |cards| && i < |cards|
    ensures Fenced(w, cards[..i + 1], look, visits[..i + 1]) ==
            Fenced(w, cards[..i], look, visits[..i])
            + if Interrupts(Before(w, cards, look, visits, i).db, cards[i].id, cards[i].revision, look, visits[i]) then {cards[i].turn} else {}
  {
    var some, these := cards[..i + 1], visits[..i + 1];
    assert some[..i] == cards[..i] && these[..i] == visits[..i];
  }

  /** All turns a pass interrupted: by its visits, at startup by the fence, and by reaping. */
  ghost function InterruptedTurns(w: World, cards: seq<Listed>, look: Look, visits: seq<Visit>, fenceAt: int, reapAt: int): nat
    requires |visits| == |cards|
  {
    var db := RunAll(w, VisitsEvents(w, cards, look, visits)).db;
    var fenced := if look.live then db else Apply(db, OnTurn(Turns.FenceAllOp(fenceAt)));
    |Fenced(w, cards, look, visits)| + (if look.live then 0 else |ToFence(db, fenceAt)|) + |ToExpire(fenced.turns, reapAt)|
  }

  lemma TallyNext(w: World, cards: seq<Listed>, look: Look, visits: seq<Visit>, i: nat, verdict: Verdict)
    requires |visits| == |cards| && i < |cards|
    ensures Tally(w, cards[..i + 1], look, visits[..i + 1], verdict) ==
            Tally(w, cards[..i], look, visits[..i], verdict)
            + if VerdictOf(Before(w, cards, look, visits, i).db, cards[i], look, visits[i]) == verdict then 1 else 0
  {
    var some, these := cards[..i + 1], visits[..i + 1];
    assert some[..i] == cards[..i] && these[..i] == visits[..i];
  }

  // ---- visits follow one another ----

  /** The world after visit `i`. */
  lemma NextVisit(w: World, cards: seq<Listed>, look: Look, visits: seq<Visit>, i: nat)
    requires |visits| == |cards| && i < |cards|
    ensures var b := Before(w, cards, look, visits, i);
            Before(w, cards, look, visits, i + 1) == RunAll(b, VisitEvents(b.db, cards[i].id, cards[i].revision, look, visits[i]))
  {
    var some, these := cards[..i + 1], visits[..i + 1];
    assert some[..i] == cards[..i] && these[..i] == visits[..i];
    var front := VisitsEvents(w, cards[..i], look, visits[..i]);
    RunJoined(w, front, VisitEvents(RunAll(w, front).db, cards[i].id, cards[i].revision, look, visits[i]));
  }

  lemma {:induction false} NothingUnderWay(w: World, cards: seq<Listed>, look: Look, visits: seq<Visit>, i: nat)
    requires |visits| == |cards| && i <= |cards| && w.procs == map[]
    ensures Before(w, cards, look, visits, i).procs == map[]
  {
    if i > 0 {
      NothingUnderWay(w, cards, look, visits, i - 1);
      NextVisit(w, cards, look, visits, i - 1);
      VisitIs(Before(w, cards, look, visits, i - 1), cards[i - 1].id, cards[i - 1].revision, look, visits[i - 1]);
    }
  }

  /** A visit does to the tables what its answers say, or nothing if the card is not to be taken. */
  lemma EachVisit(w: World, cards: seq<Listed>, look: Look, visits: seq<Visit>, i: nat)
    requires |visits| == |cards| && i < |cards| && w.procs == map[]
    ensures var b, a := Before(w, cards, look, visits, i), Before(w, cards, look, visits, i + 1);
            if Takes(b.db, cards[i].id, cards[i].revision, look, visits[i]) then Visited(b.db, a.db, cards[i].id, visits[i]) else a == b
  {
    NothingUnderWay(w, cards, look, visits, i);
    NextVisit(w, cards, look, visits, i);
    VisitIs(Before(w, cards, look, visits, i), cards[i].id, cards[i].revision, look, visits[i]);
  }

  /** A listing stays true over the pass. */
  lemma {:induction false} ListingStays(w: World, cards: seq<Listed>, look: Look, visits: seq<Visit>, i: nat, l: Listed)
    requires |visits| == |cards| && i <= |cards| && w.procs == map[] && TrueTo(l, w.db)
    ensures TrueTo(l, Before(w, cards, look, visits, i).db)
  {
    if i == 0 {
      assert cards[..0] == [] && visits[..0] == [] && RunAll(w, []) == w;
    } else {
      ListingStays(w, cards, look, visits, i - 1, l);
      EachVisit(w, cards, look, visits, i - 1);
    }
  }

  // ---- passes do not overlap with themselves ----

  lemma VisitIsSequential(w: World, id: string, revision: nat, look: Look, v: Visit, card: string)
    requires w.procs == map[]
    ensures Sequential(w, VisitEvents(w.db, id, revision, look, v), card)
  {
    var events := VisitEvents(w.db, id, revision, look, v);
    forall k | 0 <= k < |events| ensures Orderly(RunAll(w, events[..k]), events[k], card) {
      if k == 0 {
        assert events[..k] == [];
      }
    }
  }

  lemma {:induction false} VisitsAreSequential(w: World, cards: seq<Listed>, look: Look, visits: seq<Visit>, card: string)
    requires |visits| == |cards| && w.procs == map[]
    ensures Sequential(w, VisitsEvents(w, cards, look, visits), card)
    decreases |cards|
  {
    if cards != [] {
      var n := |cards| - 1;
      var front := VisitsEvents(w, cards[..n], look, visits[..n]);
      VisitsAreSequential(w, cards[..n], look, visits[..n], card);
      NothingUnderWay(w, cards, look, visits, n);
      VisitIsSequential(RunAll(w, front), cards[n].id, cards[n].revision, look, visits[n], card);
      SequentialJoined(w, front, VisitEvents(RunAll(w, front).db, cards[n].id, cards[n].revision, look, visits[n]), card);
    }
  }

  lemma BulkIsSequential(w: World, look: Look, fenceAt: int, reapAt: int, card: string)
    ensures Sequential(w, Bulk(look, fenceAt, reapAt), card)
  {
    var events := Bulk(look, fenceAt, reapAt);
    forall k | 0 <= k < |events| ensures Orderly(RunAll(w, events[..k]), events[k], card) {
      OrdinaryTrafficSpares(RunAll(w, events[..k]).db, events[k].op, card);
    }
  }

  /** So the attempt budget of every card covers a pass. */
  lemma PassIsSequential(w: World, cards: seq<Listed>, look: Look, visits: seq<Visit>, fenceAt: int, reapAt: int, card: string)
    requires |visits| == |cards| && w.procs == map[]
    ensures Sequential(w, PassEvents(w, cards, look, visits, fenceAt, reapAt), card)
  {
    VisitsAreSequential(w, cards, look, visits, card);
    BulkIsSequential(RunAll(w, VisitsEvents(w, cards, look, visits)), look, fenceAt, reapAt, card);
    SequentialJoined(w, VisitsEvents(w, cards, look, visits), Bulk(look, fenceAt, reapAt), card);
  }

  // ---- what the pass comes to ----

  predicate SameCard(b: Db, a: Db, id: string) {
    (id in a.cards <==> id in b.cards) && (id in b.cards ==> a.cards[id] == b.cards[id])
  }

  /** A card is touched by its own visit only. */
  lemma {:induction false} Untouched(w: World, cards: seq<Listed>, look: Look, visits: seq<Visit>, i: nat, j: nat, id: string)
    requires |visits| == |cards| && i <= j <= |cards| && w.procs == map[]
    requires forall k | i <= k < j :: cards[k].id != id
    ensures SameCard(Before(w, cards, look, visits, i).db, Before(w, cards, look, visits, j).db, id)
    decreases j - i
  {
    if i < j {
      Untouched(w, cards, look, visits, i, j - 1, id);
      EachVisit(w, cards, look, visits, j - 1);
    }
  }

  /** An outside statement that creates no card. */
  lemma AsideDb(w: World, op: Op)
    requires op.OnTurn?
    ensures RunAll(w, [Aside(op)]).db == Apply(w.db, op)
  {
    RunOne(w, Aside(op));
    assert Applies(w, Aside(op));
  }

  lemma BulkDb(w: World, look: Look, fenceAt: int, reapAt: int)
    ensures RunAll(w, Bulk(look, fenceAt, reapAt)).db ==
            Apply(if look.live then w.db else Apply(w.db, OnTurn(Turns.FenceAllOp(fenceAt))), OnTurn(Turns.InterruptExpiredOp(reapAt)))
  {
    var fence, reap := Aside(OnTurn(Turns.FenceAllOp(fenceAt))), Aside(OnTurn(Turns.InterruptExpiredOp(reapAt)));
    if look.live {
      assert Bulk(look, fenceAt, reapAt) == [reap];
      AsideDb(w, reap.op);
    } else {
      AsideDb(w, fence.op);
      AsideDb(RunAll(w, [fence]), reap.op);
      RunJoined(w, [fence], [reap]);
    }
  }

  lemma PassDb(w: World, cards: seq<Listed>, look: Look, visits: seq<Visit>, fenceAt: int, reapAt: int)
    requires |visits| == |cards|
    ensures var b := RunAll(w, VisitsEvents(w, cards, look, visits));
            RunAll(w, PassEvents(w, cards, look, visits, fenceAt, reapAt)).db ==
            Apply(if look.live then b.db else Apply(b.db, OnTurn(Turns.FenceAllOp(fenceAt))), OnTurn(Turns.InterruptExpiredOp(reapAt)))
  {
    RunJoined(w, VisitsEvents(w, cards, look, visits), Bulk(look, fenceAt, reapAt));
    BulkDb(RunAll(w, VisitsEvents(w, cards, look, visits)), look, fenceAt, reapAt);
  }

  /** From `start` to `end` the card went through one visit only, which met the tables `b`. */
  predicate EndsAsVisited(start: Db, b: Db, end: Db, card: Listed, look: Look, v: Visit) {
    if Takes(b, card.id, card.revision, look, v) then
      card.id in start.cards && card.id in end.cards
      && CardVisited(start.cards[card.id], end.cards[card.id], TurnCompletes(b, start.cards[card.id].turn), v)
    else SameCard(start, end, card.id)
  }

  lemma OwnVisitOnly(w: World, cards: seq<Listed>, look: Look, visits: seq<Visit>, i: nat)
    requires |visits| == |cards| && i < |cards| && w.procs == map[]
    requires forall j, k | 0 <= j < k < |cards| :: cards[j].id != cards[k].id
    ensures EndsAsVisited(Before(w, cards, look, visits, 0).db, Before(w, cards, look, visits, i).db,
                          Before(w, cards, look, visits, |cards|).db, cards[i], look, visits[i])
  {
    Untouched(w, cards, look, visits, 0, i, cards[i].id);
    EachVisit(w, cards, look, visits, i);
    Untouched(w, cards, look, visits, i + 1, |cards|, cards[i].id);
  }

  lemma PassEnds(w: World, cards: seq<Listed>, look: Look, visits: seq<Visit>, fenceAt: int, reapAt: int)
    requires |visits| == |cards|
    ensures Before(w, cards, look, visits, 0) == w
    ensures RunAll(w, PassEvents(w, cards, look, visits, fenceAt, reapAt)).db.cards == Before(w, cards, look, visits, |cards|).db.cards
  {
    assert cards[..0] == [] && visits[..0] == [] && RunAll(w, []) == w;
    assert cards[..|cards|] == cards && visits[..|cards|] == visits;
    PassDb(w, cards, look, visits, fenceAt, reapAt);
  }

  /**
   * With every card listed once, each listed card ends the pass as its own visit
   * left it: as the answers say if it was to be taken, else as it was stored.
   */
  lemma PassOutcome(w: World, cards: seq<Listed>, look: Look, visits: seq<Visit>, fenceAt: int, reapAt: int, i: nat)
    requires |visits| == |cards| && i < |cards| && w.procs == map[]
    requires forall j, k | 0 <= j < k < |cards| :: cards[j].id != cards[k].id
    ensures EndsAsVisited(w.db, Before(w, cards, look, visits, i).db, RunAll(w, PassEvents(w, cards, look, visits, fenceAt, reapAt)).db,
                          cards[i], look, visits[i])
  {
    OwnVisitOnly(w, cards, look, visits, i);
    PassEnds(w, cards, look, visits, fenceAt, reapAt);
  }

  predicate Guarded(db: Db, turn: string, fenceAt: int, reapAt: int) {
    turn in db.turns && !Turns.Terminal(db.turns[turn].status) && DeliveredEffect(db, turn) ==>
      Turns.LeaseLive(db.turns[turn], fenceAt) && Turns.LeaseLive(db.turns[turn], reapAt)
  }

  /** After a startup pass every open turn with a visible effect holds an execution lease that has not run out. */
  lemma StartupPassFences(w: World, cards: seq<Listed>, look: Look, visits: seq<Visit>, fenceAt: int, reapAt: int, turn: string)
    requires |visits| == |cards| && !look.live && Agrees(w)
    ensures Guarded(RunAll(w, PassEvents(w, cards, look, visits, fenceAt, reapAt)).db, turn, fenceAt, reapAt)
  {
    AlwaysAgrees(w, VisitsEvents(w, cards, look, visits));
    PassDb(w, cards, look, visits, fenceAt, reapAt);
    FencedAndReaped(RunAll(w, VisitsEvents(w, cards, look, visits)).db, fenceAt, reapAt, turn);
  }

  lemma FencedAndReaped(db: Db, fenceAt: int, reapAt: int, turn: string)
    requires Consistent(db)
    ensures Guarded(Apply(Apply(db, OnTurn(Turns.FenceAllOp(fenceAt))), OnTurn(Turns.InterruptExpiredOp(reapAt))), turn, fenceAt, reapAt)
  {
    StartupPass(db, fenceAt, reapAt, turn);
  }
}
