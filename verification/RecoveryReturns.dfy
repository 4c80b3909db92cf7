/**
 * What becomes of a recovery that died: the card it left behind can be claimed
 * again from some moment on, in every state of every run after the crash, and
 * the next recovery of the turn comes to the same conclusion and, undisturbed,
 * to the same end.
 */
module RecoveryReturns {
  import opened Options
  import opened ChannelDb
  import opened CardRecovery
  import Turns = TurnTable
  import Cards = CardTable

  // ---- claimable again ----

  ghost predicate OpenCard(w: World, card: string) {
    card in w.db.cards && !Cards.Terminal(w.db.cards[card].status)
  }

  /** A card of the provider that is open is claimed exactly when its turn has no live lease, a live pass may have it, and an earlier recovery is stale. */
  lemma ClaimedExactlyWhen(w: World, p: nat, card: string, live: bool, before: Option<int>, seen: int, now: int)
    requires Agrees(w) && p !in w.procs && OpenCard(w, card) && w.providerOf(card) == "feishu"
    ensures var r := w.db.cards[card]; var v := Step(w, Begin(p, card, r.revision, live, before, seen, now));
            (p in v.procs <==> !ActiveLease(w.db, w.turnOf(card), seen)
                               && (live && before.Some? ==> r.createdAt <= before.value)
                               && (r.status == Cards.Recovering ==> r.updatedAt <= now - LEASE_MS))
            && (p in v.procs ==> v.procs[p].card == card && v.procs[p].phase == Claimed && v.procs[p].claimed.snapshot == r.snapshot)
  {
  }

  /** Whoever comes at or after `from`, with a free process, claims the card. */
  ghost predicate ClaimableFrom(w: World, card: string, from: int) {
    card in w.db.cards
    && forall p: nat, live: bool, before: Option<int>, seen: int, now: int |
         p !in w.procs && from <= seen && from <= now && (live && before.Some? ==> w.db.cards[card].createdAt <= before.value) ::
         p in Step(w, Begin(p, card, w.db.cards[card].revision, live, before, seen, now)).procs
  }

  lemma OpenCardIsClaimable(w: World, card: string) returns (from: int)
    requires Agrees(w) && OpenCard(w, card) && w.providerOf(card) == "feishu"
    ensures ClaimableFrom(w, card, from)
  {
    var r := w.db.cards[card];
    var stale := r.updatedAt + LEASE_MS;
    var turn := w.turnOf(card);
    var expired := if turn in w.db.turns && w.db.turns[turn].expires.Some? then w.db.turns[turn].expires.value else stale;
    from := if expired > stale then expired else stale;
    forall p: nat, live: bool, before: Option<int>, seen: int, now: int |
      p !in w.procs && from <= seen && from <= now && (live && before.Some? ==> r.createdAt <= before.value)
      ensures p in Step(w, Begin(p, card, r.revision, live, before, seen, now)).procs
    {
      ClaimedExactlyWhen(w, p, card, live, before, seen, now);
    }
  }

  /**
   * A recovery may die at any of its cut points, with or without a persisted
   * reply, and anything may happen afterwards: as long as its card is stored and
   * open, some moment comes from which on the next pass claims it.
   */
  lemma CrashedRecoveryIsClaimable(w: World, p: nat, events: seq<Event>) returns (from: int)
    requires Agrees(w) && p in w.procs
    ensures var v := RunAll(Step(w, Crash(p)), events); var card := w.procs[p].card;
            OpenCard(v, card) ==> ClaimableFrom(v, card, from)
  {
    var card := w.procs[p].card;
    var v := RunAll(Step(w, Crash(p)), events);
    assert ProcOk(w, w.procs[p]);
    StepAgrees(w, Crash(p));
    AlwaysAgrees(Step(w, Crash(p)), events);
    from := 0;
    if OpenCard(v, card) {
      from := OpenCardIsClaimable(v, card);
    }
  }

  // ---- the same conclusion ----

  lemma StatementKeepsClosedTurn(db: Db, op: Op, turn: string)
    requires Consistent(db) && turn in db.turns && Turns.Terminal(db.turns[turn].status)
    ensures turn in Apply(db, op).turns && Apply(db, op).turns[turn].status == db.turns[turn].status
  {
    if op.OnTurn? {
      TurnAfter(db, op.t, turn);
      Turns.TerminalKept(db.turns[turn], op.t, turn, EffectsOf(db, turn));
    }
  }

  lemma StepKeepsClosedTurn(w: World, e: Event, turn: string)
    requires Agrees(w) && turn in w.db.turns && Turns.Terminal(w.db.turns[turn].status)
    ensures turn in Step(w, e).db.turns && Step(w, e).db.turns[turn].status == w.db.turns[turn].status
  {
    if Applies(w, e) && PlanOf(w, e).op.Some? {
      StatementKeepsClosedTurn(w.db, PlanOf(w, e).op.value, turn);
    }
  }

  lemma {:induction false} ClosedTurnStays(w: World, events: seq<Event>, turn: string)
    requires Agrees(w) && turn in w.db.turns && Turns.Terminal(w.db.turns[turn].status)
    ensures turn in RunAll(w, events).db.turns && RunAll(w, events).db.turns[turn].status == w.db.turns[turn].status
    decreases |events|
  {
    if events != [] {
      ClosedTurnStays(w, events[..|events| - 1], turn);
      AlwaysAgrees(w, events[..|events| - 1]);
      StepKeepsClosedTurn(RunAll(w, events[..|events| - 1]), events[|events| - 1], turn);
    }
  }

  /** Whether a recovery that decides now may mark its card completed. */
  ghost function Conclusion(w: World, p: nat, persisted: bool, now: int): bool
    requires p in w.procs && w.procs[p].phase == Claimed && HasIdentity(w.procs[p].claimed)
  {
    Step(w, Decide(p, persisted, now)).procs[p].complete
  }

  lemma ConclusionIs(w: World, p: nat, persisted: bool, now: int)
    requires Agrees(w) && p in w.procs && w.procs[p].phase == Claimed && HasIdentity(w.procs[p].claimed)
    ensures Conclusion(w, p, persisted, now) == (persisted && TurnCompletes(w.db, w.procs[p].claimed.turn))
  {
  }

  /** Deciding on a persisted reply closes the turn, as completed exactly when that is the conclusion. */
  lemma DecideCloses(w: World, p: nat, now: int)
    requires Agrees(w) && p in w.procs && w.procs[p].phase == Claimed && HasIdentity(w.procs[p].claimed)
    requires w.procs[p].claimed.turn in w.db.turns
    ensures var u := Step(w, Decide(p, true, now)); var turn := w.procs[p].claimed.turn;
            turn in u.db.turns && Turns.Terminal(u.db.turns[turn].status) && TurnCompletes(u.db, turn) == TurnCompletes(w.db, turn)
  {
    TurnAfter(w.db, Turns.CompleteRecoveredOp(w.procs[p].claimed.turn, now), w.procs[p].claimed.turn);
  }

  /** What the turn lets later recoveries conclude is what it let the first one conclude. */
  lemma ConclusionStays(w: World, p: nat, persisted: bool, now: int, events: seq<Event>)
    requires Agrees(w) && p in w.procs && w.procs[p].phase == Claimed && HasIdentity(w.procs[p].claimed)
    requires w.procs[p].claimed.turn in w.db.turns
    ensures var v := RunAll(Step(w, Decide(p, persisted, now)), events);
            (persisted && TurnCompletes(v.db, w.procs[p].claimed.turn)) == Conclusion(w, p, persisted, now)
  {
    ConclusionIs(w, p, persisted, now);
    if persisted {
      DecideCloses(w, p, now);
      StepAgrees(w, Decide(p, persisted, now));
      ClosedTurnStays(Step(w, Decide(p, persisted, now)), events, w.procs[p].claimed.turn);
    }
  }

  /**
   * Once one recovery of a turn has decided, every later one with the same
   * answer about the persisted reply decides the same, whatever happened in
   * between and wherever the first one died.
   */
  lemma LaterRecoveriesConcludeTheSame(w: World, p: nat, persisted: bool, now: int, events: seq<Event>, q: nat, later: int)
    requires Agrees(w) && p in w.procs && w.procs[p].phase == Claimed && HasIdentity(w.procs[p].claimed)
    requires w.procs[p].claimed.turn in w.db.turns
    requires var v := RunAll(Step(w, Decide(p, persisted, now)), events);
             q in v.procs && v.procs[q].phase == Claimed && HasIdentity(v.procs[q].claimed)
             && v.procs[q].claimed.turn == w.procs[p].claimed.turn
    ensures Conclusion(RunAll(Step(w, Decide(p, persisted, now)), events), q, persisted, later) == Conclusion(w, p, persisted, now)
  {
    StepAgrees(w, Decide(p, persisted, now));
    AlwaysAgrees(Step(w, Decide(p, persisted, now)), events);
    ConclusionStays(w, p, persisted, now, events);
    ConclusionIs(RunAll(Step(w, Decide(p, persisted, now)), events), q, persisted, later);
  }

  /** A turn that ended otherwise than completed never lends its name to a completed card again. */
  lemma ClosedOtherwiseNeverCompletes(w: World, turn: string, events: seq<Event>, q: nat, persisted: bool, later: int)
    requires Agrees(w) && turn in w.db.turns && Turns.Terminal(w.db.turns[turn].status) && w.db.turns[turn].status != Turns.Completed
    requires var v := RunAll(w, events);
             q in v.procs && v.procs[q].phase == Claimed && HasIdentity(v.procs[q].claimed) && v.procs[q].claimed.turn == turn
    ensures !Conclusion(RunAll(w, events), q, persisted, later)
  {
    AlwaysAgrees(w, events);
    ClosedTurnStays(w, events, turn);
    ConclusionIs(RunAll(w, events), q, persisted, later);
  }

  // ---- the same end ----

  /** A recovery nobody disturbs and the provider follows. */
  function Undisturbed(q: nat, card: string, revision: nat, now: int, persisted: bool, version: nat): seq<Event> {
    [Begin(q, card, revision, false, None, now, now), Decide(q, persisted, now), Answer(q, Rewritten(version)), Settle(q, now)]
  }

  lemma RunFour(w: World, a: Event, b: Event, c: Event, d: Event)
    ensures RunAll(w, [a, b, c, d]) == Step(Step(Step(Step(w, a), b), c), d)
  {
    var s := [a, b, c, d];
    assert s[..|s| - 1] == [a, b, c];
    assert [a, b, c][..|[a, b, c]| - 1] == [a, b];
    assert [a, b][..|[a, b]| - 1] == [a];
    assert [a][..|[a]| - 1] == [];
    assert RunAll(w, []) == w;
    assert RunAll(w, [a]) == Step(w, a);
    assert RunAll(w, [a, b]) == Step(Step(w, a), b);
    assert RunAll(w, [a, b, c]) == Step(Step(Step(w, a), b), c);
  }

  lemma UndisturbedClaims(w: World, q: nat, card: string, now: int)
    requires Agrees(w) && q !in w.procs && OpenCard(w, card)
    requires q in Step(w, Begin(q, card, w.db.cards[card].revision, false, None, now, now)).procs
    ensures var a := Step(w, Begin(q, card, w.db.cards[card].revision, false, None, now, now));
            a.procs[q].card == card && a.procs[q].phase == Claimed && !a.procs[q].complete
            && HasIdentity(a.procs[q].claimed) == HasIdentity(w.db.cards[card]) && a.procs[q].claimed.turn == w.turnOf(card)
            && a.db.turns == w.db.turns && Lands(a.db, card, a.procs[q].claimed.revision)
  {
  }

  /** The decision and the provider's answer leave the claim on the card alone. */
  lemma UndisturbedAsks(a: World, q: nat, now: int, persisted: bool, version: nat)
    requires q in a.procs && a.procs[q].phase == Claimed && !a.procs[q].complete && HasIdentity(a.procs[q].claimed)
    ensures var v := Step(Step(a, Decide(q, persisted, now)), Answer(q, Rewritten(version)));
            v.db.cards == a.db.cards && q in v.procs && v.procs[q].card == a.procs[q].card && v.procs[q].claimed == a.procs[q].claimed
            && v.procs[q].phase == Answered(Rewritten(version))
            && v.procs[q].complete == (persisted && TurnCompletes(a.db, a.procs[q].claimed.turn))
  {
    var b := Step(a, Decide(q, persisted, now));
    assert b.db.cards == a.db.cards && b.procs[q].phase == Decided;
  }

  lemma SettlesAs(v: World, q: nat, version: nat, now: int)
    requires q in v.procs && v.procs[q].phase == Answered(Rewritten(version)) && Lands(v.db, v.procs[q].card, v.procs[q].claimed.revision)
    ensures var card := v.procs[q].card; var x := Step(v, Settle(q, now));
            card in x.db.cards && x.db.cards[card].status == (if v.procs[q].complete then Cards.Completed else Cards.Aborted)
  {
  }

  lemma UndisturbedEnds(w: World, q: nat, card: string, now: int, persisted: bool, version: nat)
    requires Agrees(w) && q !in w.procs && OpenCard(w, card) && HasIdentity(w.db.cards[card])
    requires q in Step(w, Begin(q, card, w.db.cards[card].revision, false, None, now, now)).procs
    ensures var x := RunAll(w, Undisturbed(q, card, w.db.cards[card].revision, now, persisted, version));
            card in x.db.cards
            && x.db.cards[card].status == (if persisted && TurnCompletes(w.db, w.turnOf(card)) then Cards.Completed else Cards.Aborted)
  {
    var es := Undisturbed(q, card, w.db.cards[card].revision, now, persisted, version);
    RunFour(w, es[0], es[1], es[2], es[3]);
    UndisturbedClaims(w, q, card, now);
    UndisturbedAsks(Step(w, es[0]), q, now, persisted, version);
    SettlesAs(Step(Step(Step(w, es[0]), es[1]), es[2]), q, version, now);
  }

  /** The recovery that died has left its open card to a later one that ends it as the first had decided. */
  ghost predicate EndsAs(v: World, card: string, now: int, persisted: bool, complete: bool) {
    OpenCard(v, card)
    && forall q: nat, version: nat | q !in v.procs ::
         var x := RunAll(v, Undisturbed(q, card, v.db.cards[card].revision, now, persisted, version));
         card in x.db.cards && x.db.cards[card].status == (if complete then Cards.Completed else Cards.Aborted)
  }

  lemma ClaimableEndsAs(v: World, card: string, from: int, later: int, persisted: bool)
    requires Agrees(v) && OpenCard(v, card) && HasIdentity(v.db.cards[card]) && ClaimableFrom(v, card, from) && from <= later
    ensures EndsAs(v, card, later, persisted, persisted && TurnCompletes(v.db, v.turnOf(card)))
  {
    forall q: nat, version: nat | q !in v.procs
      ensures var x := RunAll(v, Undisturbed(q, card, v.db.cards[card].revision, later, persisted, version));
              card in x.db.cards
              && x.db.cards[card].status == (if persisted && TurnCompletes(v.db, v.turnOf(card)) then Cards.Completed else Cards.Aborted)
    {
      UndisturbedEnds(v, q, card, later, persisted, version);
    }
  }

  /**
   * A recovery that decided and died at any later point: as long as the card is
   * open and still has its provider identity, from some moment on the next
   * undisturbed recovery that gets the same answer about the persisted reply
   * ends the card the way the first one had decided.
   */
  lemma CrashedRecoveryReachesItsEnd(w: World, p: nat, persisted: bool, now: int, events: seq<Event>) returns (from: int)
    requires Agrees(w) && p in w.procs && w.procs[p].phase == Claimed && HasIdentity(w.procs[p].claimed)
    requires w.procs[p].claimed.turn in w.db.turns
    ensures var v := RunAll(Step(w, Decide(p, persisted, now)), events); var card := w.procs[p].card;
            OpenCard(v, card) && HasIdentity(v.db.cards[card]) ==>
              forall later | from <= later :: EndsAs(v, card, later, persisted, Conclusion(w, p, persisted, now))
  {
    var u := Step(w, Decide(p, persisted, now));
    var v, card := RunAll(u, events), w.procs[p].card;
    assert ProcOk(w, w.procs[p]);
    StepAgrees(w, Decide(p, persisted, now));
    AlwaysAgrees(u, events);
    ConclusionStays(w, p, persisted, now, events);
    from := 0;
    if OpenCard(v, card) && HasIdentity(v.db.cards[card]) {
      from := OpenCardIsClaimable(v, card);
      forall later | from <= later ensures EndsAs(v, card, later, persisted, Conclusion(w, p, persisted, now)) {
        ClaimableEndsAs(v, card, from, later, persisted);
      }
    }
  }
}
