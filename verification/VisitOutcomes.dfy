/**
 * What one undisturbed recovery of a card comes to, told from the stored card,
 * the stored turn and the provider's answer alone.
 */
module VisitOutcomes {
  import opened Options
  import opened ChannelDb
  import opened CardRecovery
  import opened RecoveryVisit
  import opened RecoveryPass
  import Turns = TurnTable
  import Cards = CardTable

  /** The turn is being executed under a lease that has not run out. */
  predicate Protected(db: Db, turn: string, seen: int) {
    turn in db.turns
    && var t := db.turns[turn];
       (t.status == Turns.Running || t.status == Turns.Finalizing) && t.owner.Some? && t.expires.Some? && t.expires.value > seen
  }

  /** A card nobody recovers, or whose recovery has been silent for three quarters of a minute. */
  predicate Free(r: Cards.Row, now: int) {
    r.status == Cards.Creating || r.status == Cards.Streaming || (r.status == Cards.Recovering && now - r.updatedAt >= RECOVERY_LEASE)
  }

  const RECOVERY_LEASE := 45_000

  /**
   * A recovery takes exactly a free card of the provider under the revision
   * listed, whose turn nobody executes, and a live pass only one of the boot
   * backlog.
   */
  lemma TakesExactly(db: Db, id: string, revision: nat, look: Look, v: Visit)
    ensures Takes(db, id, revision, look, v) <==>
              id in db.cards && db.cards[id].provider == "feishu" && db.cards[id].revision == revision && Free(db.cards[id], v.claimAt)
              && !Protected(db, db.cards[id].turn, look.seen)
              && (look.live && look.createdBefore.Some? ==> db.cards[id].createdAt <= look.createdBefore.value)
  {
  }

  predicate Open(s: Turns.Status) {
    s == Turns.Queued || s == Turns.Running || s == Turns.RetryWait || s == Turns.WaitingUser || s == Turns.Finalizing
  }

  /** The provider knows the card by a message or a card id. */
  predicate Known(r: Cards.Row) {
    !(r.messageId == None && r.cardId == None)
  }

  /** Completing the turn succeeds, or it was completed before. */
  predicate Completable(db: Db, turn: string) {
    turn in db.turns && (Open(db.turns[turn].status) || db.turns[turn].status == Turns.Completed)
  }

  function AttemptsAfter(r: Cards.Row, reply: Reply): nat {
    r.snapshot.recoveryAttempts + if reply.Refused? && reply.reached then 1 else 0
  }

  /**
   * The card ends completed exactly when the provider took the rewrite, the
   * reply was persisted and its turn completes; aborted when it took it
   * otherwise; back in the stream when it refused and fewer than five attempts
   * are stored; and failed when it has no identity, the target is gone, or the
   * fifth attempt was refused.
   */
  predicate CardEnds(db: Db, r: Cards.Row, v: Visit, s: Cards.Row) {
    (s.status == Cards.Completed <==> Known(r) && v.reply.Rewritten? && v.persisted && Completable(db, r.turn))
    && (s.status == Cards.Aborted <==> Known(r) && v.reply.Rewritten? && !(v.persisted && Completable(db, r.turn)))
    && (s.status == Cards.Streaming <==> Known(r) && v.reply.Refused? && !v.reply.unavailable && AttemptsAfter(r, v.reply) < 5)
    && (s.status == Cards.Failed <==> !Known(r) || (v.reply.Refused? && (v.reply.unavailable || AttemptsAfter(r, v.reply) >= 5)))
    && s.snapshot.recoveryAttempts == (if Known(r) then AttemptsAfter(r, v.reply) else r.snapshot.recoveryAttempts)
  }

  /**
   * An open turn is completed exactly by a persisted reply of a card the
   * provider knows, left alone exactly when the card goes back to the stream
   * without one, and interrupted otherwise; a closed one stays as it is.
   */
  predicate TurnEnds(t: Turns.Row, r: Cards.Row, v: Visit, u: Turns.Row) {
    (!Open(t.status) ==> u == t)
    && (Open(t.status) ==>
          (u.status == Turns.Completed <==> Known(r) && v.persisted)
          && (u == t <==> Known(r) && !v.persisted && v.reply.Refused? && !v.reply.unavailable && AttemptsAfter(r, v.reply) < 5)
          && (u.status == Turns.Completed || u == t || u.status == Turns.Interrupted))
  }

  lemma VisitedCard(db: Db, r: Cards.Row, v: Visit, s: Cards.Row)
    requires CardVisited(r, s, TurnCompletes(db, r.turn), v)
    ensures CardEnds(db, r, v, s)
  {
  }

  lemma VisitedTurn(t: Turns.Row, r: Cards.Row, v: Visit, u: Turns.Row)
    requires TurnVisited(t, u, r, v)
    ensures TurnEnds(t, r, v, u)
  {
  }

  /** How an undisturbed recovery ends its card and its turn. */
  lemma HowAVisitEnds(w: World, id: string, revision: nat, look: Look, v: Visit)
    requires w.procs == map[] && Takes(w.db, id, revision, look, v)
    ensures var x := RunAll(w, VisitEvents(w.db, id, revision, look, v)).db; var r := w.db.cards[id];
            id in x.cards && CardEnds(w.db, r, v, x.cards[id])
            && (r.turn in w.db.turns ==> r.turn in x.turns && TurnEnds(w.db.turns[r.turn], r, v, x.turns[r.turn]))
  {
    VisitIs(w, id, revision, look, v);
    var x := RunAll(w, VisitEvents(w.db, id, revision, look, v)).db;
    var r := w.db.cards[id];
    VisitedCard(w.db, r, v, x.cards[id]);
    if r.turn in w.db.turns {
      VisitedTurn(w.db.turns[r.turn], r, v, x.turns[r.turn]);
    }
  }

  /** A claimed card the provider knows is never fenced for a missing identity, and one it does not know is never rewritten. */
  lemma IdentityDecides(w: World, p: nat, persisted: bool, now: int)
    requires p in w.procs
    ensures Known(w.procs[p].claimed) ==> Step(w, Fence(p, now)) == w
    ensures !Known(w.procs[p].claimed) ==> Step(w, Decide(p, persisted, now)) == w
  {
  }

  // ---- how a visit counts ----

  predicate OpenCard(s: Cards.Status) {
    s == Cards.Creating || s == Cards.Streaming || s == Cards.Recovering
  }

  /** The listing itself tells that the card is not this pass's business: another provider, a turn being executed, or, for a live pass, a later card. */
  predicate NotMine(db: Db, l: Listed, look: Look) {
    l.provider != "feishu" || Protected(db, l.turn, look.seen)
    || (look.live && look.createdBefore.Some? && l.createdAt > look.createdBefore.value)
  }

  /**
   * A visit counts as reconciled exactly when it closed its card. It counts as
   * deferred for another provider's card, at startup for one whose turn is being
   * executed, and for one that is still open when the visit is over.
   */
  lemma HowAVisitCounts(w: World, l: Listed, look: Look, v: Visit)
    requires w.procs == map[] && TrueTo(l, w.db)
    ensures var x := RunAll(w, VisitEvents(w.db, l.id, l.revision, look, v)).db; var verdict := VerdictOf(w.db, l, look, v);
            (verdict == Reconciled <==> l.id in w.db.cards && l.id in x.cards && OpenCard(w.db.cards[l.id].status) && !OpenCard(x.cards[l.id].status))
            && (verdict == Deferred <==>
                  if l.provider != "feishu" then true
                  else if Protected(w.db, l.turn, look.seen) then !look.live
                  else !NotMine(w.db, l, look) && l.id in x.cards && OpenCard(x.cards[l.id].status))
  {
    TakesExactly(w.db, l.id, l.revision, look, v);
    VisitIs(w, l.id, l.revision, look, v);
    if Takes(w.db, l.id, l.revision, look, v) {
      HowAVisitEnds(w, l.id, l.revision, look, v);
    }
  }

  /** A visit counts a turn as interrupted exactly when it was open and the visit interrupted it. */
  lemma HowATurnCounts(w: World, id: string, revision: nat, look: Look, v: Visit)
    requires w.procs == map[] && id in w.db.cards
    ensures var x := RunAll(w, VisitEvents(w.db, id, revision, look, v)).db; var turn := w.db.cards[id].turn;
            Interrupts(w.db, id, revision, look, v) <==>
            turn in w.db.turns && turn in x.turns && Open(w.db.turns[turn].status) && x.turns[turn].status == Turns.Interrupted
  {
    VisitIs(w, id, revision, look, v);
  }
}
