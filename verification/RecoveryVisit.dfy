/**
 * One visit of the reconciliation pass to one card, without a crash: which
 * events of the recovery machine it consists of, and what it makes of the card
 * and of its turn, told from the tables alone.
 */
module RecoveryVisit {
  import opened Options
  import opened ChannelDb
  import opened CardRecovery
  import Turns = TurnTable
  import Cards = CardTable

  /** What the environment answers during a visit: the clock of each statement, whether a completed reply was persisted, the provider's reply. */
  datatype Visit = Visit(claimAt: int, decideAt: int, settleAt: int, interruptAt: int, persisted: bool, reply: Reply)

  /** How a pass looks at the cards: its mode, the boot cutoff of a live pass, its one reading of the clock. */
  datatype Look = Look(live: bool, createdBefore: Option<int>, seen: int)

  predicate Takes(db: Db, id: string, revision: nat, look: Look, v: Visit) {
    Claims(db, id, revision, look.live, look.createdBefore, look.seen, v.claimAt)
  }

  function Opening(id: string, revision: nat, look: Look, v: Visit): Event {
    Begin(0, id, revision, look.live, look.createdBefore, look.seen, v.claimAt)
  }

  /** What follows the claim up to the end of the card. */
  function Closing(r: Cards.Row, v: Visit): seq<Event> {
    if !HasIdentity(r) then [Fence(0, v.settleAt)]
    else [Decide(0, v.persisted, v.decideAt)] + [Answer(0, v.reply)] + [Settle(0, v.settleAt)]
  }

  /** The card is not given back: its turn is interrupted where the reply did not complete it. */
  predicate MustClose(r: Cards.Row, completes: bool, v: Visit) {
    CardEnd(r, completes, v).0 !in {Cards.Streaming, Cards.Completed}
  }

  function VisitEvents(db: Db, id: string, revision: nat, look: Look, v: Visit): seq<Event> {
    if !Takes(db, id, revision, look, v) then [Opening(id, revision, look, v)]
    else
      var r := db.cards[id];
      [Opening(id, revision, look, v)] + Closing(r, v)
      + (if MustClose(r, TurnCompletes(db, r.turn), v) then [Interrupt(0, v.interruptAt)] else [])
  }

  // ---- what a visit comes to ----

  /** Status and stored count of a claimed card when the visit is over. */
  function CardEnd(r: Cards.Row, completes: bool, v: Visit): (Cards.Status, nat) {
    var n := r.snapshot.recoveryAttempts;
    if !HasIdentity(r) then (Cards.Failed, n)
    else
      match v.reply
      case Rewritten(_) => (if v.persisted && completes then Cards.Completed else Cards.Aborted, n)
      case Refused(reached, unavailable) =>
        var m := if reached then n + 1 else n;
        (if unavailable || m >= MAX_ATTEMPTS then Cards.Failed else Cards.Streaming, m)
  }

  /** Status of its turn: a persisted reply completes it, a card that is given back leaves it, anything else interrupts it. */
  function TurnEnd(t: Turns.Status, r: Cards.Row, v: Visit): Turns.Status {
    if Turns.Terminal(t) then t
    else if HasIdentity(r) && v.persisted then Turns.Completed
    else if CardEnd(r, true, v).0 == Cards.Streaming then t
    else Turns.Interrupted
  }

  /** What the card says about its end: nothing only when it is completed. */
  predicate ErrorVisited(r: Cards.Row, s: Cards.Row) {
    match s.status
    case Completed => s.error == None
    case Aborted => s.error == Some(INTERRUPTED)
    case Failed => s.error == Some(if HasIdentity(r) then GAVE_UP else MISSING_IDENTITY)
    case _ => s.error == Some("Deferred recovery")
  }

  /** Why a visit interrupts the turn. */
  function Reason(r: Cards.Row, v: Visit): string {
    if !HasIdentity(r) then MISSING_IDENTITY else if v.reply.Rewritten? then RESTARTED else GAVE_UP
  }

  predicate CardVisited(r: Cards.Row, s: Cards.Row, completes: bool, v: Visit) {
    (s.status, s.snapshot.recoveryAttempts) == CardEnd(r, completes, v)
    && s.snapshot == r.snapshot.(recoveryAttempts := s.snapshot.recoveryAttempts) && ErrorVisited(r, s)
    && (Cards.Terminal(s.status) ==> s.completedAt == Some(v.settleAt)) && (!Cards.Terminal(s.status) ==> s.completedAt == r.completedAt)
    && s.turn == r.turn && s.provider == r.provider && s.messageId == r.messageId && s.cardId == r.cardId && s.createdAt == r.createdAt
    && s.version == (if HasIdentity(r) && v.reply.Rewritten? then v.reply.version else r.version)
    && s.revision == r.revision + 2
  }

  predicate TurnVisited(t: Turns.Row, u: Turns.Row, r: Cards.Row, v: Visit) {
    u.status == TurnEnd(t.status, r, v) && (u.status == t.status ==> u == t)
    && (u.status == Turns.Interrupted && u != t ==> u.error == Some(Reason(r, v)) && u.completedAt == Some(v.interruptAt))
    && (u.status == Turns.Completed && u != t ==> u.error == None)
  }

  /** A visit touches its card and its turn only, and ends them as the answers say. */
  predicate Visited(before: Db, after: Db, id: string, v: Visit) {
    id in before.cards && after.cards.Keys == before.cards.Keys && after.turns.Keys == before.turns.Keys
    && after.inbox == before.inbox && after.outbox == before.outbox
    && (forall o | o in before.cards && o != id :: after.cards[o] == before.cards[o])
    && (forall t | t in before.turns && t != before.cards[id].turn :: after.turns[t] == before.turns[t])
    && var r := before.cards[id];
       CardVisited(r, after.cards[id], TurnCompletes(before, r.turn), v)
       && (r.turn in before.turns ==> TurnVisited(before.turns[r.turn], after.turns[r.turn], r, v))
  }

  /** A visit that itself interrupts the turn of its card. */
  predicate Interrupts(db: Db, id: string, revision: nat, look: Look, v: Visit) {
    Takes(db, id, revision, look, v)
    && var r := db.cards[id];
       r.turn in db.turns && !Turns.Terminal(db.turns[r.turn].status) && TurnEnd(db.turns[r.turn].status, r, v) == Turns.Interrupted
  }

  // ---- one statement ----

  lemma CardWritten(db: Db, id: string, revision: nat, p: Cards.Patch, now: int)
    requires Lands(db, id, revision)
    ensures DbAfter(db, CardWrite(id, revision, p, now)) ==
            db.(cards := db.cards[id := Cards.UpdateRow(db.cards[id], revision, p, now).value])
  {
  }

  function TurnClosed(db: Db, turn: string, s: Turns.Status, error: Option<string>, now: int): Db {
    if turn in db.turns && !Turns.Terminal(db.turns[turn].status) then
      var r := db.turns[turn];
      db.(turns := db.turns[turn := Turns.CloseRow(r, s, error, if s == Turns.Completed then r.completedAt.OrElse(now) else now, now)])
    else db
  }

  lemma TurnCompleted(db: Db, turn: string, now: int)
    ensures Apply(db, OnTurn(Turns.CompleteRecoveredOp(turn, now))) == TurnClosed(db, turn, Turns.Completed, None, now)
  {
    OneTurn(db, Turns.CompleteRecoveredOp(turn, now), turn);
  }

  lemma TurnInterrupted(db: Db, turn: string, reason: string, now: int)
    ensures Apply(db, OnTurn(Turns.InterruptOp(turn, reason, now))) == TurnClosed(db, turn, Turns.Interrupted, Some(reason), now)
  {
    OneTurn(db, Turns.InterruptOp(turn, reason, now), turn);
  }

  // ---- the stretches of a visit ----

  /** A recovery by process 0 has the card of `before` in hand. */
  predicate Holds(before: Db, w: World, id: string, phase: Phase, complete: bool) {
    w.procs.Keys == {0} && w.procs[0].card == id && w.procs[0].phase == phase && w.procs[0].complete == complete
    && id in before.cards && id in w.db.cards && w.procs[0].claimed == w.db.cards[id]
    && w.db.cards == before.cards[id := w.db.cards[id]]
    && var r, s := before.cards[id], w.db.cards[id];
       s == r.(status := Cards.Recovering, error := s.error, revision := r.revision + 1, updatedAt := s.updatedAt)
  }

  lemma VisitClaims(w: World, id: string, revision: nat, look: Look, v: Visit)
    requires w.procs == map[] && Takes(w.db, id, revision, look, v)
    ensures var a := Step(w, Opening(id, revision, look, v));
            Holds(w.db, a, id, Claimed, false) && a.db == w.db.(cards := a.db.cards)
  {
  }

  lemma VisitPasses(w: World, id: string, revision: nat, look: Look, v: Visit)
    requires w.procs == map[] && !Takes(w.db, id, revision, look, v)
    ensures Step(w, Opening(id, revision, look, v)) == w
  {
  }

  /** The write that ends the card, and whether the turn is still to be interrupted. */
  ghost predicate Settled(before: Db, b: World, c: World, id: string, completes: bool, v: Visit)
    requires id in before.cards
  {
    id in c.db.cards && c.db == b.db.(cards := before.cards[id := c.db.cards[id]])
    && CardVisited(before.cards[id], c.db.cards[id], completes, v)
    && if MustClose(before.cards[id], completes, v) then
         c.procs.Keys == {0} && c.procs[0].phase == MustInterrupt(Reason(before.cards[id], v)) && c.procs[0].claimed.turn == before.cards[id].turn
       else c.procs == map[]
  }

  lemma VisitFences(before: Db, a: World, id: string, completes: bool, v: Visit)
    requires Holds(before, a, id, Claimed, false) && !HasIdentity(before.cards[id])
    ensures Settled(before, a, Step(a, Fence(0, v.settleAt)), id, completes, v)
  {
    var q := a.procs[0];
    CardWritten(a.db, id, q.claimed.revision, Final(Cards.Failed, None, None, q.claimed.snapshot, Some(MISSING_IDENTITY)), v.settleAt);
  }

  lemma VisitDecides(before: Db, a: World, id: string, v: Visit)
    requires Holds(before, a, id, Claimed, false) && HasIdentity(before.cards[id]) && a.db == before.(cards := a.db.cards)
    ensures var b := Step(Step(a, Decide(0, v.persisted, v.decideAt)), Answer(0, v.reply)); var turn := before.cards[id].turn;
            Holds(before, b, id, Answered(v.reply), v.persisted && TurnCompletes(before, turn))
            && b.db == (if v.persisted then TurnClosed(a.db, turn, Turns.Completed, None, v.decideAt) else a.db)
  {
    TurnCompleted(a.db, before.cards[id].turn, v.decideAt);
  }

  lemma VisitIsRewritten(before: Db, b: World, id: string, completes: bool, v: Visit)
    requires Holds(before, b, id, Answered(v.reply), v.persisted && completes) && HasIdentity(before.cards[id]) && v.reply.Rewritten?
    ensures Settled(before, b, Step(b, Settle(0, v.settleAt)), id, completes, v)
  {
    var q, version := b.procs[0], v.reply.version;
    CardWritten(b.db, id, q.claimed.revision, Final(Cards.Completed, Some(version), None, q.claimed.snapshot, None), v.settleAt);
    CardWritten(b.db, id, q.claimed.revision, Final(Cards.Aborted, Some(version), None, q.claimed.snapshot, Some(INTERRUPTED)), v.settleAt);
  }

  predicate GivesUp(q: Proc, reply: Reply) {
    reply.Refused? && (reply.unavailable || Attempts(q, reply.reached) >= MAX_ATTEMPTS)
  }

  lemma VisitGivesUp(before: Db, b: World, id: string, completes: bool, v: Visit)
    requires Holds(before, b, id, Answered(v.reply), v.persisted && completes) && HasIdentity(before.cards[id]) && GivesUp(b.procs[0], v.reply)
    ensures Settled(before, b, Step(b, Settle(0, v.settleAt)), id, completes, v)
  {
    var q := b.procs[0];
    CardWritten(b.db, id, q.claimed.revision,
                Final(Cards.Failed, None, Some(Attempts(q, v.reply.reached)), q.claimed.snapshot, Some(GAVE_UP)), v.settleAt);
  }

  lemma VisitGivesBack(before: Db, b: World, id: string, completes: bool, v: Visit)
    requires Holds(before, b, id, Answered(v.reply), v.persisted && completes) && HasIdentity(before.cards[id])
    requires v.reply.Refused? && !GivesUp(b.procs[0], v.reply)
    ensures Settled(before, b, Step(b, Settle(0, v.settleAt)), id, completes, v)
  {
    var q := b.procs[0];
    CardWritten(b.db, id, q.claimed.revision,
                Final(Cards.Streaming, None, Some(Attempts(q, v.reply.reached)), q.claimed.snapshot, Some("Deferred recovery")), v.settleAt);
  }

  lemma VisitInterrupts(c: World, v: Visit)
    requires c.procs.Keys == {0} && c.procs[0].phase.MustInterrupt?
    ensures var d := Step(c, Interrupt(0, v.interruptAt));
            d.procs == map[] && d.db == TurnClosed(c.db, c.procs[0].claimed.turn, Turns.Interrupted, Some(c.procs[0].phase.reason), v.interruptAt)
  {
    TurnInterrupted(c.db, c.procs[0].claimed.turn, c.procs[0].phase.reason, v.interruptAt);
  }

  // ---- the visit ----

  /** The turn once the reply, if one was persisted, has completed it. */
  function TurnDecided(before: Db, r: Cards.Row, v: Visit): Db {
    if HasIdentity(r) && v.persisted then TurnClosed(before, r.turn, Turns.Completed, None, v.decideAt) else before
  }

  /** And once a card that is closed without it has interrupted it. */
  function TurnSettled(b: Db, r: Cards.Row, completes: bool, reason: string, v: Visit): Db {
    if MustClose(r, completes, v) then TurnClosed(b, r.turn, Turns.Interrupted, Some(reason), v.interruptAt) else b
  }

  lemma TurnEnds(before: Db, b: Db, c: Db, r: Cards.Row, reason: string, v: Visit)
    requires MustClose(r, TurnCompletes(before, r.turn), v) ==> reason == Reason(r, v)
    requires b.turns == TurnDecided(before, r, v).turns && c.turns == TurnSettled(b, r, TurnCompletes(before, r.turn), reason, v).turns
    ensures c.turns.Keys == before.turns.Keys && (forall t | t in before.turns && t != r.turn :: c.turns[t] == before.turns[t])
    ensures r.turn in before.turns ==> TurnVisited(before.turns[r.turn], c.turns[r.turn], r, v)
  {
    if r.turn in before.turns && !Turns.Terminal(before.turns[r.turn].status) {
      assert TurnCompletes(before, r.turn);
    }
  }

  /** The card and its turn before a possible interruption: settled over tables `b` in which only the turn was decided. */
  ghost predicate Nearly(before: Db, b: World, c: World, id: string, v: Visit)
    requires id in before.cards
  {
    b.db.turns == TurnDecided(before, before.cards[id], v).turns && b.db.inbox == before.inbox && b.db.outbox == before.outbox
    && Settled(before, b, c, id, TurnCompletes(before, before.cards[id].turn), v)
  }

  lemma RunOne(w: World, a: Event)
    ensures RunAll(w, [a]) == Step(w, a)
  {
    assert [a][..0] == [];
    assert RunAll(w, []) == w;
  }

  lemma RunThree(w: World, a: Event, b: Event, c: Event)
    ensures RunAll(w, [a] + [b] + [c]) == Step(Step(Step(w, a), b), c)
  {
    RunOne(w, a);
    RunOne(Step(w, a), b);
    RunOne(Step(Step(w, a), b), c);
    RunJoined(w, [a], [b]);
    RunJoined(w, [a] + [b], [c]);
  }

  /** The card's own events after the claim. */
  lemma ClosingSettles(before: Db, a: World, id: string, v: Visit) returns (b: World)
    requires Holds(before, a, id, Claimed, false) && a.db == before.(cards := a.db.cards)
    ensures Nearly(before, b, RunAll(a, Closing(before.cards[id], v)), id, v)
  {
    var r := before.cards[id];
    var completes := TurnCompletes(before, r.turn);
    if !HasIdentity(r) {
      RunOne(a, Fence(0, v.settleAt));
      VisitFences(before, a, id, completes, v);
      b := a;
    } else {
      RunThree(a, Decide(0, v.persisted, v.decideAt), Answer(0, v.reply), Settle(0, v.settleAt));
      VisitDecides(before, a, id, v);
      b := Step(Step(a, Decide(0, v.persisted, v.decideAt)), Answer(0, v.reply));
      if v.reply.Rewritten? {
        VisitIsRewritten(before, b, id, completes, v);
      } else if GivesUp(b.procs[0], v.reply) {
        VisitGivesUp(before, b, id, completes, v);
      } else {
        VisitGivesBack(before, b, id, completes, v);
      }
    }
  }

  /** Interrupting the turn where that is still due completes the visit. */
  lemma VisitEnds(before: Db, b: World, c: World, id: string, v: Visit)
    requires id in before.cards && Nearly(before, b, c, id, v) && MustClose(before.cards[id], TurnCompletes(before, before.cards[id].turn), v)
    ensures var x := Step(c, Interrupt(0, v.interruptAt)); x.procs == map[] && Visited(before, x.db, id, v)
  {
    VisitInterrupts(c, v);
    var x := Step(c, Interrupt(0, v.interruptAt)).db;
    TurnEnds(before, b.db, x, before.cards[id], c.procs[0].phase.reason, v);
    assert x == c.db.(turns := x.turns);
  }

  lemma VisitEndsHere(before: Db, b: World, c: World, id: string, v: Visit)
    requires id in before.cards && Nearly(before, b, c, id, v) && !MustClose(before.cards[id], TurnCompletes(before, before.cards[id].turn), v)
    ensures c.procs == map[] && Visited(before, c.db, id, v)
  {
    TurnEnds(before, b.db, c.db, before.cards[id], "", v);
  }

  lemma VisitTaken(w: World, id: string, revision: nat, look: Look, v: Visit)
    requires w.procs == map[] && Takes(w.db, id, revision, look, v)
    ensures var x := RunAll(w, VisitEvents(w.db, id, revision, look, v)); x.procs == map[] && Visited(w.db, x.db, id, v)
  {
    var r, opening := w.db.cards[id], Opening(id, revision, look, v);
    var front := [opening] + Closing(r, v);
    RunOne(w, opening);
    VisitClaims(w, id, revision, look, v);
    var b := ClosingSettles(w.db, Step(w, opening), id, v);
    RunJoined(w, [opening], Closing(r, v));
    if MustClose(r, TurnCompletes(w.db, r.turn), v) {
      VisitEnds(w.db, b, RunAll(w, front), id, v);
      RunJoined(w, front, [Interrupt(0, v.interruptAt)]);
      RunOne(RunAll(w, front), Interrupt(0, v.interruptAt));
    } else {
      VisitEndsHere(w.db, b, RunAll(w, front), id, v);
      assert front + [] == front;
    }
  }

  /** After the card's own events a recovery is left exactly where its turn is still to be interrupted. */
  lemma VisitFront(w: World, id: string, revision: nat, look: Look, v: Visit)
    requires w.procs == map[] && Takes(w.db, id, revision, look, v)
    ensures var r, opening := w.db.cards[id], Opening(id, revision, look, v); var c := RunAll(Step(w, opening), Closing(r, v));
            c == RunAll(w, [opening] + Closing(r, v)) && c.db.turns == TurnDecided(w.db, r, v).turns
            && (0 in c.procs ==> c.procs[0].claimed.turn == r.turn) && (0 in c.procs <==> MustClose(r, TurnCompletes(w.db, r.turn), v))
            && VisitEvents(w.db, id, revision, look, v) ==
               (if 0 in c.procs then [opening] + Closing(r, v) + [Interrupt(0, v.interruptAt)] else [opening] + Closing(r, v))
  {
    var r, opening := w.db.cards[id], Opening(id, revision, look, v);
    VisitClaims(w, id, revision, look, v);
    var b := ClosingSettles(w.db, Step(w, opening), id, v);
    RunOne(w, opening);
    RunJoined(w, [opening], Closing(r, v));
    assert [opening] + Closing(r, v) + [] == [opening] + Closing(r, v);
  }

  /** The interruption at the end of a visit lands exactly where the visit interrupts. */
  lemma InterruptionLands(db: Db, id: string, revision: nat, look: Look, v: Visit)
    requires Takes(db, id, revision, look, v)
    ensures var r := db.cards[id]; var turns := TurnDecided(db, r, v).turns;
            Interrupts(db, id, revision, look, v) <==>
            MustClose(r, TurnCompletes(db, r.turn), v) && r.turn in turns && !Turns.Terminal(turns[r.turn].status)
  {
    var r := db.cards[id];
    if r.turn in db.turns && !Turns.Terminal(db.turns[r.turn].status) {
      assert TurnCompletes(db, r.turn);
    }
  }

  /** A visit is a run of the machine that leaves no recovery under way and does to the tables what `Visited` says, or nothing. */
  lemma VisitIs(w: World, id: string, revision: nat, look: Look, v: Visit)
    requires w.procs == map[]
    ensures var x := RunAll(w, VisitEvents(w.db, id, revision, look, v));
            x.procs == map[] && if Takes(w.db, id, revision, look, v) then Visited(w.db, x.db, id, v) else x == w
  {
    if Takes(w.db, id, revision, look, v) {
      VisitTaken(w, id, revision, look, v);
    } else {
      RunOne(w, Opening(id, revision, look, v));
      VisitPasses(w, id, revision, look, v);
    }
  }
}
