/**
 * What recovery leaves alone: the reply text a dead process last stored with a
 * card, and the two notes on it, survive every attempt, given up, given back or
 * cut off by a crash, and are what every later recovery is handed.
 */
module RecoveryContent {
  import opened Options
  import opened ChannelDb
  import opened CardRecovery
  import Cards = CardTable

  /** The stored snapshot but for the attempt count. */
  predicate SameContent(s: Cards.Snapshot, t: Cards.Snapshot) {
    s.body == t.body && s.explicitStop == t.explicitStop && s.staticFallback == t.staticFallback
  }

  /** The card, while stored, and every recovery of it hold the content `s`. */
  ghost predicate Holds(w: World, id: string, s: Cards.Snapshot) {
    (id in w.db.cards ==> SameContent(w.db.cards[id].snapshot, s))
    && forall p | p in w.procs && w.procs[p].card == id :: SameContent(w.procs[p].claimed.snapshot, s)
  }

  /** Nobody but recovery writes the card. */
  predicate LeavesCard(e: Event, id: string) {
    e.Aside? && e.op.OnCard? ==> e.op.c.id != id
  }

  /** What a step of recovery writes to a card: a claim, or a patch whose snapshot has the claimed content. */
  lemma WrittenContent(w: World, e: Event)
    requires Applies(w, e) && !e.Aside? && PlanOf(w, e).op.Some? && PlanOf(w, e).op.value.OnCard?
    ensures var c := PlanOf(w, e).op.value.c;
            c.ClaimRecoveryOp?
            || (e.p in w.procs && c.UpdateOp? && c.id == w.procs[e.p].card && c.patch.snapshot.Some?
                && SameContent(c.patch.snapshot.value, w.procs[e.p].claimed.snapshot))
  {
  }

  /** A statement on another card, a recovery claim, and a patch with the same content keep the content. */
  lemma StatementKeeps(db: Db, op: Op, id: string, s: Cards.Snapshot)
    requires id in db.cards && SameContent(db.cards[id].snapshot, s)
    requires op.OnCard? && op.c.id == id ==>
               op.c.ClaimRecoveryOp? || (op.c.UpdateOp? && op.c.patch.snapshot.Some? && SameContent(op.c.patch.snapshot.value, s))
    ensures id in Apply(db, op).cards && SameContent(Apply(db, op).cards[id].snapshot, s)
  {
  }

  /** Only a creation makes a card appear. */
  lemma NoNewCard(db: Db, op: Op, id: string)
    requires id !in db.cards && (op.OnCard? ==> op.c.id != id || op.c.UpdateOp? || op.c.ClaimRecoveryOp?)
    ensures id !in Apply(db, op).cards
  {
  }

  /** The recoveries after a step are those before it, or a new one with the stored snapshot. */
  lemma ProcsKeepContent(w: World, e: Event, p: nat)
    requires Applies(w, e) && p in PlanOf(w, e).procs
    ensures var q := PlanOf(w, e).procs[p];
            (p in w.procs && q.card == w.procs[p].card && q.claimed == w.procs[p].claimed)
            || (e.Begin? && e.p == p && q.card == e.card && q.card in w.db.cards && q.claimed.snapshot == w.db.cards[q.card].snapshot)
  {
  }

  lemma StepHolds(w: World, e: Event, id: string, s: Cards.Snapshot)
    requires Holds(w, id, s) && LeavesCard(e, id)
    ensures Holds(Step(w, e), id, s)
  {
    if Applies(w, e) {
      var v, op := Step(w, e), PlanOf(w, e).op;
      if op.Some? {
        if !e.Aside? && op.value.OnCard? {
          WrittenContent(w, e);
        }
        if id in w.db.cards {
          StatementKeeps(w.db, op.value, id, s);
        } else {
          NoNewCard(w.db, op.value, id);
        }
      }
      forall p | p in v.procs && v.procs[p].card == id ensures SameContent(v.procs[p].claimed.snapshot, s) {
        ProcsKeepContent(w, e, p);
      }
    }
  }

  /**
   * Over any run of recoveries, overlapping or not, with crashes anywhere, in
   * which nobody else writes the card: its text and notes are those it had, and
   * so are those of every claim a recovery is handed.
   */
  lemma {:induction false} RecoveryKeepsTheContent(w: World, events: seq<Event>, id: string, s: Cards.Snapshot)
    requires Holds(w, id, s) && forall n | 0 <= n < |events| :: LeavesCard(events[n], id)
    ensures Holds(RunAll(w, events), id, s)
    decreases |events|
  {
    if events != [] {
      RecoveryKeepsTheContent(w, events[..|events| - 1], id, s);
      StepHolds(RunAll(w, events[..|events| - 1]), events[|events| - 1], id, s);
    }
  }

  /** The notes are additions: each sets its own mark, keeps the other and the text, and moves the revision on. */
  lemma NotesAdd(db: Db, id: string, stop: bool, now: int)
    requires id in db.cards
    ensures var r := db.cards[id]; var t := Apply(db, OnCard(Cards.NoteOp(id, stop, now))).cards;
            id in t && t[id].status == r.status && t[id].revision == r.revision + 1
            && t[id].snapshot.body == r.snapshot.body && t[id].snapshot.recoveryAttempts == r.snapshot.recoveryAttempts
            && (t[id].snapshot.explicitStop <==> stop || r.snapshot.explicitStop)
            && (t[id].snapshot.staticFallback <==> !stop || r.snapshot.staticFallback)
  {
  }
}
