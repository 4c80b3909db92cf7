/**
 * What a process finds in the tables when it starts, and what its passes over
 * the automations keep in order: a process may have been killed anywhere, and
 * every automation of a pass is reached at its own moment.
 */
module AutomationRestart {
  import opened Options
  import opened AutomationModel
  import opened AutomationSafety
  import opened AutomationTimely

  /**
   * Tables as an earlier process left them at `clock`, migrated rows without a
   * next fire included: legal, with every due time claimed in order.
   */
  ghost predicate Stored(w: World, clock: int) {
    Tables(w) && Booked(w) && forall id | id in w.automations :: Storable(FactsOf(w, id)) && Timely(FactsOf(w, id), clock)
  }

  /** A database nothing was written to yet. */
  const EMPTY := World(map[], map[], map[], map[], {})

  lemma EmptyIsInOrder(clock: int)
    ensures AllTimely(EMPTY, clock) && Booked(EMPTY)
  {
  }

  /** The same tables with another history: only the claims matter. */
  lemma OtherHistory(w: World, v: World, clock: int)
    requires Stored(w, clock) && v.automations == w.automations && v.runs == w.runs && w.runs.Keys <= v.used
    requires forall id | id in w.automations :: HistoryOk(Claimed(w, id), Claimed(v, id))
    requires forall r, id | Scheduled(w, r, id) :: w.runs[r].scheduledFor in Claimed(v, id)
    ensures Stored(v, clock)
  {
    assert forall r, id :: Scheduled(v, r, id) == Scheduled(w, r, id);
    forall id | id in v.automations ensures Storable(FactsOf(v, id)) && Timely(FactsOf(v, id), clock) {
      assert Storable(FactsOf(w, id)) && Timely(FactsOf(w, id), clock);
      HistoryTimely(FactsOf(w, id), FactsOf(v, id), clock);
    }
  }

  /** An increasing part of the claims. */
  predicate HistoryOk(claimed: seq<int>, part: seq<int>) {
    Increasing(part) && (part != [] ==> claimed != [] && part[|part| - 1] <= claimed[|claimed| - 1])
  }

  lemma HistoryTimely(f: Facts, g: Facts, clock: int)
    requires Timely(f, clock) && g == f.(claimed := g.claimed, uncapped := g.uncapped) && HistoryOk(f.claimed, g.claimed)
    ensures Timely(g, clock)
  {
  }

  /** A process may be killed between any two segments; only what it computed but did not store is gone. */
  lemma KilledAnywhere(slots: Slots, w: World, clock: int, ops: seq<Op>)
    requires AllTimely(w, clock) && Booked(w) && Monotone(clock, ops)
    ensures Stored(RunAll(slots, w, ops).(uncapped := map[]), ClockAfter(clock, ops))
  {
    AlwaysTimely(slots, w, clock, ops);
    AlwaysBooked(slots, w, clock, ops);
    Survives(RunAll(slots, w, ops), ClockAfter(clock, ops));
  }

  lemma Survives(w: World, clock: int)
    requires AllTimely(w, clock) && Booked(w)
    ensures Stored(w.(uncapped := map[]), clock)
  {
    forall id | id in w.automations ensures Storable(FactsOf(w, id)) && HistoryOk(Claimed(w, id), Claimed(w, id)) {
      assert Sound(FactsOf(w, id)) && Timely(FactsOf(w, id), clock);
    }
    OtherHistory(w, w.(uncapped := map[]), clock);
  }

  // ---- the rows alone tell the history a start needs ----

  lemma {:induction false} LargestExists(s: set<int>)
    requires |s| != 0
    ensures exists m :: m in s && forall t | t in s :: t <= m
  {
    if forall t: int :: t !in s {
      assert false;
    }
    var x :| x in s;
    var rest := s - {x};
    if |rest| == 0 {
      assert forall t | t in s :: t == x || t in rest;
    } else {
      LargestExists(rest);
      var m :| m in rest && forall t | t in rest :: t <= m;
      var n := if m > x then m else x;
      assert n in s && forall t | t in s :: t == x || t in rest;
    }
  }

  ghost function Largest(s: set<int>): (m: int)
    requires |s| != 0
    ensures m in s && forall t | t in s :: t <= m
  {
    LargestExists(s);
    var m :| m in s && forall t | t in s :: t <= m;
    m
  }

  ghost function Ascending(s: set<int>): (c: seq<int>)
    ensures Increasing(c) && forall t :: t in c <==> t in s
  {
    if |s| == 0 then [] else Ascending(s - {Largest(s)}) + [Largest(s)]
  }

  function DueTimes(runs: map<string, Run>, id: string): set<int> {
    set r | r in runs && runs[r].automation == id && runs[r].trigger != ByHand :: runs[r].scheduledFor
  }

  /** The claims a new process can read off the stored schedule and backfill rows. */
  ghost function Reread(automations: map<string, Automation>, runs: map<string, Run>): World {
    World(automations, runs, map id | id in automations :: Ascending(DueTimes(runs, id)), map[], runs.Keys)
  }

  lemma DueTimesAreClaimed(w: World, id: string, t: int)
    requires Booked(w) && t in DueTimes(w.runs, id)
    ensures t in Claimed(w, id)
  {
    var r :| r in w.runs && w.runs[r].automation == id && w.runs[r].trigger != ByHand && w.runs[r].scheduledFor == t;
    assert Scheduled(w, r, id);
  }

  lemma LastIsLargest(c: seq<int>, t: int)
    requires Increasing(c) && t in c
    ensures t <= c[|c| - 1]
  {
    var i :| 0 <= i < |c| && c[i] == t;
  }

  /** What was read off the rows lies within what was claimed. */
  lemma RereadClaims(w: World, id: string)
    requires Booked(w) && Increasing(Claimed(w, id))
    ensures HistoryOk(Claimed(w, id), Ascending(DueTimes(w.runs, id)))
  {
    var c, d := Claimed(w, id), Ascending(DueTimes(w.runs, id));
    if d != [] {
      assert d[|d| - 1] in d;
      DueTimesAreClaimed(w, id, d[|d| - 1]);
      LastIsLargest(c, d[|d| - 1]);
    }
  }

  /**
   * A start needs no history but the rows: the due times of the rows that were
   * not trimmed away are a history in order, and nothing stored will claim one
   * of them again.
   */
  lemma RowsAreEnough(w: World, clock: int)
    requires Stored(w, clock)
    ensures Stored(Reread(w.automations, w.runs), clock)
  {
    var v := Reread(w.automations, w.runs);
    forall id | id in w.automations
      ensures Claimed(v, id) == Ascending(DueTimes(w.runs, id)) && HistoryOk(Claimed(w, id), Claimed(v, id))
    {
      assert Timely(FactsOf(w, id), clock);
      RereadClaims(w, id);
    }
    forall r, id | Scheduled(w, r, id) ensures w.runs[r].scheduledFor in Claimed(v, id) {
      assert w.runs[r].scheduledFor in DueTimes(w.runs, id);
    }
    OtherHistory(w, v, clock);
  }

  // ---- a pass over the automations ----

  /** One pass: the clock when it begins, and for each automation the clock and a fresh run id when the pass reaches it. */
  datatype Sweep = Sweep(now: int, at: map<string, int>, ids: map<string, string>)

  ghost predicate Reaches(s: Sweep, ids: set<string>, end: int) {
    ids <= s.at.Keys && (forall id | id in ids :: s.now <= s.at[id] <= end) && s.now <= end
  }

  /** In order when the pass began for those still in `todo`, and by its end for the others. */
  ghost predicate Swept(w: World, todo: set<string>, now: int, end: int) {
    Tables(w) && Booked(w)
    && forall id | id in w.automations :: Storable(FactsOf(w, id)) && Timely(FactsOf(w, id), if id in todo then now else end)
  }

  lemma TimelyLater(f: Facts, clock: int, later: int)
    requires Timely(f, clock) && clock <= later
    ensures Timely(f, later)
  {
  }

  lemma SweepBegins(w: World, todo: set<string>, now: int, end: int)
    requires Stored(w, now) && now <= end
    ensures Swept(w, todo, now, end)
  {
    forall id | id in w.automations ensures Timely(FactsOf(w, id), if id in todo then now else end) {
      TimelyLater(FactsOf(w, id), now, end);
    }
  }

  predicate OfPass(op: Op, id: string) {
    (op.Fire? || op.RecordMissed? || op.Recompute? || op.SetStatus?) && op.id == id
  }

  /** A segment of the pass saves at most the automation it has reached. */
  lemma PassSaves(slots: Slots, w: World, op: Op, id: string)
    requires Tables(w) && id in w.automations && OfPass(op, id) && Storable(FactsOf(w, id))
    ensures var p := PlanOf(slots, w, op);
            !p.automations.Drop? && (p.automations.Save? ==> p.automations.id == id)
            && (p.runs.Insert? ==> p.runs.row.automation == id)
            && (p.automations.Save? ==> Storable(FactsOf(Perform(w, p), id)))
  {
    var p := PlanOf(slots, w, op);
    PlansAreLegal(slots, w, op);
    if p.automations.Save? {
      if op.Fire? {
        FireSound(slots, w, id, op.run, op.trigger, op.now);
      } else if op.SetStatus? {
        SavedFacts(w, p);
      } else {
        RecomputingSound(slots, w, op);
      }
    }
  }

  lemma SweptStepAt(slots: Slots, w: World, todo: set<string>, op: Op, id: string, now: int, end: int, x: string)
    requires Swept(w, todo, now, end) && id in todo && id in w.automations && OfPass(op, id)
    requires now <= ClockOf(op).value <= end && x in Apply(slots, w, op).automations
    ensures var f := FactsOf(Apply(slots, w, op), x); Storable(f) && Timely(f, if x in todo - {id} then now else end)
  {
    var p, u := PlanOf(slots, w, op), Apply(slots, w, op);
    PlansAreLegal(slots, w, op);
    PassSaves(slots, w, op, id);
    if p.automations.Save? && x == id {
      LegalKeepsTables(w, p);
      TargetTimely(slots, w, now, op);
      TimelyLater(FactsOf(u, x), ClockOf(op).value, end);
    } else {
      Elsewhere(w, p, x);
      if x == id {
        TimelyLater(FactsOf(w, x), now, end);
      }
    }
  }

  lemma SweptStep(slots: Slots, w: World, todo: set<string>, op: Op, id: string, now: int, end: int)
    requires Swept(w, todo, now, end) && id in todo && id in w.automations && OfPass(op, id)
    requires now <= ClockOf(op).value <= end
    ensures Swept(Apply(slots, w, op), todo - {id}, now, end)
  {
    var p, u := PlanOf(slots, w, op), Apply(slots, w, op);
    forall x | x in u.automations ensures Storable(FactsOf(u, x)) && Timely(FactsOf(u, x), if x in todo - {id} then now else end) {
      SweptStepAt(slots, w, todo, op, id, now, end, x);
    }
    PlansAreLegal(slots, w, op);
    LegalKeepsTables(w, p);
    PassSaves(slots, w, op, id);
    PlanBooked(w, p);
  }

  /** The pass went by some automations without touching them. */
  lemma SweptMost(w: World, todo: set<string>, less: set<string>, now: int, end: int)
    requires Swept(w, todo, now, end) && now <= end && less <= todo
    ensures Swept(w, less, now, end)
  {
    forall x | x in w.automations ensures Timely(FactsOf(w, x), if x in less then now else end) {
      if x in todo {
        TimelyLater(FactsOf(w, x), now, end);
      }
    }
  }

  lemma StoredLater(w: World, now: int, later: int)
    requires Stored(w, now) && now <= later
    ensures Stored(w, later)
  {
    SweepBegins(w, {}, now, later);
  }

  /** Settling claims nothing, so the settled automation stays in order as of the old clock. */
  lemma SettledTarget(slots: Slots, w: World, clock: int, run: string, outcome: RunStatus, error: Option<string>, now: int)
    requires run in w.runs && Ready(w, w.runs[run].automation, clock, now, SettlePlan(slots, w, run, outcome, error, now))
    ensures var g := FactsOf(Apply(slots, w, Settle(run, outcome, error, now)), w.runs[run].automation); Storable(g) && Timely(g, clock)
  {
    SettleSound(slots, w, run, outcome, error, now);
    SettleTimely(slots, w, clock, run, outcome, error, now);
    SavedFacts(w, SettlePlan(slots, w, run, outcome, error, now));
  }

  lemma SettleStoredAt(slots: Slots, w: World, clock: int, run: string, outcome: RunStatus, error: Option<string>, now: int, x: string)
    requires Stored(w, clock) && clock <= now && x in Apply(slots, w, Settle(run, outcome, error, now)).automations
    ensures var f := FactsOf(Apply(slots, w, Settle(run, outcome, error, now)), x); Storable(f) && Timely(f, clock)
  {
    var p := PlanOf(slots, w, Settle(run, outcome, error, now));
    assert x in w.automations && Storable(FactsOf(w, x)) && Timely(FactsOf(w, x), clock);
    if p.automations.Save? && x == p.automations.id {
      SettledTarget(slots, w, clock, run, outcome, error, now);
    } else {
      PlansAreLegal(slots, w, Settle(run, outcome, error, now));
      Elsewhere(w, p, x);
    }
  }

  lemma SettleStored(slots: Slots, w: World, clock: int, run: string, outcome: RunStatus, error: Option<string>, now: int)
    requires Stored(w, clock) && clock <= now
    ensures Stored(Apply(slots, w, Settle(run, outcome, error, now)), clock)
  {
    var op := Settle(run, outcome, error, now);
    PlansAreLegal(slots, w, op);
    LegalKeepsTables(w, PlanOf(slots, w, op));
    PlanBooked(w, PlanOf(slots, w, op));
    forall x | x in Apply(slots, w, op).automations
      ensures Storable(FactsOf(Apply(slots, w, op), x)) && Timely(FactsOf(Apply(slots, w, op), x), clock)
    {
      SettleStoredAt(slots, w, clock, run, outcome, error, now, x);
    }
  }
}
