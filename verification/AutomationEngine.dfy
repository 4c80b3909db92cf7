/**
 * The engine and the writing half of the service, as methods over the two
 * tables. Every method is one synchronous segment and is proved to perform
 * exactly the plan of its operation; startup recovery and the scheduler tick
 * are loops over such segments.
 */
module AutomationEngine {
  import opened Options
  import opened AutomationModel
  import opened AutomationSafety
  import opened AutomationTimely
  import opened AutomationRestart

  const END_REACHED := "the end time was reached"

  class Engine {
    const slots: Slots
    var automations: map<string, Automation>
    var runs: map<string, Run>
    ghost var claimed: map<string, seq<int>>
    ghost var uncapped: map<string, Option<int>>
    ghost var used: set<string>

    ghost function State(): World
      reads this
    {
      World(automations, runs, claimed, uncapped, used)
    }

    /**
     * A process starting on the stored tables. `past` and `known` are the due
     * times and run ids of the processes before it, which no code reads; what
     * they computed without storing it is gone.
     */
    constructor (slots: Slots, automations: map<string, Automation>, runs: map<string, Run>,
                 ghost past: map<string, seq<int>>, ghost known: set<string>)
      ensures this.slots == slots
      ensures State() == World(automations, runs, past, map[], known)
    {
      this.slots := slots;
      this.automations := automations;
      this.runs := runs;
      claimed := past;
      uncapped := map[];
      used := known;
    }

    // ---- store access ----

    predicate IsLive(id: string)
      reads this
    {
      exists r :: r in runs && LiveOf(runs[r], id)
    }

    method InsertRun(run: string, row: Run)
      modifies `runs, `claimed, `used
      ensures runs == old(runs)[run := row] && used == old(used) + {run}
      ensures claimed == if row.trigger != ByHand then
                           old(claimed)[row.automation := Claimed(old(State()), row.automation) + [row.scheduledFor]]
                         else old(claimed)
    {
      runs := runs[run := row];
      used := used + {run};
      if row.trigger != ByHand {
        claimed := claimed[row.automation := (if row.automation in claimed then claimed[row.automation] else []) + [row.scheduledFor]];
      }
    }

    method Store(id: string, a: Automation)
      modifies `automations
      ensures automations == old(automations)[id := a]
    {
      automations := automations[id := a];
    }

    method StoreWithNext(id: string, a: Automation, now: int, basis: Basis)
      modifies `automations, `uncapped
      ensures automations == old(automations)[id := a.(nextFireAt := ComputeNextFireAt(slots, a, now, basis))]
      ensures uncapped == old(uncapped)[id := Uncapped(slots, a, now, basis)]
    {
      automations := automations[id := a.(nextFireAt := ComputeNextFireAt(slots, a, now, basis))];
      uncapped := uncapped[id := Uncapped(slots, a, now, basis)];
    }

    // ---- firing ----

    /** `run` is a fresh run id. Answers whether a run was queued and has to be launched. */
    method Fire(id: string, run: string, trigger: Trigger, now: int) returns (launch: bool)
      requires run !in used && trigger != ByHand
      modifies this
      ensures State() == Apply(slots, old(State()), Op.Fire(id, run, trigger, now))
      ensures launch <==> id in old(automations) && Due(old(automations)[id], now) && !old(IsLive(id))
    {
      launch := false;
      if id !in automations { return; }
      var a := automations[id];
      if a.status != Active || a.nextFireAt == None || a.nextFireAt.value > now { return; }
      var due := a.nextFireAt.value;
      if IsLive(id) {
        if a.schedule.Once? {
          Store(id, a.(nextFireAt := None));
          return;
        }
        InsertRun(run, SkippedRun(a, id, trigger, now, due));
        StoreWithNext(id, a, now, Now);
        return;
      }
      InsertRun(run, NewRun(a, id, trigger, Queued, now, due));
      var fired := a.(lastFiredAt := Some(now));
      if a.schedule.Cron? {
        StoreWithNext(id, fired, now, Previous);
      } else {
        Store(id, fired.(nextFireAt := None));
      }
      launch := true;
    }

    method StartManualRun(id: string, run: string, now: int) returns (started: bool)
      requires run !in used
      modifies this
      ensures State() == Apply(slots, old(State()), RunNow(id, run, now))
      ensures started <==> id in old(automations) && !old(IsLive(id))
    {
      if id !in automations || IsLive(id) { return false; }
      InsertRun(run, NewRun(automations[id], id, ByHand, Queued, now, now));
      Store(id, automations[id].(lastFiredAt := Some(now)));
      return true;
    }

    method RecordMissedRun(id: string, run: string, now: int)
      requires run !in used && id in automations && Due(automations[id], now) && !automations[id].schedule.Once?
      modifies this
      ensures State() == Apply(slots, old(State()), RecordMissed(id, run, now))
    {
      var a := automations[id];
      InsertRun(run, MissedRun(a, id, now, a.nextFireAt.value));
      StoreWithNext(id, a, now, Now);
    }

    // ---- settling ----

    /** What settling a run makes of its automation. */
    method AdvanceSchedule(id: string, trigger: Trigger, now: int)
      requires id in automations
      modifies `automations, `uncapped
      ensures State() == Perform(old(State()), Plan(KeepRuns, SettledAutomation(slots, id, old(automations)[id], trigger, now)))
    {
      var a := automations[id].(lastFinishedAt := Some(now));
      if a.status != Active {
        Store(id, a);
      } else if a.schedule.Once? && trigger != ByHand {
        Store(id, StatusFields(a, Completed, Some(ONCE_DONE), now));
      } else {
        StoreWithNext(id, a, now, Previous);
      }
    }

    /** A run that is already terminal is left alone: a late or repeated report is a no-op. */
    method FinishRun(run: string, outcome: RunStatus, error: Option<string>, now: int) returns (settled: bool)
      requires Terminal(outcome)
      modifies this
      ensures State() == Apply(slots, old(State()), Settle(run, outcome, error, now))
      ensures settled <==> run in old(runs) && !Terminal(old(runs)[run].status)
    {
      if run !in runs || Terminal(runs[run].status) { return false; }
      var r := runs[run];
      runs := runs[run := SettledRun(r, outcome, error, now)];
      if r.automation in automations {
        AdvanceSchedule(r.automation, r.trigger, now);
      }
      return true;
    }

    method OnRunInputStarted(run: string)
      modifies this
      ensures State() == Apply(slots, old(State()), Started(run))
    {
      if run in runs && runs[run].status == Queued {
        runs := runs[run := runs[run].(status := Running)];
      }
    }

    // ---- status and edits ----

    method ChangeStatus(id: string, status: Status, reason: Option<string>, now: int) returns (changed: bool)
      requires status != Active
      modifies this
      ensures State() == Apply(slots, old(State()), SetStatus(id, status, reason, now))
      ensures changed <==> id in old(automations) && !(old(automations)[id].status == status && old(automations)[id].statusReason == reason)
    {
      if id !in automations || (automations[id].status == status && automations[id].statusReason == reason) { return false; }
      Store(id, StatusFields(automations[id], status, reason, now));
      return true;
    }

    method StoreFromNow(id: string, a: Automation, now: int)
      modifies this
      ensures State() == Perform(old(State()), Plan(KeepRuns, SaveFromNow(slots, old(State()), id, a, now)))
    {
      if a.schedule.Interval? && IsLive(id) {
        Store(id, a.(nextFireAt := None));
      } else {
        StoreWithNext(id, a, now, Now);
      }
    }

    /** False for a missing automation, a stale revision and a rejected schedule or end time. */
    method UpdateAutomation(id: string, expectedRevision: nat, newSchedule: Option<Schedule>, newEndAt: Option<Option<int>>, newSilent: Option<bool>,
                            checkedAt: int, now: int)
      returns (saved: bool)
      modifies this
      ensures State() == Apply(slots, old(State()), Update(id, expectedRevision, newSchedule, newEndAt, newSilent, checkedAt, now))
      ensures saved ==> id in old(automations) && old(automations)[id].revision == expectedRevision
                        && id in automations && automations[id].revision == expectedRevision + 1
      ensures !saved ==> State() == old(State())
    {
      if id !in automations || automations[id].revision != expectedRevision { return false; }
      if !Accepted(newSchedule.OrElse(automations[id].schedule)) { return false; }
      if newSchedule.Some? && !NotPast(newSchedule.value, checkedAt) { return false; }
      if newEndAt.Some? && newEndAt.value.Some? && newEndAt.value.value <= checkedAt { return false; }
      var next := Edited(automations[id], newSchedule, newEndAt, newSilent, now);
      if (newSchedule.Some? || newEndAt.Some?) && next.status == Active {
        StoreFromNow(id, next, now);
      } else {
        Store(id, next);
      }
      return true;
    }

    method ActivateAutomation(id: string, now: int) returns (activated: bool)
      modifies this
      ensures State() == Apply(slots, old(State()), Activate(id, now))
      ensures activated ==> id in automations && automations[id].status == Active
      ensures !activated ==> State() == old(State())
    {
      if id !in automations || automations[id].status == Active { return false; }
      var a := automations[id];
      if a.endAt.Some? && a.endAt.value <= now { return false; }
      if !NotPast(a.schedule, now) { return false; }
      StoreFromNow(id, a.(status := Active, statusReason := None, revision := a.revision + 1, updatedAt := now), now);
      return true;
    }

    // ---- startup ----

    /**
     * Settle every live run whose input is gone, then look at each automation
     * once. `pending` are the live runs whose input still waits in its session,
     * `settledAt` the clock at each settlement; `clock` is when the earlier
     * process stopped.
     */
    method Recover(pending: set<string>, settledAt: map<string, int>, sweep: Sweep, ghost clock: int, ghost end: int)
      requires StartReady(State()) && SettlesAfter(LiveRuns(runs), settledAt, clock) && clock <= sweep.now
      requires FreshIds(State(), automations.Keys, sweep.ids) && Reaches(sweep, automations.Keys, end)
      modifies this
      ensures Recovered(State(), sweep.now) && automations.Keys == old(automations.Keys)
      ensures forall r | r in old(runs) && !Terminal(old(runs)[r].status) && r !in pending :: r in runs && runs[r].status == Interrupted
      ensures used <= old(used) + sweep.ids.Values
      ensures old(Stored(State(), clock)) ==> Stored(State(), end)
    {
      ghost var orderly := Stored(State(), clock);
      InterruptLost(pending, settledAt, clock);
      var todo := automations.Keys;
      if orderly {
        StoredLater(State(), clock, sweep.now);
        SweepBegins(State(), todo, sweep.now, end);
      }
      while todo != {}
        invariant Halfway(State(), todo, sweep.now) && FreshIds(State(), todo, sweep.ids)
        invariant orderly ==> Swept(State(), todo, sweep.now, end)
        invariant automations.Keys == old(automations.Keys) && used <= old(used) + sweep.ids.Values
        invariant forall r | r in old(runs) && !Terminal(old(runs)[r].status) && r !in pending :: r in runs && runs[r].status == Interrupted
        decreases todo
      {
        var id :| id in todo;
        RecoverOneKeeps(slots, State(), todo, sweep, id);
        if orderly {
          RecoverOneSwept(slots, State(), todo, sweep, id, end);
        }
        todo := todo - {id};
        RecoverOne(id, sweep.ids[id], sweep.now, sweep.at[id]);
      }
    }

    /** Settle every live run whose input is gone. */
    method InterruptLost(pending: set<string>, settledAt: map<string, int>, ghost clock: int)
      requires StartReady(State()) && SettlesAfter(LiveRuns(runs), settledAt, clock)
      modifies this
      ensures StartReady(State()) && automations.Keys == old(automations.Keys) && used == old(used)
      ensures forall r | r in old(runs) && !Terminal(old(runs)[r].status) && r !in pending :: r in runs && runs[r].status == Interrupted
      ensures old(Stored(State(), clock)) ==> Stored(State(), clock)
    {
      var live := LiveRuns(runs);
      ghost var start := State();
      while live != {}
        invariant Interrupting(start, State(), live, pending, settledAt, clock)
        decreases live
      {
        var r :| r in live;
        if r in pending {
          InterruptNone(start, State(), live, pending, settledAt, clock, r);
        } else {
          InterruptOne(slots, start, State(), live, pending, settledAt, clock, r);
          var settled := FinishRun(r, Interrupted, Some(RESTARTED), settledAt[r]);
        }
        live := live - {r};
      }
      InterruptsDone(start, State(), pending, settledAt, clock);
    }

    /** `now` is the clock of the pass, `at` the one a fire or a missed run reads for itself. */
    method RecoverOne(id: string, run: string, now: int, at: int)
      requires id in automations && run !in used && now <= at
      modifies this
      ensures State() == RecoverStep(slots, old(State()), id, run, now, at)
    {
      var a := automations[id];
      if a.status != Active || (a.endAt.Some? && a.endAt.value <= now) { return; }
      if a.nextFireAt.Some? && a.nextFireAt.value <= now {
        if a.schedule.Once? {
          var launch := Fire(id, run, Backfill, at);
        } else {
          RecordMissedRun(id, run, at);
        }
      } else if a.nextFireAt == None && !a.schedule.Manual? && !IsLive(id) {
        StoreWithNext(id, a, now, Now);
      }
    }

    // ---- the tick ----

    /** One pass: complete what reached its end, fire what is due. Afterwards nothing is due and nothing active is past its end. */
    method Tick(sweep: Sweep, ghost end: int)
      requires Recovered(State(), sweep.now)
      requires FreshIds(State(), automations.Keys, sweep.ids) && Reaches(sweep, automations.Keys, end)
      modifies this
      ensures AllSound(State()) && automations.Keys == old(automations.Keys)
      ensures forall id | id in automations :: !Due(automations[id], sweep.now) && !Ended(automations[id], sweep.now)
      ensures old(Stored(State(), sweep.now)) ==> Stored(State(), end)
    {
      ghost var orderly := Stored(State(), sweep.now);
      EndWhatEnded(sweep, end);
      var due := AllDue(automations, sweep.now);
      while due != {}
        invariant DueLeft(State(), due, sweep.now) && FreshIds(State(), due, sweep.ids)
        invariant orderly ==> Swept(State(), due, sweep.now, end)
        invariant automations.Keys == old(automations.Keys)
        decreases due
      {
        var id :| id in due;
        FireKeeps(slots, State(), due, sweep, id);
        if orderly {
          SweptStep(slots, State(), due, Op.Fire(id, sweep.ids[id], BySchedule, sweep.at[id]), id, sweep.now, end);
        }
        due := due - {id};
        var launch := Fire(id, sweep.ids[id], BySchedule, sweep.at[id]);
      }
    }

    /** Complete what reached its end. */
    method EndWhatEnded(sweep: Sweep, ghost end: int)
      requires Recovered(State(), sweep.now) && Reaches(sweep, automations.Keys, end)
      modifies this
      ensures automations.Keys == old(automations.Keys) && used == old(used)
      ensures var due := AllDue(automations, sweep.now);
              DueLeft(State(), due, sweep.now) && (old(Stored(State(), sweep.now)) ==> Swept(State(), due, sweep.now, end))
    {
      ghost var orderly := Stored(State(), sweep.now);
      ghost var left := automations.Keys;
      var ended := set id | id in automations && Ended(automations[id], sweep.now);
      if orderly {
        SweepBegins(State(), left, sweep.now, end);
      }
      while ended != {}
        invariant Ending(State(), ended, left, orderly, sweep.now, end)
        invariant automations.Keys == old(automations.Keys) && used == old(used)
        decreases ended
      {
        var id :| id in ended;
        EndOne(slots, State(), ended, left, orderly, id, sweep, end);
        ended, left := ended - {id}, left - {id};
        var changed := ChangeStatus(id, Completed, Some(END_REACHED), sweep.at[id]);
      }
      if orderly {
        SweptMost(State(), left, AllDue(automations, sweep.now), sweep.now, end);
      }
    }

    /**
     * A new process: recovery, then the first pass, each reading the clock for
     * itself. From any tables an earlier process left, it ends in the state all
     * guarantees about runs of segments start from.
     */
    method Start(pending: set<string>, settledAt: map<string, int>, first: Sweep, second: Sweep,
                 ghost clock: int, ghost middle: int, ghost end: int)
      requires Stored(State(), clock) && SettlesAfter(LiveRuns(runs), settledAt, clock) && clock <= first.now && middle <= second.now
      requires FreshIds(State(), automations.Keys, first.ids) && Reaches(first, automations.Keys, middle)
      requires FreshIds(State(), automations.Keys, second.ids) && Reaches(second, automations.Keys, end)
      requires first.ids.Values !! second.ids.Values
      modifies this
      ensures AllSound(State()) && AllTimely(State(), end) && Booked(State()) && automations.Keys == old(automations.Keys)
      ensures forall id | id in automations :: !Due(automations[id], second.now) && !Ended(automations[id], second.now)
    {
      Recover(pending, settledAt, first, clock, middle);
      RecoveredLater(State(), first.now, second.now);
      StoredLater(State(), middle, second.now);
      Tick(second, end);
    }
  }

  // ---- what the loops rest on ----

  predicate Ended(a: Automation, now: int) {
    a.status == Active && a.endAt.Some? && a.endAt.value <= now
  }

  /** listDueAutomations. */
  function AllDue(automations: map<string, Automation>, now: int): set<string> {
    set id | id in automations && Due(automations[id], now)
  }

  /** Rows as startup may find them, migrated ones without a next fire included. */
  ghost predicate StartReady(w: World) {
    Tables(w) && forall id | id in w.automations :: Storable(FactsOf(w, id))
  }

  /** Not stalled, unless its end has come and the tick is about to complete it. */
  predicate Settling(f: Facts, now: int) {
    Storable(f) && (NotStalled(f) || Ended(f.a, now))
  }

  /** Startup has seen every automation but those in `todo`. */
  ghost predicate Halfway(w: World, todo: set<string>, now: int) {
    Tables(w) && todo <= w.automations.Keys
    && forall id | id in w.automations :: if id in todo then Storable(FactsOf(w, id)) else Settling(FactsOf(w, id), now)
  }

  ghost predicate Recovered(w: World, now: int) {
    Tables(w) && forall id | id in w.automations :: Settling(FactsOf(w, id), now)
  }

  ghost predicate FreshIds(w: World, ids: set<string>, newIds: map<string, string>) {
    ids <= newIds.Keys && (forall id | id in ids :: newIds[id] !in w.used)
    && forall x, y | x in ids && y in ids && newIds[x] == newIds[y] :: x == y
  }

  ghost predicate EndsLeft(w: World, ended: set<string>, now: int) {
    Tables(w) && ended <= w.automations.Keys
    && forall id | id in w.automations :: Settling(FactsOf(w, id), now) && (Ended(w.automations[id], now) ==> id in ended)
  }

  ghost predicate DueLeft(w: World, due: set<string>, now: int) {
    AllSound(w) && due <= w.automations.Keys
    && forall id | id in w.automations :: !Ended(w.automations[id], now) && (Due(w.automations[id], now) ==> id in due)
  }

  /** Each of the runs has a clock for its settlement, none earlier than `clock`. */
  predicate SettlesAfter(live: set<string>, settledAt: map<string, int>, clock: int) {
    live <= settledAt.Keys && forall r | r in live :: clock <= settledAt[r]
  }

  /** What waits for its end at one moment still does later. */
  lemma RecoveredLater(w: World, now: int, later: int)
    requires Recovered(w, now) && now <= later
    ensures Recovered(w, later)
  {
    forall id | id in w.automations ensures Settling(FactsOf(w, id), later) {
      assert Settling(FactsOf(w, id), now);
    }
  }

  function LiveRuns(runs: map<string, Run>): set<string> {
    set r | r in runs && !Terminal(runs[r].status)
  }

  /** Of the runs that were live at the start only those in `live` are not settled yet. */
  ghost predicate InterruptsLeft(before: map<string, Run>, runs: map<string, Run>, live: set<string>, pending: set<string>) {
    live <= runs.Keys && (forall r | r in live :: !Terminal(runs[r].status))
    && forall r | r in before && !Terminal(before[r].status) && r !in pending && r !in live :: r in runs && runs[r].status == Interrupted
  }

  /** The loop that settles the lost runs, begun at `start`. */
  ghost predicate Interrupting(start: World, w: World, live: set<string>, pending: set<string>, settledAt: map<string, int>, clock: int) {
    StartReady(w) && w.automations.Keys == start.automations.Keys && w.used == start.used
    && SettlesAfter(live, settledAt, clock) && InterruptsLeft(start.runs, w.runs, live, pending)
    && (Stored(start, clock) ==> Stored(w, clock))
  }

  lemma InterruptOne(slots: Slots, start: World, w: World, live: set<string>, pending: set<string>,
                     settledAt: map<string, int>, clock: int, run: string)
    requires Interrupting(start, w, live, pending, settledAt, clock) && run in live
    ensures Interrupting(start, Apply(slots, w, Settle(run, Interrupted, Some(RESTARTED), settledAt[run])), live - {run}, pending, settledAt, clock)
  {
    SettleKeepsReady(slots, w, run, Interrupted, Some(RESTARTED), settledAt[run]);
    InterruptsOneLess(slots, w, start.runs, live, pending, run, settledAt[run]);
    if Stored(w, clock) {
      SettleStored(slots, w, clock, run, Interrupted, Some(RESTARTED), settledAt[run]);
    }
  }

  lemma InterruptNone(start: World, w: World, live: set<string>, pending: set<string>, settledAt: map<string, int>, clock: int, run: string)
    requires Interrupting(start, w, live, pending, settledAt, clock) && run in live && run in pending
    ensures Interrupting(start, w, live - {run}, pending, settledAt, clock)
  {
  }

  lemma InterruptsDone(start: World, w: World, pending: set<string>, settledAt: map<string, int>, clock: int)
    requires Interrupting(start, w, {}, pending, settledAt, clock)
    ensures forall r | r in start.runs && !Terminal(start.runs[r].status) && r !in pending :: r in w.runs && w.runs[r].status == Interrupted
  {
  }

  lemma InterruptsOneLess(slots: Slots, w: World, before: map<string, Run>, live: set<string>, pending: set<string>, run: string, now: int)
    requires InterruptsLeft(before, w.runs, live, pending) && run in live
    ensures InterruptsLeft(before, Apply(slots, w, Settle(run, Interrupted, Some(RESTARTED), now)).runs, live - {run}, pending)
  {
  }

  lemma SettleSaves(slots: Slots, w: World, run: string, outcome: RunStatus, error: Option<string>, now: int)
    requires StartReady(w) && run in w.runs && Terminal(outcome)
    ensures var p := SettlePlan(slots, w, run, outcome, error, now);
            !p.automations.Drop? && (p.automations.Save? ==> p.automations.id in w.automations) && !p.runs.Insert?
            && (p.automations.Save? ==> Storable(FactsOf(Perform(w, p), p.automations.id)))
  {
    assert Storable(FactsOf(w, w.runs[run].automation));
    if SettlePlan(slots, w, run, outcome, error, now).automations.Save? {
      SettleSound(slots, w, run, outcome, error, now);
    }
  }

  lemma SettleKeepsReady(slots: Slots, w: World, run: string, outcome: RunStatus, error: Option<string>, now: int)
    requires StartReady(w) && run in w.runs && Terminal(outcome)
    ensures var u := Apply(slots, w, Settle(run, outcome, error, now));
            StartReady(u) && u.automations.Keys == w.automations.Keys && u.used == w.used
  {
    var op := Settle(run, outcome, error, now);
    PlansAreLegal(slots, w, op);
    SettleSaves(slots, w, run, outcome, error, now);
    KeepsReady(w, PlanOf(slots, w, op));
    KeepsKeys(w, PlanOf(slots, w, op));
  }

  lemma KeepsKeys(w: World, p: Plan)
    requires !p.automations.Drop? && (p.automations.Save? ==> p.automations.id in w.automations) && !p.runs.Insert?
    ensures Perform(w, p).automations.Keys == w.automations.Keys && Perform(w, p).used == w.used
  {
  }

  lemma KeepsReady(w: World, p: Plan)
    requires StartReady(w) && Legal(w, p) && !p.automations.Drop?
    requires p.automations.Save? ==> Storable(FactsOf(Perform(w, p), p.automations.id))
    ensures StartReady(Perform(w, p))
  {
    LegalKeepsTables(w, p);
    forall id | id in Perform(w, p).automations ensures Storable(FactsOf(Perform(w, p), id)) {
      if p.automations.KeepAutomations? || p.automations.id != id {
        assert Storable(FactsOf(w, id));
        Elsewhere(w, p, id);
      }
    }
  }

  /** What startup does about one automation: nothing, or one segment. */
  function RecoverOp(w: World, id: string, run: string, now: int, at: int): Option<Op>
    requires id in w.automations
  {
    var a := w.automations[id];
    if a.status != Active || (a.endAt.Some? && a.endAt.value <= now) then None
    else if Due(a, now) then
      Some(if a.schedule.Once? then Op.Fire(id, run, Backfill, at) else RecordMissed(id, run, at))
    else Some(Recompute(id, now))
  }

  function RecoverPlan(slots: Slots, w: World, id: string, run: string, now: int, at: int): Plan
    requires id in w.automations
  {
    var op := RecoverOp(w, id, run, now, at);
    if op.Some? then PlanOf(slots, w, op.value) else NOTHING
  }

  function RecoverStep(slots: Slots, w: World, id: string, run: string, now: int, at: int): World
    requires id in w.automations
  {
    Perform(w, RecoverPlan(slots, w, id, run, now, at))
  }

  lemma RecoverIsLegal(slots: Slots, w: World, id: string, run: string, now: int, at: int)
    requires Tables(w) && id in w.automations
    ensures Legal(w, RecoverPlan(slots, w, id, run, now, at)) && Tables(RecoverStep(slots, w, id, run, now, at))
    ensures var p := RecoverPlan(slots, w, id, run, now, at); p.automations == KeepAutomations || (p.automations.Save? && p.automations.id == id)
    ensures RecoverStep(slots, w, id, run, now, at).used <= w.used + {run}
    ensures !RecoverPlan(slots, w, id, run, now, at).runs.Rewrite? && !RecoverPlan(slots, w, id, run, now, at).runs.Remove?
  {
  }

  lemma RecoverOneSound(slots: Slots, w: World, id: string, run: string, now: int, at: int)
    requires Tables(w) && id in w.automations && Storable(FactsOf(w, id)) && run !in w.used && now <= at
    ensures id in RecoverStep(slots, w, id, run, now, at).automations && Settling(FactsOf(RecoverStep(slots, w, id, run, now, at), id), now)
  {
    var p, a := RecoverPlan(slots, w, id, run, now, at), w.automations[id];
    LiveIsHasLive(w, id);
    if p.automations.Save? {
      if Due(a, now) && a.schedule.Once? {
        FireSound(slots, w, id, run, Backfill, at);
      } else if Due(a, now) {
        RecomputingSound(slots, w, RecordMissed(id, run, at));
      } else {
        RecomputingSound(slots, w, Recompute(id, now));
      }
    }
  }

  lemma RecoverOneElsewhere(slots: Slots, w: World, id: string, run: string, now: int, at: int)
    requires Tables(w) && id in w.automations && run !in w.used
    ensures var u := RecoverStep(slots, w, id, run, now, at);
            Tables(u) && u.automations.Keys == w.automations.Keys && u.used <= w.used + {run}
            && (forall other | other in w.automations && other != id :: FactsOf(u, other) == FactsOf(w, other))
            && (forall r | r in w.runs :: r in u.runs && u.runs[r] == w.runs[r])
  {
    var p, u := RecoverPlan(slots, w, id, run, now, at), RecoverStep(slots, w, id, run, now, at);
    RecoverIsLegal(slots, w, id, run, now, at);
    forall other | other in w.automations && other != id ensures FactsOf(u, other) == FactsOf(w, other) {
      Elsewhere(w, p, other);
    }
  }

  lemma RecoverOneKeeps(slots: Slots, w: World, todo: set<string>, sweep: Sweep, id: string)
    requires Halfway(w, todo, sweep.now) && FreshIds(w, todo, sweep.ids) && id in todo && id in sweep.at && sweep.now <= sweep.at[id]
    ensures var u := RecoverStep(slots, w, id, sweep.ids[id], sweep.now, sweep.at[id]);
            Halfway(u, todo - {id}, sweep.now) && FreshIds(u, todo - {id}, sweep.ids)
            && u.automations.Keys == w.automations.Keys && u.used <= w.used + {sweep.ids[id]}
            && (forall r | r in w.runs :: r in u.runs && u.runs[r] == w.runs[r])
  {
    RecoverOneSound(slots, w, id, sweep.ids[id], sweep.now, sweep.at[id]);
    RecoverOneElsewhere(slots, w, id, sweep.ids[id], sweep.now, sweep.at[id]);
  }

  lemma RecoverOneSwept(slots: Slots, w: World, todo: set<string>, sweep: Sweep, id: string, end: int)
    requires Swept(w, todo, sweep.now, end) && id in todo && id in w.automations && Reaches(sweep, w.automations.Keys, end) && id in sweep.ids
    ensures Swept(RecoverStep(slots, w, id, sweep.ids[id], sweep.now, sweep.at[id]), todo - {id}, sweep.now, end)
  {
    var op := RecoverOp(w, id, sweep.ids[id], sweep.now, sweep.at[id]);
    if op.Some? {
      SweptStep(slots, w, todo, op.value, id, sweep.now, end);
    } else {
      SweptMost(w, todo, todo - {id}, sweep.now, end);
    }
  }

  lemma EndSettles(slots: Slots, w: World, ended: set<string>, id: string, now: int, at: int, other: string)
    requires EndsLeft(w, ended, now) && id in ended && other in w.automations
    ensures other in Apply(slots, w, SetStatus(id, Completed, Some(END_REACHED), at)).automations
    ensures Settling(FactsOf(Apply(slots, w, SetStatus(id, Completed, Some(END_REACHED), at)), other), now)
  {
    var p := SetStatusPlan(w, id, Completed, Some(END_REACHED), at);
    PlansAreLegal(slots, w, SetStatus(id, Completed, Some(END_REACHED), at));
    assert Settling(FactsOf(w, other), now);
    if p.automations.Save? && other == id {
      SavedFacts(w, p);
    } else {
      Elsewhere(w, p, other);
    }
  }

  lemma EndKeeps(slots: Slots, w: World, ended: set<string>, id: string, now: int, at: int)
    requires EndsLeft(w, ended, now) && id in ended
    ensures var u := Apply(slots, w, SetStatus(id, Completed, Some(END_REACHED), at));
            EndsLeft(u, ended - {id}, now) && u.automations.Keys == w.automations.Keys && u.used == w.used
            && u.automations[id].nextFireAt == None && forall other | other in w.automations && other != id :: u.automations[other] == w.automations[other]
  {
    PlansAreLegal(slots, w, SetStatus(id, Completed, Some(END_REACHED), at));
    LegalKeepsTables(w, SetStatusPlan(w, id, Completed, Some(END_REACHED), at));
    forall other | other in w.automations
      ensures Settling(FactsOf(Apply(slots, w, SetStatus(id, Completed, Some(END_REACHED), at)), other), now)
    {
      EndSettles(slots, w, ended, id, now, at, other);
    }
  }

  /** The loop that completes what ended: `left` are the automations it did not touch. */
  ghost predicate Ending(w: World, ended: set<string>, left: set<string>, orderly: bool, now: int, end: int) {
    EndsLeft(w, ended, now) && ended <= left <= w.automations.Keys && AllDue(w.automations, now) <= left
    && (orderly ==> Swept(w, left, now, end))
  }

  lemma EndOne(slots: Slots, w: World, ended: set<string>, left: set<string>, orderly: bool, id: string, sweep: Sweep, end: int)
    requires Ending(w, ended, left, orderly, sweep.now, end) && id in ended && Reaches(sweep, w.automations.Keys, end)
    ensures var u := Apply(slots, w, SetStatus(id, Completed, Some(END_REACHED), sweep.at[id]));
            Ending(u, ended - {id}, left - {id}, orderly, sweep.now, end) && u.automations.Keys == w.automations.Keys && u.used == w.used
  {
    EndKeeps(slots, w, ended, id, sweep.now, sweep.at[id]);
    if orderly {
      SweptStep(slots, w, left, SetStatus(id, Completed, Some(END_REACHED), sweep.at[id]), id, sweep.now, end);
    }
  }

  /** A fire at or after the clock of the pass leaves nothing due as of that clock. */
  lemma FireClears(slots: Slots, w: World, id: string, run: string, trigger: Trigger, now: int, at: int)
    requires id in w.automations && ScheduleValid(w.automations[id].schedule) && run !in w.used && trigger != ByHand && now <= at
    ensures var u := Perform(w, FirePlan(slots, w, id, run, trigger, at));
            u.automations.Keys == w.automations.Keys && u.used <= w.used + {run}
            && (forall other | other in w.automations && other != id :: u.automations[other] == w.automations[other])
            && !Due(u.automations[id], now) && Ended(u.automations[id], now) == Ended(w.automations[id], now)
  {
  }

  lemma FireKeeps(slots: Slots, w: World, due: set<string>, sweep: Sweep, id: string)
    requires DueLeft(w, due, sweep.now) && FreshIds(w, due, sweep.ids) && id in due && id in sweep.at && sweep.now <= sweep.at[id]
    ensures var u := Apply(slots, w, Fire(id, sweep.ids[id], BySchedule, sweep.at[id]));
            DueLeft(u, due - {id}, sweep.now) && FreshIds(u, due - {id}, sweep.ids) && u.automations.Keys == w.automations.Keys
  {
    StepSound(slots, w, Fire(id, sweep.ids[id], BySchedule, sweep.at[id]));
    assert Sound(FactsOf(w, id));
    FireClears(slots, w, id, sweep.ids[id], BySchedule, sweep.now, sweep.at[id]);
  }
}
