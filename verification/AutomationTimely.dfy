/**
 * What a monotone clock adds: the due times of an automation are claimed once
 * and in order, across pauses, edits, manual runs and restarts, and a one-time
 * fire that came due behind a manual run is put back.
 */
module AutomationTimely {
  import opened Options
  import opened AutomationModel
  import opened AutomationSafety

  // ---- the clock ----

  function Tick(clock: int, op: Op): int {
    ClockOf(op).OrElse(clock)
  }

  /** The segment's readings of the clock come after `clock` and in order. */
  predicate InTime(clock: int, op: Op) {
    match op
    case Create(_, _, _, _, at, made, now) => clock <= at <= made <= now
    case Update(_, _, _, _, _, at, now) => clock <= at <= now
    case _ => clock <= Tick(clock, op)
  }

  function ClockAfter(clock: int, ops: seq<Op>): int
    decreases |ops|
  {
    if ops == [] then clock else Tick(ClockAfter(clock, ops[..|ops| - 1]), ops[|ops| - 1])
  }

  predicate Monotone(clock: int, ops: seq<Op>)
    decreases |ops|
  {
    ops == [] || (Monotone(clock, ops[..|ops| - 1])
                  && InTime(ClockAfter(clock, ops[..|ops| - 1]), ops[|ops| - 1]))
  }

  // ---- the invariant of one automation ----

  predicate Increasing(s: seq<int>) {
    forall i, j | 0 <= i < j < |s| :: s[i] < s[j]
  }

  /** Later than every due time claimed so far. */
  predicate Beyond(t: int, claimed: seq<int>) {
    claimed != [] ==> t > claimed[|claimed| - 1]
  }

  /**
   * The next due time is a new one. The exception is a one-time automation whose
   * own run is still live: its run time may stand in `nextFireAt` again, but it
   * cannot be claimed before the live run completes the automation.
   */
  predicate Timely(f: Facts, clock: int) {
    Increasing(f.claimed)
    && (f.claimed != [] ==> f.claimed[|f.claimed| - 1] <= clock)
    && (f.a.nextFireAt.Some? ==> Beyond(f.a.nextFireAt.value, f.claimed) || (f.a.schedule.Once? && f.scheduledLive))
    && (f.a.status == Active && f.a.schedule.Once? ==> Beyond(f.a.schedule.runAt, f.claimed) || f.scheduledLive)
  }

  ghost predicate AllTimely(w: World, clock: int) {
    AllSound(w) && forall id | id in w.automations :: Timely(FactsOf(w, id), clock)
  }

  /** A computed next fire is later than now, or the run time of a one-time automation. */
  lemma ComputedIsLater(slots: Slots, a: Automation, now: int, basis: Basis)
    requires ScheduleValid(a.schedule)
    requires basis == Previous && a.schedule.Interval? ==> a.lastFinishedAt == Some(now)
    ensures var t := ComputeNextFireAt(slots, a, now, basis);
            t.Some? ==> if a.schedule.Once? then t.value == a.schedule.runAt else t.value > now
  {
  }

  /** A save that claims nothing. */
  lemma KeptTimely(f: Facts, g: Facts, clock: int, now: int)
    requires Timely(f, clock) && clock <= now && g.claimed == f.claimed
    requires g.a.nextFireAt.Some? ==>
               g.a.nextFireAt.value > now || (g.a.nextFireAt == f.a.nextFireAt && g.a.schedule == f.a.schedule && g.scheduledLive == f.scheduledLive)
               || (g.a.schedule.Once? && g.a.nextFireAt.value == g.a.schedule.runAt && g.a.status == Active)
    requires g.a.status == Active && g.a.schedule.Once? ==>
               g.a.schedule.runAt > now || (f.a.status == Active && g.a.schedule == f.a.schedule && g.scheduledLive == f.scheduledLive)
    ensures Timely(g, now)
  {
  }

  /** A save that claims the due time. */
  lemma ClaimTimely(f: Facts, g: Facts, clock: int, now: int, due: int)
    requires Timely(f, clock) && Beyond(due, f.claimed) && due <= now && g.claimed == f.claimed + [due]
    requires g.a.nextFireAt.Some? ==> g.a.nextFireAt.value > now
    requires g.a.status == Active && g.a.schedule.Once? ==> g.scheduledLive
    ensures Timely(g, now)
  {
  }

  /** The starting point of every step: legal tables, and the facts of one automation. */
  ghost predicate Ready(w: World, id: string, clock: int, now: int, p: Plan) {
    Tables(w) && id in w.automations && Storable(FactsOf(w, id)) && Timely(FactsOf(w, id), clock) && clock <= now
    && Legal(w, p) && p.automations.Save? && p.automations.id == id
  }

  lemma FireTimely(slots: Slots, w: World, clock: int, id: string, run: string, trigger: Trigger, now: int)
    requires Ready(w, id, clock, now, FirePlan(slots, w, id, run, trigger, now))
    ensures Timely(FactsOf(Perform(w, FirePlan(slots, w, id, run, trigger, now)), id), now)
  {
    var p, a := FirePlan(slots, w, id, run, trigger, now), w.automations[id];
    var f, g := FactsOf(w, id), FactsOf(Perform(w, p), id);
    SavedFacts(w, p);
    LiveIsHasLive(w, id);
    ComputedIsLater(slots, a, now, Now);
    if p.runs.KeepRuns? {
      KeptTimely(f, g, clock, now);
    } else {
      ClaimTimely(f, g, clock, now, a.nextFireAt.value);
    }
  }

  lemma SettleTimely(slots: Slots, w: World, clock: int, run: string, outcome: RunStatus, error: Option<string>, now: int)
    requires run in w.runs && Ready(w, w.runs[run].automation, clock, now, SettlePlan(slots, w, run, outcome, error, now))
    ensures Timely(FactsOf(Perform(w, SettlePlan(slots, w, run, outcome, error, now)), w.runs[run].automation), now)
  {
  }

  lemma UpdateTimely(slots: Slots, w: World, clock: int, id: string, revision: nat, schedule: Option<Schedule>, endAt: Option<Option<int>>,
                     silent: Option<bool>, checkedAt: int, now: int)
    requires Ready(w, id, clock, now, UpdatePlan(slots, w, id, revision, schedule, endAt, silent, checkedAt, now)) && clock <= checkedAt
    ensures Timely(FactsOf(Perform(w, UpdatePlan(slots, w, id, revision, schedule, endAt, silent, checkedAt, now)), id), now)
  {
  }

  lemma ActivateTimely(slots: Slots, w: World, clock: int, id: string, now: int)
    requires Ready(w, id, clock, now, ActivatePlan(slots, w, id, now))
    ensures Timely(FactsOf(Perform(w, ActivatePlan(slots, w, id, now)), id), now)
  {
  }

  lemma RecomputeTimely(slots: Slots, w: World, clock: int, id: string, now: int)
    requires Ready(w, id, clock, now, RecomputePlan(slots, w, id, now))
    ensures Timely(FactsOf(Perform(w, RecomputePlan(slots, w, id, now)), id), now)
  {
  }

  lemma MissedTimely(slots: Slots, w: World, clock: int, id: string, run: string, now: int)
    requires Ready(w, id, clock, now, RecordMissedPlan(slots, w, id, run, now))
    ensures Timely(FactsOf(Perform(w, RecordMissedPlan(slots, w, id, run, now)), id), now)
  {
  }

  lemma CreateTimely(slots: Slots, w: World, id: string, schedule: Schedule, endAt: Option<int>, silent: bool,
                     checkedAt: int, createdAt: int, now: int)
    requires Tables(w) && CreatePlan(slots, w, id, schedule, endAt, silent, checkedAt, createdAt, now).automations.Save?
    ensures Timely(FactsOf(Perform(w, CreatePlan(slots, w, id, schedule, endAt, silent, checkedAt, createdAt, now)), id), now)
  {
  }

  lemma OtherSaveTimely(slots: Slots, w: World, clock: int, op: Op)
    requires (op.RunNow? || op.SetStatus?) && Ready(w, op.id, clock, op.now, PlanOf(slots, w, op))
    ensures Timely(FactsOf(Apply(slots, w, op), op.id), op.now)
  {
  }

  lemma TargetTimely(slots: Slots, w: World, clock: int, op: Op)
    requires ClockOf(op).Some? && !op.Create? && InTime(clock, op)
    requires var p := PlanOf(slots, w, op); p.automations.Save? && Ready(w, p.automations.id, clock, ClockOf(op).value, p)
    ensures Timely(FactsOf(Apply(slots, w, op), PlanOf(slots, w, op).automations.id), ClockOf(op).value)
  {
    if op.Fire? {
      FireTimely(slots, w, clock, op.id, op.run, op.trigger, op.now);
    } else if op.Settle? {
      SettleTimely(slots, w, clock, op.run, op.outcome, op.error, op.now);
    } else if op.Update? {
      UpdateTimely(slots, w, clock, op.id, op.expectedRevision, op.newSchedule, op.newEndAt, op.newSilent, op.checkedAt, op.now);
    } else if op.Activate? {
      ActivateTimely(slots, w, clock, op.id, op.now);
    } else if op.RunNow? || op.SetStatus? {
      OtherSaveTimely(slots, w, clock, op);
    } else if op.RecordMissed? {
      MissedTimely(slots, w, clock, op.id, op.run, op.now);
    } else {
      RecomputeTimely(slots, w, clock, op.id, op.now);
    }
  }

  lemma StepTargetTimely(slots: Slots, w: World, clock: int, op: Op)
    requires AllTimely(w, clock) && InTime(clock, op) && PlanOf(slots, w, op).automations.Save?
    ensures Timely(FactsOf(Apply(slots, w, op), PlanOf(slots, w, op).automations.id), Tick(clock, op))
  {
    var id := PlanOf(slots, w, op).automations.id;
    if op.Create? {
      CreateTimely(slots, w, id, op.schedule, op.endAt, op.silent, op.checkedAt, op.createdAt, op.now);
    } else {
      PlansAreLegal(slots, w, op);
      WhoseSave(slots, w, op);
      assert Sound(FactsOf(w, id)) && Timely(FactsOf(w, id), clock);
      TargetTimely(slots, w, clock, op);
    }
  }

  lemma OthersTimely(w: World, p: Plan, clock: int, now: int)
    requires AllTimely(w, clock) && clock <= now && Legal(w, p)
    ensures forall id | id in Perform(w, p).automations && !(p.automations.Save? && p.automations.id == id) ::
              Timely(FactsOf(Perform(w, p), id), now)
  {
    forall id | id in Perform(w, p).automations && !(p.automations.Save? && p.automations.id == id)
      ensures Timely(FactsOf(Perform(w, p), id), now)
    {
      assert Timely(FactsOf(w, id), clock);
      Elsewhere(w, p, id);
    }
  }

  lemma StepTimely(slots: Slots, w: World, clock: int, op: Op)
    requires AllTimely(w, clock) && InTime(clock, op)
    ensures AllTimely(Apply(slots, w, op), Tick(clock, op))
  {
    StepSound(slots, w, op);
    PlansAreLegal(slots, w, op);
    OthersTimely(w, PlanOf(slots, w, op), clock, Tick(clock, op));
    if PlanOf(slots, w, op).automations.Save? {
      StepTargetTimely(slots, w, clock, op);
    }
  }

  lemma {:induction false} AlwaysTimely(slots: Slots, w: World, clock: int, ops: seq<Op>)
    requires AllTimely(w, clock) && Monotone(clock, ops)
    ensures AllTimely(RunAll(slots, w, ops), ClockAfter(clock, ops))
    decreases |ops|
  {
    if ops != [] {
      var front := ops[..|ops| - 1];
      AlwaysTimely(slots, w, clock, front);
      StepTimely(slots, RunAll(slots, w, front), ClockAfter(clock, front), ops[|ops| - 1]);
    }
  }

  /** Due times are claimed in strictly increasing order, whatever is edited, paused or resumed in between. */
  lemma DueTimesIncrease(slots: Slots, w: World, clock: int, ops: seq<Op>, id: string)
    requires AllTimely(w, clock) && Monotone(clock, ops) && id in RunAll(slots, w, ops).automations
    ensures Increasing(Claimed(RunAll(slots, w, ops), id))
  {
    AlwaysTimely(slots, w, clock, ops);
    assert Timely(FactsOf(RunAll(slots, w, ops), id), ClockAfter(clock, ops));
  }

  // ---- rows in the table ----

  predicate Scheduled(w: World, run: string, id: string) {
    run in w.runs && w.runs[run].automation == id && w.runs[run].trigger != ByHand
  }

  /** Every scheduled row's due time is among the claimed ones, and no two rows share one. */
  ghost predicate Booked(w: World) {
    (forall r, id | Scheduled(w, r, id) :: w.runs[r].scheduledFor in Claimed(w, id))
    && forall r, s, id | Scheduled(w, r, id) && Scheduled(w, s, id) && w.runs[r].scheduledFor == w.runs[s].scheduledFor :: r == s
  }

  /** A new scheduled row's due time was never claimed before, because the claims still increase with it. */
  lemma InsertIsNew(w: World, p: Plan)
    requires p.runs.Insert? && p.runs.row.trigger != ByHand
    requires Increasing(Claimed(Perform(w, p), p.runs.row.automation))
    ensures p.runs.row.scheduledFor !in Claimed(w, p.runs.row.automation)
  {
    var c, d := Claimed(w, p.runs.row.automation), Claimed(Perform(w, p), p.runs.row.automation);
    assert d == c + [p.runs.row.scheduledFor];
    forall i | 0 <= i < |c| ensures c[i] != p.runs.row.scheduledFor {
      assert d[i] < d[|c|];
    }
  }

  lemma InsertBooked(w: World, p: Plan)
    requires Booked(w) && Rooted(w) && Legal(w, p) && p.runs.Insert? && p.runs.row.trigger != ByHand
    requires p.runs.row.scheduledFor !in Claimed(w, p.runs.row.automation)
    ensures Booked(Perform(w, p))
  {
    var u := Perform(w, p);
    forall r, a | Scheduled(u, r, a) && r != p.runs.run
      ensures Scheduled(w, r, a) && u.runs[r] == w.runs[r]
    {
    }
    forall r, a | Scheduled(u, r, a) ensures u.runs[r].scheduledFor in Claimed(u, a) {
      if r == p.runs.run {
        assert Claimed(u, a) == Claimed(w, a) + [p.runs.row.scheduledFor];
      }
    }
  }

  lemma OtherBooked(w: World, p: Plan)
    requires Booked(w) && Legal(w, p) && (p.runs.Insert? ==> p.runs.row.trigger == ByHand)
    ensures Booked(Perform(w, p))
  {
    var u := Perform(w, p);
    forall r, id | Scheduled(u, r, id)
      ensures Scheduled(w, r, id) && w.runs[r].scheduledFor == u.runs[r].scheduledFor && Claimed(u, id) == Claimed(w, id)
    {
    }
  }

  /** Inserting a scheduled row keeps the book as long as the claims still increase. */
  lemma PlanBooked(w: World, p: Plan)
    requires Booked(w) && Rooted(w) && Legal(w, p)
    requires p.runs.Insert? && p.runs.row.trigger != ByHand ==> Increasing(Claimed(Perform(w, p), p.runs.row.automation))
    ensures Booked(Perform(w, p))
  {
    if p.runs.Insert? && p.runs.row.trigger != ByHand {
      InsertIsNew(w, p);
      InsertBooked(w, p);
    } else {
      OtherBooked(w, p);
    }
  }

  lemma StepBooked(slots: Slots, w: World, clock: int, op: Op)
    requires AllTimely(w, clock) && InTime(clock, op) && Booked(w)
    ensures Booked(Apply(slots, w, op))
  {
    var p := PlanOf(slots, w, op);
    PlansAreLegal(slots, w, op);
    if p.runs.Insert? && p.runs.row.trigger != ByHand {
      StepTimely(slots, w, clock, op);
      assert Timely(FactsOf(Apply(slots, w, op), p.runs.row.automation), Tick(clock, op));
    }
    PlanBooked(w, p);
  }

  lemma {:induction false} AlwaysBooked(slots: Slots, w: World, clock: int, ops: seq<Op>)
    requires AllTimely(w, clock) && Monotone(clock, ops) && Booked(w)
    ensures Booked(RunAll(slots, w, ops))
    decreases |ops|
  {
    if ops != [] {
      var front := ops[..|ops| - 1];
      AlwaysBooked(slots, w, clock, front);
      AlwaysTimely(slots, w, clock, front);
      StepBooked(slots, RunAll(slots, w, front), ClockAfter(clock, front), ops[|ops| - 1]);
    }
  }

  /** No due time is used twice: the schedule and backfill rows of one automation all differ in it. */
  lemma DueTimesAreUsedOnce(slots: Slots, w: World, clock: int, ops: seq<Op>, id: string, r: string, s: string)
    requires AllTimely(w, clock) && Monotone(clock, ops) && Booked(w)
    requires var u := RunAll(slots, w, ops);
             Scheduled(u, r, id) && Scheduled(u, s, id) && u.runs[r].scheduledFor == u.runs[s].scheduledFor
    ensures r == s
  {
    AlwaysBooked(slots, w, clock, ops);
  }

  /** How often `runAt` stands among the claimed due times of an automation. */
  ghost function Uses(claimed: seq<int>, t: int): set<int> {
    set i | 0 <= i < |claimed| && claimed[i] == t
  }

  /** A one-time automation claims its run time at most once, even after the run's row was trimmed away. */
  lemma OnceFiresOncePerRunTime(slots: Slots, w: World, clock: int, ops: seq<Op>, id: string, runAt: int)
    requires AllTimely(w, clock) && Monotone(clock, ops) && id in RunAll(slots, w, ops).automations
    ensures |Uses(Claimed(RunAll(slots, w, ops), id), runAt)| <= 1
  {
    DueTimesIncrease(slots, w, clock, ops, id);
    var c := Claimed(RunAll(slots, w, ops), id);
    var uses := Uses(c, runAt);
    if uses != {} {
      var i :| i in uses;
      assert uses == {i};
    }
  }

  // ---- a one-time fire behind a live run ----

  predicate LiveRunOf(w: World, run: string, id: string) {
    run in w.runs && LiveOf(w.runs[run], id)
  }

  /** A due one-time fire behind a live run is parked: nothing is claimed, nothing is recorded as skipped. */
  lemma ParkedBehindLiveRun(slots: Slots, w: World, id: string, live: string, run: string, trigger: Trigger, now: int)
    requires AllSound(w) && id in w.automations && w.automations[id].schedule.Once? && LiveRunOf(w, live, id)
    requires Due(w.automations[id], now) && run !in w.used && trigger != ByHand
    ensures var u := Apply(slots, w, Fire(id, run, trigger, now));
            u.runs == w.runs && Claimed(u, id) == Claimed(w, id) && u.automations == w.automations[id := w.automations[id].(nextFireAt := None)]
  {
  }

  /**
   * Settling the live run puts the run time of an active one-time automation
   * back exactly when that run was started by hand (and the run time is not
   * beyond the end); any other live run completes the automation.
   */
  lemma ParkedFireReturns(slots: Slots, w: World, id: string, live: string, outcome: RunStatus, error: Option<string>, now: int)
    requires AllSound(w) && id in w.automations && LiveRunOf(w, live, id) && Terminal(outcome)
    requires w.automations[id].status == Active && w.automations[id].schedule.Once?
    ensures var u := Apply(slots, w, Settle(live, outcome, error, now)); var a := w.automations[id];
            id in u.automations
            && (u.automations[id].nextFireAt.Some? <==>
                w.runs[live].trigger == ByHand && (a.endAt.Some? ==> a.schedule.runAt <= a.endAt.value))
            && (u.automations[id].nextFireAt.Some? ==> u.automations[id].nextFireAt.value == a.schedule.runAt)
            && (u.automations[id].status == Completed <==> w.runs[live].trigger != ByHand)
  {
  }

  /** After the live run ended by hand, its once is queued for its run time at the next tick, which claims that time. */
  lemma ReturnedFireHappens(slots: Slots, w: World, id: string, live: string, outcome: RunStatus, error: Option<string>,
                            now: int, run: string, trigger: Trigger, later: int)
    requires AllSound(w) && id in w.automations && LiveRunOf(w, live, id) && w.runs[live].trigger == ByHand && Terminal(outcome)
    requires w.automations[id].status == Active && w.automations[id].schedule.Once?
    requires w.automations[id].endAt.Some? ==> w.automations[id].schedule.runAt <= w.automations[id].endAt.value
    requires w.automations[id].schedule.runAt <= later && run !in w.used && trigger != ByHand
    ensures var u := Apply(slots, Apply(slots, w, Settle(live, outcome, error, now)), Fire(id, run, trigger, later));
            run in u.runs && u.runs[run].status == Queued && u.runs[run].trigger == trigger
            && u.runs[run].scheduledFor == w.automations[id].schedule.runAt
            && Claimed(u, id) == Claimed(w, id) + [w.automations[id].schedule.runAt]
  {
    var settle := Settle(live, outcome, error, now);
    var v := Apply(slots, w, settle);
    PlansAreLegal(slots, w, settle);
    ParkedFireReturns(slots, w, id, live, outcome, error, now);
    forall r | r in v.runs ensures !LiveOf(v.runs[r], id) {
      assert r in w.runs && (r != live ==> v.runs[r] == w.runs[r]);
    }
  }

  /**
   * A one-time fire that comes due behind a manual run is not lost: parked
   * without a claim or a skipped row, it is put back when that run ends, however
   * it ends, and then queued for its own run time, which is claimed once.
   */
  lemma ParkedFireStillHappens(slots: Slots, w: World, id: string, live: string, parked: string, due: int,
                               outcome: RunStatus, error: Option<string>, now: int, run: string, trigger: Trigger, later: int)
    requires AllSound(w) && id in w.automations && LiveRunOf(w, live, id) && w.runs[live].trigger == ByHand && Terminal(outcome)
    requires w.automations[id].schedule.Once? && Due(w.automations[id], due) && due <= later
    requires parked !in w.used && run !in w.used && trigger != ByHand
    ensures var x := Apply(slots, w, Fire(id, parked, trigger, due));
            x.runs == w.runs && Claimed(x, id) == Claimed(w, id)
            && var u := Apply(slots, Apply(slots, x, Settle(live, outcome, error, now)), Fire(id, run, trigger, later));
               run in u.runs && u.runs[run].status == Queued && u.runs[run].scheduledFor == w.automations[id].schedule.runAt
               && Claimed(u, id) == Claimed(w, id) + [w.automations[id].schedule.runAt]
  {
    assert Sound(FactsOf(w, id));
    ParkedBehindLiveRun(slots, w, id, live, parked, trigger, due);
    StepSound(slots, w, Fire(id, parked, trigger, due));
    ReturnedFireHappens(slots, Apply(slots, w, Fire(id, parked, trigger, due)), id, live, outcome, error, now, run, trigger, later);
  }

  /** Unless the end comes first, an interval automation fires next one interval after its run ended, a cron automation at its next slot, a manual one never. */
  lemma CadenceAfterSettling(slots: Slots, w: World, run: string, outcome: RunStatus, error: Option<string>, now: int)
    requires AllSound(w) && run in w.runs && !Terminal(w.runs[run].status) && Terminal(outcome)
    requires w.automations[w.runs[run].automation].status == Active
    ensures var id := w.runs[run].automation; var a, b := w.automations[id], Apply(slots, w, Settle(run, outcome, error, now)).automations[id];
            (a.schedule.Interval? ==> b.nextFireAt == Capped(Some(now + a.schedule.ms), a.endAt))
            && (a.schedule.Cron? ==> b.nextFireAt == Capped(slots(a.schedule.expr, now), a.endAt))
            && (a.schedule.Manual? ==> b.nextFireAt == None)
            && b.lastFinishedAt == Some(now)
  {
    assert Sound(FactsOf(w, w.runs[run].automation));
  }

  // ---- suspending and restoring a workspace ----

  const SUSPENDED := "the workspace is being rebuilt"

  /** The first half: cancel the live run, whatever that makes of the automation. */
  ghost function Cancelled(slots: Slots, w: World, id: string, now: int): World {
    if exists r :: LiveRunOf(w, r, id) then
      var r :| LiveRunOf(w, r, id); Apply(slots, w, Settle(r, RunStatus.Cancelled, Some(SUSPENDED), now))
    else w
  }

  /** The second half pauses what was active before the cancellation. */
  ghost function Suspended(slots: Slots, w: World, id: string, now: int): World
    requires id in w.automations
  {
    var v := Cancelled(slots, w, id, now);
    if w.automations[id].status == Active then Apply(slots, v, SetStatus(id, Paused, Some(SUSPENDED), now)) else v
  }

  lemma CancellingQuiets(slots: Slots, w: World, id: string, run: string, now: int)
    requires AllSound(w) && id in w.automations && LiveRunOf(w, run, id)
    ensures var v := Apply(slots, w, Settle(run, RunStatus.Cancelled, Some(SUSPENDED), now));
            !Live(v, id) && id in v.automations
            && v.automations[id].schedule == w.automations[id].schedule && v.automations[id].endAt == w.automations[id].endAt
            && (w.automations[id].status != Active ==> v.automations[id].status == w.automations[id].status)
  {
    var v := Apply(slots, w, Settle(run, RunStatus.Cancelled, Some(SUSPENDED), now));
    forall x | x in v.runs ensures !LiveOf(v.runs[x], id) {
      assert x in w.runs && (LiveOf(w.runs[x], id) ==> x == run);
    }
  }

  lemma CancelledIsQuiet(slots: Slots, w: World, id: string, now: int)
    requires AllSound(w) && id in w.automations
    ensures var v := Cancelled(slots, w, id, now);
            AllSound(v) && !Live(v, id) && id in v.automations
            && v.automations[id].schedule == w.automations[id].schedule && v.automations[id].endAt == w.automations[id].endAt
            && (w.automations[id].status != Active ==> v.automations[id].status == w.automations[id].status)
  {
    if exists r :: LiveRunOf(w, r, id) {
      var r := PickedRun(slots, w, id, now);
      StepSound(slots, w, Settle(r, RunStatus.Cancelled, Some(SUSPENDED), now));
      CancellingQuiets(slots, w, id, r, now);
    } else {
      forall r | r in w.runs ensures !LiveOf(w.runs[r], id) {
        assert !LiveRunOf(w, r, id);
      }
    }
  }

  /** The run the cancellation picks. */
  lemma PickedRun(slots: Slots, w: World, id: string, now: int) returns (r: string)
    requires exists r :: LiveRunOf(w, r, id)
    ensures LiveRunOf(w, r, id)
    ensures Cancelled(slots, w, id, now) == Apply(slots, w, Settle(r, RunStatus.Cancelled, Some(SUSPENDED), now))
  {
    r :| LiveRunOf(w, r, id) && Cancelled(slots, w, id, now) == Apply(slots, w, Settle(r, RunStatus.Cancelled, Some(SUSPENDED), now));
  }

  /** A suspended automation has no live run and is not active. */
  lemma SuspendQuiets(slots: Slots, w: World, id: string, now: int)
    requires AllSound(w) && id in w.automations
    ensures var u := Suspended(slots, w, id, now);
            AllSound(u) && !Live(u, id) && id in u.automations && u.automations[id].status != Active
            && (w.automations[id].status == Active ==> u.automations[id].status == Paused && u.automations[id].statusReason == Some(SUSPENDED))
            && u.automations[id].schedule == w.automations[id].schedule && u.automations[id].endAt == w.automations[id].endAt
  {
    CancelledIsQuiet(slots, w, id, now);
    StepSound(slots, Cancelled(slots, w, id, now), SetStatus(id, Paused, Some(SUSPENDED), now));
  }

  /** Restoring undoes suspending exactly for automations whose end and run time are still ahead; they count from the restoration. */
  lemma RestoreUndoesSuspend(slots: Slots, w: World, id: string, now: int, later: int)
    requires AllSound(w) && id in w.automations && w.automations[id].status == Active
    ensures var a := w.automations[id]; var b := Apply(slots, Suspended(slots, w, id, now), Activate(id, later)).automations[id];
            (b.status == Active <==> (a.endAt.Some? ==> a.endAt.value > later) && NotPast(a.schedule, later))
            && (b.status == Active && a.schedule.Interval? ==> b.nextFireAt == Capped(Some(later + a.schedule.ms), a.endAt))
            && (b.status == Active && a.schedule.Cron? ==> b.nextFireAt == Capped(slots(a.schedule.expr, later), a.endAt))
            && (b.status == Active && a.schedule.Once? ==> b.nextFireAt == Capped(Some(a.schedule.runAt), a.endAt))
            && (b.status != Active ==> b.status == Paused)
  {
    SuspendQuiets(slots, w, id, now);
  }

  /** Cancelling its own live run completes an active one-time automation. */
  lemma CancellingCompletes(slots: Slots, w: World, id: string, live: string, now: int)
    requires AllSound(w) && id in w.automations && w.automations[id].status == Active && w.automations[id].schedule.Once?
    requires LiveRunOf(w, live, id) && w.runs[live].trigger != ByHand
    ensures var v := Cancelled(slots, w, id, now); id in v.automations && v.automations[id].status == Completed
  {
    var r := PickedRun(slots, w, id, now);
    assert r == live;
    ParkedFireReturns(slots, w, id, live, RunStatus.Cancelled, Some(SUSPENDED), now);
  }

  /** Cancelling anything else leaves an active automation active. */
  lemma CancellingSpares(slots: Slots, w: World, id: string, now: int)
    requires AllSound(w) && id in w.automations && w.automations[id].status == Active
    requires !w.automations[id].schedule.Once? || !HasLive(w.runs, id, true)
    ensures var v := Cancelled(slots, w, id, now); id in v.automations && v.automations[id].status == Active
  {
    if exists r :: LiveRunOf(w, r, id) {
      var r := PickedRun(slots, w, id, now);
      assert w.automations[id].schedule.Once? ==> !LiveKind(w.runs[r], id, true);
    }
  }

  /** Suspending pauses over a completion exactly for an active one-time automation whose live run was not started by hand. */
  lemma SuspendOverwritesExactly(slots: Slots, w: World, id: string, now: int)
    requires AllSound(w) && id in w.automations && w.automations[id].status == Active
    ensures var v, u := Cancelled(slots, w, id, now), Suspended(slots, w, id, now);
            id in v.automations && id in u.automations && u.automations[id].status == Paused
            && (v.automations[id].status == Completed <==> w.automations[id].schedule.Once? && HasLive(w.runs, id, true))
  {
    SuspendQuiets(slots, w, id, now);
    if w.automations[id].schedule.Once? && HasLive(w.runs, id, true) {
      var live :| live in w.runs && LiveKind(w.runs[live], id, true);
      CancellingCompletes(slots, w, id, live, now);
    } else {
      CancellingSpares(slots, w, id, now);
    }
  }

  /** A one-time automation suspended while its own run is live stays paused for good, although the end of that run had just completed it. */
  lemma SuspendedOnceStaysPaused(slots: Slots, w: World, id: string, live: string, now: int, later: int)
    requires AllSound(w) && id in w.automations && w.automations[id].status == Active && w.automations[id].schedule.Once?
    requires LiveRunOf(w, live, id) && w.runs[live].trigger != ByHand && w.automations[id].schedule.runAt <= later
    ensures var v, u := Cancelled(slots, w, id, now), Suspended(slots, w, id, now);
            id in v.automations && v.automations[id].status == Completed
            && id in u.automations && u.automations[id].status == Paused && ActivatePlan(slots, u, id, later) == NOTHING
  {
    CancellingCompletes(slots, w, id, live, now);
    SuspendQuiets(slots, w, id, now);
  }
}
