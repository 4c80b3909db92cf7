/**
 * What holds in every reachable state of the automation tables: never two live
 * runs, no stalled automation, and due times that are claimed once and in
 * order. Only the last needs anything from the clock.
 */
module AutomationSafety {
  import opened Options
  import opened AutomationModel

  // ---- the discipline of a segment ----

  /** Inserting a live run needs that none is live; a rewrite keeps whose run it is and how a finished one ended. */
  predicate LegalRuns(w: World, e: RunEdit) {
    match e
    case KeepRuns => true
    case Insert(run, r) => run !in w.used && (Terminal(r.status) || !Live(w, r.automation))
    case Rewrite(run, r) =>
      run in w.runs && r.automation == w.runs[run].automation && r.trigger == w.runs[run].trigger
      && r.scheduledFor == w.runs[run].scheduledFor
      && (Terminal(w.runs[run].status) ==> r.status == w.runs[run].status && r.finishedAt == w.runs[run].finishedAt)
    case Remove(gone) => gone <= w.runs.Keys
  }

  /** Whose schedule a run edit moves: a new run's, and a settled run's. */
  predicate Together(w: World, p: Plan) {
    match p.runs
    case KeepRuns => !p.automations.Drop?
    case Insert(_, r) => p.automations.Save? && p.automations.id == r.automation && r.automation in w.automations
    case Rewrite(run, r) =>
      if run in w.runs && Terminal(w.runs[run].status) == Terminal(r.status) then p.automations.KeepAutomations?
      else p.automations.Save? && p.automations.id == r.automation
    case Remove(gone) =>
      (p.automations.KeepAutomations? && forall r | r in gone && r in w.runs :: Terminal(w.runs[r].status))
      || (p.automations.Drop? && forall r | r in w.runs :: r in gone <==> w.runs[r].automation == p.automations.id)
  }

  predicate Legal(w: World, p: Plan) {
    LegalRuns(w, p.runs) && Together(w, p)
  }

  ghost predicate OneLive(w: World) {
    forall r, s | r in w.runs && s in w.runs && !Terminal(w.runs[r].status) && !Terminal(w.runs[s].status)
                  && w.runs[r].automation == w.runs[s].automation :: r == s
  }

  /** No orphaned runs, and every run id was recorded as used. */
  ghost predicate Rooted(w: World) {
    w.runs.Keys <= w.used && forall r | r in w.runs :: w.runs[r].automation in w.automations
  }

  ghost predicate Tables(w: World) {
    OneLive(w) && Rooted(w)
  }

  /** The transactional checks and re-reads make every segment legal; the unique index is not needed. */
  lemma PlansAreLegal(slots: Slots, w: World, op: Op)
    requires Tables(w)
    ensures Legal(w, PlanOf(slots, w, op))
  {
  }

  lemma LegalKeepsTables(w: World, p: Plan)
    requires Tables(w) && Legal(w, p)
    ensures Tables(Perform(w, p))
  {
  }

  lemma {:induction false} AlwaysTables(slots: Slots, w: World, ops: seq<Op>)
    requires Tables(w)
    ensures Tables(RunAll(slots, w, ops))
    decreases |ops|
  {
    if ops != [] {
      var before := RunAll(slots, w, ops[..|ops| - 1]);
      AlwaysTables(slots, w, ops[..|ops| - 1]);
      PlansAreLegal(slots, before, ops[|ops| - 1]);
      LegalKeepsTables(before, PlanOf(slots, before, ops[|ops| - 1]));
    }
  }

  /** An automation never has two live runs, over every interleaving of segments, cancels, settlement reports and restarts. */
  lemma NeverTwoLiveRuns(slots: Slots, w: World, ops: seq<Op>, r: string, s: string)
    requires Tables(w)
    requires var u := RunAll(slots, w, ops); r in u.runs && s in u.runs && u.runs[r].automation == u.runs[s].automation
    requires var u := RunAll(slots, w, ops); !Terminal(u.runs[r].status) && !Terminal(u.runs[s].status)
    ensures r == s
  {
    AlwaysTables(slots, w, ops);
  }

  /** Late or repeated reports never revive a finished run or change how and when it ended. */
  lemma {:induction false} FinishedRunIsFinal(slots: Slots, w: World, ops: seq<Op>, run: string)
    requires Tables(w) && run in w.runs && Terminal(w.runs[run].status)
    ensures var u := RunAll(slots, w, ops);
            run in u.used
            && (run in u.runs ==> u.runs[run].status == w.runs[run].status && u.runs[run].finishedAt == w.runs[run].finishedAt)
    decreases |ops|
  {
    if ops != [] {
      var before := RunAll(slots, w, ops[..|ops| - 1]);
      FinishedRunIsFinal(slots, w, ops[..|ops| - 1], run);
      AlwaysTables(slots, w, ops[..|ops| - 1]);
      PlansAreLegal(slots, before, ops[|ops| - 1]);
    }
  }

  // ---- facts about one automation ----

  predicate LiveKind(r: Run, id: string, scheduled: bool) {
    LiveOf(r, id) && (scheduled ==> r.trigger != ByHand)
  }

  /** A live run of the automation; with `scheduled`, one that was not started by hand. */
  ghost predicate HasLive(runs: map<string, Run>, id: string, scheduled: bool) {
    exists r :: r in runs && LiveKind(runs[r], id, scheduled)
  }

  lemma LiveIsHasLive(w: World, id: string)
    ensures Live(w, id) == HasLive(w.runs, id, false)
    ensures HasLive(w.runs, id, true) ==> HasLive(w.runs, id, false)
  {
  }

  /** Whether the automation has a live run after a run edit. */
  ghost function LiveAfter(w: World, e: RunEdit, id: string, scheduled: bool): bool {
    match e
    case KeepRuns => HasLive(w.runs, id, scheduled)
    case Insert(run, r) => HasLive(w.runs, id, scheduled) || LiveKind(r, id, scheduled)
    case Rewrite(run, r) =>
      HasLive(w.runs, id, scheduled) && !(run in w.runs && LiveOf(w.runs[run], id) && Terminal(r.status))
    case Remove(gone) => HasLive(w.runs, id, scheduled)
  }

  lemma LiveAfterIsExact(w: World, p: Plan, id: string, scheduled: bool)
    requires Tables(w) && Legal(w, p) && !(p.automations.Drop? && p.automations.id == id)
    ensures HasLive(RunsAfter(w, p.runs), id, scheduled) == LiveAfter(w, p.runs, id, scheduled)
  {
    var runs := RunsAfter(w, p.runs);
    if LiveAfter(w, p.runs, id, scheduled) {
      if p.runs.Insert? && LiveKind(p.runs.row, id, scheduled) {
        assert runs[p.runs.run] == p.runs.row;
      } else {
        var r :| r in w.runs && LiveKind(w.runs[r], id, scheduled);
        assert r in runs && LiveKind(runs[r], id, scheduled);
      }
    }
    if HasLive(runs, id, scheduled) {
      var r :| r in runs && LiveKind(runs[r], id, scheduled);
      if !(p.runs.Insert? && r == p.runs.run) {
        assert LiveKind(w.runs[r], id, scheduled);
      }
    }
  }

  datatype Facts = Facts(a: Automation, live: bool, scheduledLive: bool, claimed: seq<int>, uncapped: Option<int>)

  ghost function FactsOf(w: World, id: string): Facts
    requires id in w.automations
  {
    Facts(w.automations[id], HasLive(w.runs, id, false), HasLive(w.runs, id, true), Claimed(w, id), LastUncapped(w, id))
  }

  /** A segment leaves the facts of every automation it neither saves nor drops. */
  lemma Elsewhere(w: World, p: Plan, id: string)
    requires Tables(w) && Legal(w, p) && id in w.automations
    requires p.automations.KeepAutomations? || p.automations.id != id
    ensures id in Perform(w, p).automations && FactsOf(Perform(w, p), id) == FactsOf(w, id)
  {
    LiveAfterIsExact(w, p, id, false);
    LiveAfterIsExact(w, p, id, true);
    LiveIsHasLive(w, id);
  }

  /** The facts of the automation a segment saves. */
  lemma SavedFacts(w: World, p: Plan)
    requires Tables(w) && Legal(w, p) && p.automations.Save?
    ensures var id := p.automations.id; var g := FactsOf(Perform(w, p), id);
            g.a == p.automations.a
            && g.live == LiveAfter(w, p.runs, id, false) && g.scheduledLive == LiveAfter(w, p.runs, id, true)
            && g.claimed == Claimed(w, id) + (if p.runs.Insert? && p.runs.row.trigger != ByHand then [p.runs.row.scheduledFor] else [])
            && g.uncapped == p.automations.computed.OrElse(LastUncapped(w, id))
            && (g.scheduledLive ==> g.live)
  {
    var id := p.automations.id;
    LiveAfterIsExact(w, p, id, false);
    LiveAfterIsExact(w, p, id, true);
    LiveIsHasLive(w, id);
  }

  // ---- no automation stalls ----

  predicate BeyondEnd(f: Facts) {
    f.a.endAt.Some? && f.uncapped.Some? && f.uncapped.value > f.a.endAt.value
  }

  /** An active interval or once automation without a next fire waits for its live run, or its computed time lies beyond its end. */
  predicate NotStalled(f: Facts) {
    f.a.status == Active && (f.a.schedule.Interval? || f.a.schedule.Once?) && f.a.nextFireAt == None ==> f.live || BeyondEnd(f)
  }

  /** A next fire belongs to an active automation, never lies after its end, and is the run time of a one-time one. */
  predicate NextFireLegal(f: Facts) {
    f.a.nextFireAt.Some? ==>
      f.a.status == Active && !f.a.schedule.Manual? && (f.a.endAt.Some? ==> f.a.nextFireAt.value <= f.a.endAt.value)
      && (f.a.schedule.Once? ==> f.a.nextFireAt.value == f.a.schedule.runAt)
  }

  predicate Storable(f: Facts) {
    ScheduleValid(f.a.schedule) && NextFireLegal(f)
  }

  predicate Sound(f: Facts) {
    Storable(f) && NotStalled(f)
  }

  ghost predicate AllSound(w: World) {
    Tables(w) && forall id | id in w.automations :: Sound(FactsOf(w, id))
  }

  /** Storing a fresh computation for an active automation never stalls it. */
  lemma ComputedSound(slots: Slots, w: World, p: Plan, a: Automation, now: int, basis: Basis)
    requires Tables(w) && Legal(w, p) && p.automations.Save?
    requires p.automations == SaveComputed(slots, p.automations.id, a, now, basis)
    requires a.status == Active && ScheduleValid(a.schedule)
    ensures Sound(FactsOf(Perform(w, p), p.automations.id))
  {
  }

  lemma FireSound(slots: Slots, w: World, id: string, run: string, trigger: Trigger, now: int)
    requires Tables(w) && id in w.automations && Storable(FactsOf(w, id))
    requires FirePlan(slots, w, id, run, trigger, now).automations.Save?
    ensures Sound(FactsOf(Apply(slots, w, Fire(id, run, trigger, now)), id))
  {
    var p := FirePlan(slots, w, id, run, trigger, now);
    var a := w.automations[id];
    PlansAreLegal(slots, w, Fire(id, run, trigger, now));
    LiveIsHasLive(w, id);
    if p.automations.computed.Some? {
      ComputedSound(slots, w, p, if Live(w, id) then a else a.(lastFiredAt := Some(now)), now, if Live(w, id) then Now else Previous);
    } else {
      SavedFacts(w, p);
    }
  }

  lemma SettleSound(slots: Slots, w: World, run: string, outcome: RunStatus, error: Option<string>, now: int)
    requires Tables(w) && run in w.runs && Storable(FactsOf(w, w.runs[run].automation))
    requires SettlePlan(slots, w, run, outcome, error, now).automations.Save?
    ensures Sound(FactsOf(Apply(slots, w, Settle(run, outcome, error, now)), w.runs[run].automation))
  {
    var p := SettlePlan(slots, w, run, outcome, error, now);
    var id := w.runs[run].automation;
    var a := w.automations[id].(lastFinishedAt := Some(now));
    PlansAreLegal(slots, w, Settle(run, outcome, error, now));
    if p.automations.computed.Some? {
      ComputedSound(slots, w, p, a, now, Previous);
    } else {
      SavedFacts(w, p);
    }
  }

  /** Resume and cadence edits. */
  lemma FromNowSound(slots: Slots, w: World, id: string, a: Automation, now: int)
    requires Tables(w) && id in w.automations && a.status == Active && ScheduleValid(a.schedule)
    ensures Sound(FactsOf(Perform(w, Plan(KeepRuns, SaveFromNow(slots, w, id, a, now))), id))
  {
  }

  lemma UpdateSound(slots: Slots, w: World, op: Op)
    requires AllSound(w) && op.Update? && PlanOf(slots, w, op).automations.Save?
    ensures Sound(FactsOf(Apply(slots, w, op), op.id))
  {
    var a := w.automations[op.id];
    var next := Edited(a, op.newSchedule, op.newEndAt, op.newSilent, op.now);
    assert Sound(FactsOf(w, op.id));
    if (op.newSchedule.Some? || op.newEndAt.Some?) && a.status == Active {
      FromNowSound(slots, w, op.id, next, op.now);
    } else {
      SavedFacts(w, PlanOf(slots, w, op));
    }
  }

  /** Storing a computation of the unchanged schedule: creation, missed runs and the startup recomputation. */
  lemma RecomputingSound(slots: Slots, w: World, op: Op)
    requires Tables(w) && (op.Create? || op.RecordMissed? || op.Recompute?) && PlanOf(slots, w, op).automations.Save?
    requires !op.Create? ==> op.id in w.automations && Storable(FactsOf(w, op.id))
    ensures Sound(FactsOf(Apply(slots, w, op), op.id))
  {
  }

  lemma OtherSaveSound(slots: Slots, w: World, op: Op)
    requires AllSound(w) && (op.RunNow? || op.SetStatus? || op.Activate?) && PlanOf(slots, w, op).automations.Save?
    ensures Sound(FactsOf(Apply(slots, w, op), op.id))
  {
    assert Sound(FactsOf(w, op.id));
    PlansAreLegal(slots, w, op);
    if op.Activate? {
      var a := w.automations[op.id];
      FromNowSound(slots, w, op.id, a.(status := Active, statusReason := None, revision := a.revision + 1, updatedAt := op.now), op.now);
    } else {
      SavedFacts(w, PlanOf(slots, w, op));
    }
  }

  lemma StepSound(slots: Slots, w: World, op: Op)
    requires AllSound(w)
    ensures AllSound(Apply(slots, w, op))
  {
    var p, u := PlanOf(slots, w, op), Apply(slots, w, op);
    PlansAreLegal(slots, w, op);
    LegalKeepsTables(w, p);
    forall id | id in u.automations ensures Sound(FactsOf(u, id)) {
      if !p.automations.Save? || p.automations.id != id {
        assert Sound(FactsOf(w, id));
        Elsewhere(w, p, id);
      } else {
        TargetSound(slots, w, op);
      }
    }
  }

  lemma WhoseSave(slots: Slots, w: World, op: Op)
    ensures PlanOf(slots, w, op).automations.Save? ==>
              ClockOf(op).Some? && (!op.Create? ==> PlanOf(slots, w, op).automations.id in w.automations)
  {
  }

  lemma TargetSound(slots: Slots, w: World, op: Op)
    requires AllSound(w) && PlanOf(slots, w, op).automations.Save?
    ensures Sound(FactsOf(Apply(slots, w, op), PlanOf(slots, w, op).automations.id))
  {
    WhoseSave(slots, w, op);
    var id := PlanOf(slots, w, op).automations.id;
    assert !op.Create? ==> Sound(FactsOf(w, id));
    if op.Fire? {
      FireSound(slots, w, op.id, op.run, op.trigger, op.now);
    } else if op.Settle? {
      SettleSound(slots, w, op.run, op.outcome, op.error, op.now);
    } else if op.Update? {
      UpdateSound(slots, w, op);
    } else if op.Create? || op.RecordMissed? || op.Recompute? {
      RecomputingSound(slots, w, op);
    } else {
      OtherSaveSound(slots, w, op);
    }
  }

  lemma {:induction false} AlwaysSound(slots: Slots, w: World, ops: seq<Op>)
    requires AllSound(w)
    ensures AllSound(RunAll(slots, w, ops))
    decreases |ops|
  {
    if ops != [] {
      AlwaysSound(slots, w, ops[..|ops| - 1]);
      StepSound(slots, RunAll(slots, w, ops[..|ops| - 1]), ops[|ops| - 1]);
    }
  }

  /** In every reachable state an active interval or once automation has a next fire, a live run, or a computed time beyond its end. */
  lemma NeverStalls(slots: Slots, w: World, ops: seq<Op>, id: string)
    requires AllSound(w)
    requires id in RunAll(slots, w, ops).automations && RunAll(slots, w, ops).automations[id].status == Active
    requires var s := RunAll(slots, w, ops).automations[id].schedule; s.Interval? || s.Once?
    ensures var u := RunAll(slots, w, ops); var a := u.automations[id];
            a.nextFireAt.Some? || Live(u, id)
            || (a.endAt.Some? && LastUncapped(u, id).Some? && LastUncapped(u, id).value > a.endAt.value)
  {
    AlwaysSound(slots, w, ops);
    assert Sound(FactsOf(RunAll(slots, w, ops), id));
    LiveIsHasLive(RunAll(slots, w, ops), id);
  }

  /** The wait is not in vain: settling the live run gives the automation a next fire, completes it, or finds its time beyond its end. */
  lemma SettlingUnstalls(slots: Slots, w: World, run: string, outcome: RunStatus, error: Option<string>, now: int)
    requires AllSound(w) && run in w.runs && !Terminal(w.runs[run].status) && Terminal(outcome)
    requires var a := w.automations[w.runs[run].automation]; a.status == Active && (a.schedule.Interval? || a.schedule.Once?)
    ensures var u := Apply(slots, w, Settle(run, outcome, error, now)); var id := w.runs[run].automation;
            id in u.automations && !Live(u, id)
            && (u.automations[id].status == Completed || u.automations[id].nextFireAt.Some? || BeyondEnd(FactsOf(u, id)))
  {
    var op := Settle(run, outcome, error, now);
    PlansAreLegal(slots, w, op);
    SettleSound(slots, w, run, outcome, error, now);
    SavedFacts(w, PlanOf(slots, w, op));
    LiveIsHasLive(Apply(slots, w, op), w.runs[run].automation);
    assert LiveOf(w.runs[run], w.runs[run].automation);
  }

  /** Nobody fires while inactive or after the end, in any reachable state. */
  lemma NextFireIsLegal(slots: Slots, w: World, ops: seq<Op>, id: string)
    requires AllSound(w)
    requires var u := RunAll(slots, w, ops); id in u.automations && u.automations[id].nextFireAt.Some?
    ensures var a := RunAll(slots, w, ops).automations[id];
            a.status == Active && !a.schedule.Manual? && (a.endAt.Some? ==> a.nextFireAt.value <= a.endAt.value)
            && (a.schedule.Once? ==> a.nextFireAt.value == a.schedule.runAt)
  {
    AlwaysSound(slots, w, ops);
    assert Sound(FactsOf(RunAll(slots, w, ops), id));
  }
}
