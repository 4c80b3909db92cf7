/**
 * Automations and their runs: every synchronous segment of the engine and of
 * the service is one atomic operation on the two tables. What runs in between
 * (commands, sessions, notices, turns) only shows as the order in which the
 * operations happen and the clock values they read.
 */
module AutomationModel {
  import opened Options

  /** The cron parser: the next slot of an expression strictly after an instant, or none. */
  type Slots = f: (string, int) -> Option<int> | forall e, t :: f(e, t).Some? ==> f(e, t).value > t witness (e, t) => None

  datatype Schedule = Cron(expr: string) | Interval(ms: int) | Once(runAt: int) | Manual
  datatype Status = Active | Paused | Completed
  datatype Trigger = BySchedule | ByHand | Backfill
  datatype RunStatus = Queued | Running | Success | Failed | Skipped | Cancelled | Interrupted | Missed

  datatype Automation = Automation(
    schedule: Schedule, endAt: Option<int>, silent: bool, status: Status, statusReason: Option<string>,
    nextFireAt: Option<int>, lastFiredAt: Option<int>, lastFinishedAt: Option<int>,
    revision: nat, createdAt: int, updatedAt: int)

  datatype Run = Run(
    automation: string, trigger: Trigger, status: RunStatus, session: Option<string>, input: Option<string>,
    scheduledFor: int, firedAt: Option<int>, finishedAt: Option<int>, error: Option<string>,
    silenced: bool, readAt: Option<int>, createdAt: int)

  const INTERVAL_MIN_MS := 60_000
  const INTERVAL_MAX_MS := 365 * 24 * 60 * 60 * 1000
  const OVERLAP_SKIP := "the previous run has not finished"
  const ONCE_DONE := "one-time run finished"
  const RESTARTED := "service restarted, run interrupted"

  predicate Terminal(s: RunStatus) {
    s != Queued && s != Running
  }

  // ---- computeNextFireAt ----

  datatype Basis = Previous | Now

  function Later(a: int, b: Option<int>): int {
    if b.Some? && b.value > a then b.value else a
  }

  /** The next instant before the end time is applied. */
  function Uncapped(slots: Slots, a: Automation, now: int, basis: Basis): Option<int> {
    match a.schedule
    case Cron(expr) => slots(expr, if basis == Previous then Later(now, a.lastFinishedAt) else now)
    case Interval(ms) =>
      if ms == 0 then None
      else Some((if basis == Now then now else a.lastFinishedAt.OrElse(a.createdAt)) + ms)
    case Once(runAt) => Some(runAt)
    case Manual => None
  }

  function Capped(next: Option<int>, endAt: Option<int>): Option<int> {
    if next.Some? && endAt.Some? && next.value > endAt.value then None else next
  }

  function ComputeNextFireAt(slots: Slots, a: Automation, now: int, basis: Basis): Option<int> {
    Capped(Uncapped(slots, a, now, basis), a.endAt)
  }

  // ---- the tables and their history ----

  /**
   * `claimed` lists, per automation and in order, the scheduled times of its
   * schedule and backfill runs; `uncapped` what its last computation said before
   * the end time was applied; `used` the run ids ever inserted.
   */
  datatype World = World(
    automations: map<string, Automation>, runs: map<string, Run>,
    claimed: map<string, seq<int>>, uncapped: map<string, Option<int>>, used: set<string>)

  predicate LiveOf(r: Run, id: string) {
    r.automation == id && !Terminal(r.status)
  }

  /** getLiveAutomationRun finds a run. */
  predicate Live(w: World, id: string) {
    exists r :: r in w.runs && LiveOf(w.runs[r], id)
  }

  function Claimed(w: World, id: string): seq<int> {
    if id in w.claimed then w.claimed[id] else []
  }

  function LastUncapped(w: World, id: string): Option<int> {
    if id in w.uncapped then w.uncapped[id] else None
  }

  function NewRun(a: Automation, id: string, trigger: Trigger, status: RunStatus, now: int, scheduledFor: int): Run {
    Run(id, trigger, status, None, None, scheduledFor, Some(now), None, None, a.silent, None, now)
  }

  // ---- what one segment writes ----

  /** At most one row of each table is inserted or saved; retention and deletion remove rows. */
  datatype RunEdit = KeepRuns | Insert(run: string, row: Run) | Rewrite(run: string, row: Run) | Remove(gone: set<string>)

  /** `computed` carries the uncapped result when the save stores a fresh computation. */
  datatype AutomationEdit = KeepAutomations | Save(id: string, a: Automation, computed: Option<Option<int>>) | Drop(id: string)

  datatype Plan = Plan(runs: RunEdit, automations: AutomationEdit)

  const NOTHING := Plan(KeepRuns, KeepAutomations)

  /** Save an automation whose next fire is computed now. */
  function SaveComputed(slots: Slots, id: string, a: Automation, now: int, basis: Basis): AutomationEdit {
    Save(id, a.(nextFireAt := ComputeNextFireAt(slots, a, now, basis)), Some(Uncapped(slots, a, now, basis)))
  }

  function RunsAfter(w: World, e: RunEdit): map<string, Run> {
    match e
    case KeepRuns => w.runs
    case Insert(run, r) => w.runs[run := r]
    case Rewrite(run, r) => w.runs[run := r]
    case Remove(gone) => w.runs - gone
  }

  function Perform(w: World, p: Plan): World {
    var logged := p.runs.Insert? && p.runs.row.trigger != ByHand;
    World(
      match p.automations
      case KeepAutomations => w.automations
      case Save(id, a, _) => w.automations[id := a]
      case Drop(id) => w.automations - {id},
      RunsAfter(w, p.runs),
      if logged then w.claimed[p.runs.row.automation := Claimed(w, p.runs.row.automation) + [p.runs.row.scheduledFor]] else w.claimed,
      if p.automations.Save? && p.automations.computed.Some? then w.uncapped[p.automations.id := p.automations.computed.value] else w.uncapped,
      if p.runs.Insert? then w.used + {p.runs.run} else w.used)
  }

  function StatusFields(a: Automation, s: Status, reason: Option<string>, now: int): Automation {
    a.(status := s, statusReason := reason, nextFireAt := None, revision := a.revision + 1, updatedAt := now)
  }

  // ---- operations ----

  datatype Op =
    | Create(id: string, schedule: Schedule, endAt: Option<int>, silent: bool, checkedAt: int, createdAt: int, now: int)
    | Fire(id: string, run: string, trigger: Trigger, now: int)
    | RunNow(id: string, run: string, now: int)
    | Settle(run: string, outcome: RunStatus, error: Option<string>, now: int)
    | SetStatus(id: string, status: Status, reason: Option<string>, now: int)
    | Update(id: string, expectedRevision: nat, newSchedule: Option<Schedule>, newEndAt: Option<Option<int>>, newSilent: Option<bool>,
        checkedAt: int, now: int)
    | Activate(id: string, now: int)
    | RecordMissed(id: string, run: string, now: int)
    | Recompute(id: string, now: int)
    | Delete(id: string)
    | Started(run: string)
    | ScriptStarted(run: string)
    | Annotate(run: string, session: Option<string>, input: Option<string>, silenced: bool, readAt: Option<int>)
    | Trim(id: string, victims: set<string>)

  /** The clock value a segment reads, if it reads one: of creation and edits the last, after validating at `checkedAt`. */
  function ClockOf(op: Op): Option<int> {
    match op
    case Create(_, _, _, _, _, _, now) => Some(now)
    case Fire(_, _, _, now) => Some(now)
    case RunNow(_, _, now) => Some(now)
    case Settle(_, _, _, now) => Some(now)
    case SetStatus(_, _, _, now) => Some(now)
    case Update(_, _, _, _, _, _, now) => Some(now)
    case Activate(_, now) => Some(now)
    case RecordMissed(_, _, now) => Some(now)
    case Recompute(_, now) => Some(now)
    case Delete(_) => None
    case Started(_) => None
    case ScriptStarted(_) => None
    case Annotate(_, _, _, _, _) => None
    case Trim(_, _) => None
  }

  predicate ScheduleValid(s: Schedule) {
    s.Interval? ==> s.ms >= INTERVAL_MIN_MS
  }

  /** The bounds creation and edits hold a schedule to, also one they do not change. */
  predicate Accepted(s: Schedule) {
    ScheduleValid(s) && (s.Interval? ==> s.ms <= INTERVAL_MAX_MS)
  }

  /** What creation and edits reject. */
  predicate NotPast(s: Schedule, now: int) {
    s.Once? ==> s.runAt > now
  }

  function CreatePlan(slots: Slots, w: World, id: string, schedule: Schedule, endAt: Option<int>, silent: bool,
                      checkedAt: int, createdAt: int, now: int): Plan {
    if id in w.automations || id in w.claimed || !Accepted(schedule) || !NotPast(schedule, checkedAt)
       || (endAt.Some? && endAt.value <= checkedAt) then NOTHING
    else
      Plan(KeepRuns, SaveComputed(slots, id, Automation(schedule, endAt, silent, Active, None, None, None, None, 1, createdAt, createdAt), now, Previous))
  }

  predicate Due(a: Automation, now: int) {
    a.status == Active && a.nextFireAt.Some? && a.nextFireAt.value <= now
  }

  function SkippedRun(a: Automation, id: string, trigger: Trigger, now: int, due: int): Run {
    NewRun(a, id, trigger, Skipped, now, due).(error := Some(OVERLAP_SKIP), finishedAt := Some(now), readAt := Some(now))
  }

  function MissedRun(a: Automation, id: string, now: int, due: int): Run {
    NewRun(a, id, BySchedule, Missed, now, due).(firedAt := None, readAt := Some(now))
  }

  function FirePlan(slots: Slots, w: World, id: string, run: string, trigger: Trigger, now: int): Plan {
    if id !in w.automations || !Due(w.automations[id], now) || run in w.used || trigger == ByHand then NOTHING
    else
      var a := w.automations[id];
      var due := a.nextFireAt.value;
      if Live(w, id) then
        if a.schedule.Once? then Plan(KeepRuns, Save(id, a.(nextFireAt := None), None))
        else Plan(Insert(run, SkippedRun(a, id, trigger, now, due)), SaveComputed(slots, id, a, now, Now))
      else
        var fired := a.(lastFiredAt := Some(now));
        Plan(Insert(run, NewRun(a, id, trigger, Queued, now, due)),
             if a.schedule.Cron? then SaveComputed(slots, id, fired, now, Previous) else Save(id, fired.(nextFireAt := None), None))
  }

  function RunNowPlan(w: World, id: string, run: string, now: int): Plan {
    if id !in w.automations || Live(w, id) || run in w.used then NOTHING
    else Plan(Insert(run, NewRun(w.automations[id], id, ByHand, Queued, now, now)),
              Save(id, w.automations[id].(lastFiredAt := Some(now)), None))
  }

  function SettledRun(r: Run, outcome: RunStatus, error: Option<string>, now: int): Run {
    r.(status := outcome, finishedAt := Some(now), error := if error.Some? then error else r.error,
       readAt := if outcome in {Skipped, Cancelled} || (outcome == Success && r.silenced) then Some(now) else r.readAt)
  }

  /** What settling a run of trigger `t` makes of its automation. */
  function SettledAutomation(slots: Slots, id: string, before: Automation, t: Trigger, now: int): AutomationEdit {
    var a := before.(lastFinishedAt := Some(now));
    if a.status != Active then Save(id, a, None)
    else if a.schedule.Once? && t != ByHand then Save(id, StatusFields(a, Completed, Some(ONCE_DONE), now), None)
    else SaveComputed(slots, id, a, now, Previous)
  }

  function SettlePlan(slots: Slots, w: World, run: string, outcome: RunStatus, error: Option<string>, now: int): Plan {
    if run !in w.runs || Terminal(w.runs[run].status) || !Terminal(outcome) then NOTHING
    else
      var r := w.runs[run];
      Plan(Rewrite(run, SettledRun(r, outcome, error, now)),
           if r.automation !in w.automations then KeepAutomations
           else SettledAutomation(slots, r.automation, w.automations[r.automation], r.trigger, now))
  }

  function SetStatusPlan(w: World, id: string, s: Status, reason: Option<string>, now: int): Plan {
    if id !in w.automations || s == Active || (w.automations[id].status == s && w.automations[id].statusReason == reason) then NOTHING
    else Plan(KeepRuns, Save(id, StatusFields(w.automations[id], s, reason, now), None))
  }

  /** Resume and cadence edits count from now; a live interval run sets the next fire itself when it settles. */
  function SaveFromNow(slots: Slots, w: World, id: string, a: Automation, now: int): AutomationEdit {
    if a.schedule.Interval? && Live(w, id) then Save(id, a.(nextFireAt := None), None)
    else SaveComputed(slots, id, a, now, Now)
  }

  function Edited(a: Automation, newSchedule: Option<Schedule>, newEndAt: Option<Option<int>>, newSilent: Option<bool>, now: int): Automation {
    a.(schedule := newSchedule.OrElse(a.schedule), endAt := newEndAt.OrElse(a.endAt), silent := newSilent.OrElse(a.silent),
       revision := a.revision + 1, updatedAt := now)
  }

  function UpdatePlan(slots: Slots, w: World, id: string, expectedRevision: nat,
                      newSchedule: Option<Schedule>, newEndAt: Option<Option<int>>, newSilent: Option<bool>,
                      checkedAt: int, now: int): Plan {
    if id !in w.automations || w.automations[id].revision != expectedRevision
       || !Accepted(newSchedule.OrElse(w.automations[id].schedule)) || (newSchedule.Some? && !NotPast(newSchedule.value, checkedAt))
       || (newEndAt.Some? && newEndAt.value.Some? && newEndAt.value.value <= checkedAt) then NOTHING
    else
      var next := Edited(w.automations[id], newSchedule, newEndAt, newSilent, now);
      Plan(KeepRuns, if (newSchedule.Some? || newEndAt.Some?) && next.status == Active then SaveFromNow(slots, w, id, next, now)
                     else Save(id, next, None))
  }

  function ActivatePlan(slots: Slots, w: World, id: string, now: int): Plan {
    if id !in w.automations || w.automations[id].status == Active
       || (w.automations[id].endAt.Some? && w.automations[id].endAt.value <= now)
       || !NotPast(w.automations[id].schedule, now) then NOTHING
    else
      var a := w.automations[id];
      Plan(KeepRuns, SaveFromNow(slots, w, id, a.(status := Active, statusReason := None, revision := a.revision + 1, updatedAt := now), now))
  }

  /** Startup only: a recurring automation that came due while the service was down. */
  function RecordMissedPlan(slots: Slots, w: World, id: string, run: string, now: int): Plan {
    if id !in w.automations || !Due(w.automations[id], now) || w.automations[id].schedule.Once? || run in w.used then NOTHING
    else
      var a := w.automations[id];
      Plan(Insert(run, MissedRun(a, id, now, a.nextFireAt.value)), SaveComputed(slots, id, a, now, Now))
  }

  /** Startup only: an active automation without a next fire and without a live run. */
  function RecomputePlan(slots: Slots, w: World, id: string, now: int): Plan {
    if id !in w.automations || w.automations[id].status != Active || w.automations[id].nextFireAt.Some?
       || w.automations[id].schedule.Manual? || Live(w, id)
       || (w.automations[id].endAt.Some? && w.automations[id].endAt.value <= now) then NOTHING
    else Plan(KeepRuns, SaveComputed(slots, id, w.automations[id], now, Now))
  }

  function RunPlan(w: World, run: string, r: Run): Plan {
    Plan(Rewrite(run, r), KeepAutomations)
  }

  function PlanOf(slots: Slots, w: World, op: Op): Plan {
    match op
    case Create(id, s, e, q, at, made, now) => CreatePlan(slots, w, id, s, e, q, at, made, now)
    case Fire(id, run, t, now) => FirePlan(slots, w, id, run, t, now)
    case RunNow(id, run, now) => RunNowPlan(w, id, run, now)
    case Settle(run, o, e, now) => SettlePlan(slots, w, run, o, e, now)
    case SetStatus(id, s, reason, now) => SetStatusPlan(w, id, s, reason, now)
    case Update(id, v, s, e, q, at, now) => UpdatePlan(slots, w, id, v, s, e, q, at, now)
    case Activate(id, now) => ActivatePlan(slots, w, id, now)
    case RecordMissed(id, run, now) => RecordMissedPlan(slots, w, id, run, now)
    case Recompute(id, now) => RecomputePlan(slots, w, id, now)
    case Delete(id) => Plan(Remove(set r | r in w.runs && w.runs[r].automation == id), Drop(id))
    case Started(run) => if run in w.runs && w.runs[run].status == Queued then RunPlan(w, run, w.runs[run].(status := Running)) else NOTHING
    case ScriptStarted(run) => if run in w.runs && !Terminal(w.runs[run].status) then RunPlan(w, run, w.runs[run].(status := Running)) else NOTHING
    case Annotate(run, s, i, q, read) =>
      if run in w.runs then RunPlan(w, run, w.runs[run].(session := s, input := i, silenced := q, readAt := read)) else NOTHING
    case Trim(id, victims) =>
      Plan(Remove(set r | r in w.runs && r in victims && w.runs[r].automation == id && Terminal(w.runs[r].status)), KeepAutomations)
  }

  function Apply(slots: Slots, w: World, op: Op): World {
    Perform(w, PlanOf(slots, w, op))
  }

  function RunAll(slots: Slots, w: World, ops: seq<Op>): World
    decreases |ops|
  {
    if ops == [] then w else Apply(slots, RunAll(slots, w, ops[..|ops| - 1]), ops[|ops| - 1])
  }
}
