/**
 * The terms of an automation: what an edit changes, what an unchanged revision
 * guarantees to somebody who edits what he has read, and when a created
 * automation fires for the first time.
 */
module AutomationTerms {
  import opened Options
  import opened AutomationModel
  import opened AutomationSafety

  // ---- edits ----

  /** Where the next fire of an automation lies that counts from now on. */
  predicate CountsFrom(slots: Slots, a: Automation, now: int) {
    match a.schedule
    case Interval(ms) => FiresAt(a, if ms == 0 then None else Some(now + ms))
    case Cron(expr) => FiresAt(a, slots(expr, now))
    case Once(runAt) => FiresAt(a, Some(runAt))
    case Manual => a.nextFireAt == None
  }

  /** The next fire is the given time, or none when that lies beyond the end. */
  predicate FiresAt(a: Automation, t: Option<int>) {
    if t.Some? && (a.endAt == None || t.value <= a.endAt.value) then a.nextFireAt == t else a.nextFireAt == None
  }

  /** An interval lies between a minute and a year. */
  predicate WithinBounds(s: Schedule) {
    s.Interval? ==> 60_000 <= s.ms <= 31_536_000_000
  }

  predicate EditAccepted(w: World, id: string, v: nat, s: Option<Schedule>, e: Option<Option<int>>, at: int) {
    id in w.automations && w.automations[id].revision == v
    && WithinBounds(if s.Some? then s.value else w.automations[id].schedule)
    && (s.Some? && s.value.Once? ==> s.value.runAt > at)
    && (e.Some? && e.value.Some? ==> e.value.value > at)
  }

  /** An edit lands exactly when it was made on the stored revision, keeps the bounds and lies ahead; it touches no other row. */
  lemma EditLandsExactly(slots: Slots, w: World, id: string, v: nat, s: Option<Schedule>, e: Option<Option<int>>, q: Option<bool>, at: int, now: int)
    ensures var u := Apply(slots, w, Update(id, v, s, e, q, at, now));
            (u != w <==> EditAccepted(w, id, v, s, e, at)) && u.runs == w.runs && u.automations.Keys == w.automations.Keys
            && (forall i | i in w.automations && i != id :: u.automations[i] == w.automations[i])
  {
    if EditAccepted(w, id, v, s, e, at) {
      assert Apply(slots, w, Update(id, v, s, e, q, at, now)).automations[id].revision == v + 1;
    }
  }

  /** It stores what it was given and keeps everything else. */
  lemma EditTakesEffect(slots: Slots, w: World, id: string, v: nat, s: Option<Schedule>, e: Option<Option<int>>, q: Option<bool>, at: int, now: int)
    requires EditAccepted(w, id, v, s, e, at)
    ensures var a := w.automations[id]; var u := Apply(slots, w, Update(id, v, s, e, q, at, now)).automations;
            id in u
            && var b := u[id];
               (s.Some? ==> b.schedule == s.value) && (s == None ==> b.schedule == a.schedule)
               && (e.Some? ==> b.endAt == e.value) && (e == None ==> b.endAt == a.endAt)
               && (q.Some? ==> b.silent == q.value) && (q == None ==> b.silent == a.silent)
               && b == Automation(b.schedule, b.endAt, b.silent, a.status, a.statusReason, b.nextFireAt,
                                  a.lastFiredAt, a.lastFinishedAt, v + 1, a.createdAt, now)
  {
  }

  /** An edit of schedule or end lets an active automation count from now, or wait for its live interval run; any other keeps the next fire. */
  lemma EditCountsFromNow(slots: Slots, w: World, id: string, v: nat, s: Option<Schedule>, e: Option<Option<int>>, q: Option<bool>, at: int, now: int)
    requires EditAccepted(w, id, v, s, e, at)
    ensures var a := w.automations[id]; var u := Apply(slots, w, Update(id, v, s, e, q, at, now)).automations;
            id in u
            && if a.status != Active || (s == None && e == None) then u[id].nextFireAt == a.nextFireAt
               else if u[id].schedule.Interval? && Live(w, id) then u[id].nextFireAt == None
               else CountsFrom(slots, u[id], now)
  {
  }

  // ---- what a revision guarantees ----

  predicate SpareTheRow(ops: seq<Op>, id: string) {
    forall i | 0 <= i < |ops| :: ops[i] != Delete(id)
  }

  predicate SameTerms(a: Automation, b: Automation) {
    b.schedule == a.schedule && b.endAt == a.endAt && b.silent == a.silent && b.status == a.status && b.statusReason == a.statusReason
  }

  /** A later state of an automation: its revision tells whether its terms and status may have changed. */
  predicate Succeeds(a: Automation, b: Automation) {
    b.createdAt == a.createdAt && b.revision >= a.revision
    && (b.revision == a.revision ==> SameTerms(a, b))
  }

  lemma StepSucceeds(slots: Slots, w: World, op: Op, id: string)
    requires id in w.automations && op != Delete(id)
    ensures id in Apply(slots, w, op).automations && Succeeds(w.automations[id], Apply(slots, w, op).automations[id])
  {
  }

  lemma {:induction false} RunSucceeds(slots: Slots, w: World, ops: seq<Op>, id: string)
    requires id in w.automations && SpareTheRow(ops, id)
    ensures id in RunAll(slots, w, ops).automations && Succeeds(w.automations[id], RunAll(slots, w, ops).automations[id])
    decreases |ops|
  {
    if ops != [] {
      RunSucceeds(slots, w, ops[..|ops| - 1], id);
      StepSucceeds(slots, RunAll(slots, w, ops[..|ops| - 1]), ops[|ops| - 1], id);
    }
  }

  /** Whoever edits the revision he read edits what he read: between his reading and his edit neither terms nor status changed. */
  lemma EditMeetsWhatWasRead(slots: Slots, w: World, ops: seq<Op>, id: string, s: Option<Schedule>, e: Option<Option<int>>, q: Option<bool>, at: int, now: int)
    requires id in w.automations && SpareTheRow(ops, id)
    requires var u := RunAll(slots, w, ops); Apply(slots, u, Update(id, w.automations[id].revision, s, e, q, at, now)) != u
    ensures var a := w.automations[id]; var u := RunAll(slots, w, ops);
            id in u.automations
            && var b := u.automations[id];
               b.revision == a.revision && SameTerms(a, b)
  {
    RunSucceeds(slots, w, ops, id);
  }

  /** Pausing, completing, resuming and editing each make every revision read before a stale one. */
  lemma ChangeMakesStale(slots: Slots, w: World, op: Op, later: seq<Op>, id: string,
                         s: Option<Schedule>, e: Option<Option<int>>, q: Option<bool>, at: int, now: int)
    requires id in w.automations && (op.SetStatus? || op.Activate? || op.Update?) && op.id == id && Apply(slots, w, op) != w
    requires SpareTheRow(later, id)
    ensures var u := RunAll(slots, Apply(slots, w, op), later); Apply(slots, u, Update(id, w.automations[id].revision, s, e, q, at, now)) == u
  {
    assert id in Apply(slots, w, op).automations && Apply(slots, w, op).automations[id].revision == w.automations[id].revision + 1;
    RunSucceeds(slots, Apply(slots, w, op), later, id);
  }

  // ---- who writes which column ----

  /** The run the segment launches or settles, by the clock it reads. */
  predicate Launches(w: World, op: Op, id: string) {
    (op.Fire? && op.id == id && op.trigger != ByHand && op.run !in w.used && id in w.automations && Due(w.automations[id], op.now) && !Live(w, id))
    || (op.RunNow? && op.id == id && op.run !in w.used && !Live(w, id))
  }

  predicate Settles(w: World, op: Op, id: string) {
    op.Settle? && op.run in w.runs && w.runs[op.run].automation == id && !Terminal(w.runs[op.run].status) && Terminal(op.outcome)
  }

  /** The last firing is written by what launches a run. */
  lemma LastFiring(slots: Slots, w: World, op: Op, id: string)
    requires id in w.automations && op != Delete(id)
    ensures var u := Apply(slots, w, op).automations;
            id in u && u[id].lastFiredAt == if Launches(w, op, id) then ClockOf(op) else w.automations[id].lastFiredAt
  {
  }

  /** The last finish is written by what settles a run. */
  lemma LastFinish(slots: Slots, w: World, op: Op, id: string)
    requires id in w.automations && op != Delete(id)
    ensures var u := Apply(slots, w, op).automations;
            id in u && u[id].lastFinishedAt == if Settles(w, op, id) then ClockOf(op) else w.automations[id].lastFinishedAt
  {
  }

  /** Whatever counts a revision stamps the clock, and nothing else does. */
  lemma StampedWithRevision(slots: Slots, w: World, op: Op, id: string)
    requires id in w.automations && op != Delete(id)
    ensures var a := w.automations[id]; var u := Apply(slots, w, op).automations;
            id in u && u[id].createdAt == a.createdAt
            && u[id].updatedAt == if u[id].revision != a.revision then ClockOf(op).value else a.updatedAt
  {
  }

  /** The one-time automation whose own run the segment settles. */
  predicate Completes(w: World, op: Op, id: string) {
    Settles(w, op, id) && id in w.automations && w.automations[id].schedule.Once? && w.automations[id].status == Active
    && w.runs[op.run].trigger != ByHand
  }

  /** Schedule, end and silence are written by edits only. */
  lemma TermsByEdits(slots: Slots, w: World, op: Op, id: string)
    requires id in w.automations && op != Delete(id) && !op.Update?
    ensures var a := w.automations[id]; var u := Apply(slots, w, op).automations;
            id in u && u[id].schedule == a.schedule && u[id].endAt == a.endAt && u[id].silent == a.silent
  {
  }

  /** Status and reason are written by changes of status and by settling the run of a one-time automation. */
  lemma AutomationStatus(slots: Slots, w: World, op: Op, id: string)
    requires id in w.automations && op != Delete(id) && id in Apply(slots, w, op).automations
    ensures var a, b := w.automations[id], Apply(slots, w, op).automations[id];
            (b.status != a.status || b.statusReason != a.statusReason ==> op.SetStatus? || op.Activate? || Completes(w, op, id))
            && (op.Activate? && b.status != a.status ==> b.status == Active && b.statusReason == None)
            && (Completes(w, op, id) ==> b.status == Completed && b.statusReason == Some("one-time run finished"))
  {
  }

  // ---- the next fire after firing, missing and restarting ----

  /**
   * A firing that meets a live run parks a one-time automation and lets a
   * recurring one count from now; one that launches its run gives cron its next
   * slot and lets everything else wait for the run to settle.
   */
  lemma NextFireAfterFiring(slots: Slots, w: World, id: string, run: string, t: Trigger, now: int)
    requires id in w.automations && Due(w.automations[id], now) && run !in w.used && t != ByHand
    ensures var a := w.automations[id]; var u := Apply(slots, w, Fire(id, run, t, now)).automations;
            id in u && u[id].status == Active && u[id].schedule == a.schedule && u[id].endAt == a.endAt
            && match a.schedule
               case Once(_) => u[id].nextFireAt == None
               case Interval(_) => if Live(w, id) then CountsFrom(slots, u[id], now) else u[id].nextFireAt == None
               case Cron(expr) =>
                 FiresAt(u[id], slots(expr, if !Live(w, id) && a.lastFinishedAt.Some? && a.lastFinishedAt.value > now then a.lastFinishedAt.value else now))
               case Manual => u[id].nextFireAt == None
  {
  }

  /** What a startup makes of a recurring automation that came due while the service was down: one missed run, counting from now. */
  lemma MissedAtStartup(slots: Slots, w: World, id: string, run: string, now: int)
    requires id in w.automations && run !in w.used
    ensures var a := w.automations[id]; var u := Apply(slots, w, RecordMissed(id, run, now));
            var missed := a.status == Active && a.nextFireAt.Some? && a.nextFireAt.value <= now && !a.schedule.Once?;
            (run in u.runs && run !in w.runs <==> missed && run !in w.runs) && (!missed ==> u == w)
            && (missed ==> id in u.automations && u.runs[run].status == Missed && u.runs[run].scheduledFor == a.nextFireAt.value
                           && CountsFrom(slots, u.automations[id], now))
  {
  }

  /** A startup computes anew exactly for an active automation on a schedule that waits for nothing: no next fire, no live run, its end ahead. */
  lemma RecomputedAtStartup(slots: Slots, w: World, id: string, now: int)
    requires id in w.automations
    ensures var a := w.automations[id]; var u := Apply(slots, w, Recompute(id, now));
            var waits := a.status == Active && a.nextFireAt == None && !a.schedule.Manual? && !Live(w, id) && (a.endAt.Some? ==> a.endAt.value > now);
            u.runs == w.runs && (!waits ==> u == w)
            && (waits ==> id in u.automations && CountsFrom(slots, u.automations[id], now)
                          && u.automations[id] == a.(nextFireAt := u.automations[id].nextFireAt))
  {
  }

  // ---- notes, retention and deletion ----

  /** A note on a run changes its session, input, silence and reading mark, and nothing else anywhere. */
  lemma NotedAsSaid(slots: Slots, w: World, run: string, s: Option<string>, i: Option<string>, q: bool, read: Option<int>)
    requires run in w.runs
    ensures var u := Apply(slots, w, Annotate(run, s, i, q, read));
            u.automations == w.automations && u.runs.Keys == w.runs.Keys && (forall r | r in w.runs && r != run :: u.runs[r] == w.runs[r])
            && u.runs[run].session == s && u.runs[run].input == i && u.runs[run].silenced == q && u.runs[run].readAt == read
            && AutomationModel.Run(w.runs[run].automation, w.runs[run].trigger, w.runs[run].status, s, i, w.runs[run].scheduledFor, w.runs[run].firedAt,
                                   w.runs[run].finishedAt, w.runs[run].error, q, read, w.runs[run].createdAt) == u.runs[run]
  {
  }

  /** Trimming removes exactly the finished runs of the automation it was told to; deleting removes an automation with all of its runs. */
  lemma RemovedExactly(slots: Slots, w: World, op: Op, run: string)
    requires (op.Trim? || op.Delete?) && run in w.runs
    ensures var u := Apply(slots, w, op); var r := w.runs[run];
            (run !in u.runs <==> r.automation == op.id && (op.Trim? ==> run in op.victims && r.status != Queued && r.status != Running))
            && (run in u.runs ==> u.runs[run] == r)
            && (forall i :: i in u.automations <==> i in w.automations && !(op.Delete? && i == op.id))
            && (forall i | i in u.automations :: u.automations[i] == w.automations[i])
  {
  }

  // ---- creation and the first fire ----

  /**
   * Creation lands exactly for a new id, a schedule within bounds and times that
   * lie ahead. The automation is active and counts an interval from its
   * creation, not from the moment the row is written.
   */
  lemma CreatedAsAsked(slots: Slots, w: World, id: string, s: Schedule, e: Option<int>, q: bool, at: int, made: int, now: int)
    requires id !in w.automations && id !in w.claimed
    ensures var u := Apply(slots, w, Create(id, s, e, q, at, made, now));
            var accepted := WithinBounds(s) && (s.Once? ==> s.runAt > at) && (e.Some? ==> e.value > at);
            u.runs == w.runs && (u != w <==> accepted)
            && (accepted ==>
                  u.automations.Keys == w.automations.Keys + {id} && (forall i | i in w.automations :: u.automations[i] == w.automations[i])
                  && var a := u.automations[id];
                     a.schedule == s && a.endAt == e && a.silent == q && a.status == Active && a.revision == 1 && a.createdAt == made && a.updatedAt == made
                     && a.lastFiredAt == None && a.lastFinishedAt == None && a.statusReason == None
                     && CountsFrom(slots, a, if s.Interval? then made else now))
  {
    var u := Apply(slots, w, Create(id, s, e, q, at, made, now));
    if WithinBounds(s) && (s.Once? ==> s.runAt > at) && (e.Some? ==> e.value > at) {
      assert id in u.automations;
    }
  }

  /** Stopping takes effect unless it says what is stored already: no next fire, a new revision, the terms and the history kept. */
  lemma StoppedAsAsked(slots: Slots, w: World, id: string, status: Status, reason: Option<string>, now: int)
    requires id in w.automations && status != Active
    ensures var u := Apply(slots, w, SetStatus(id, status, reason, now)); var a := w.automations[id];
            u.runs == w.runs && (forall i | i in w.automations && i != id :: i in u.automations && u.automations[i] == w.automations[i])
            && (u == w <==> a.status == status && a.statusReason == reason)
            && (u != w ==> id in u.automations
                           && u.automations[id] == Automation(a.schedule, a.endAt, a.silent, status, reason, None, a.lastFiredAt, a.lastFinishedAt,
                                                              a.revision + 1, a.createdAt, now))
  {
    var u := Apply(slots, w, SetStatus(id, status, reason, now));
    if !(w.automations[id].status == status && w.automations[id].statusReason == reason) {
      assert u.automations[id].revision != w.automations[id].revision;
    }
  }

  /** A change of status never makes an automation active; resuming does that. */
  lemma OnlyResumingActivates(slots: Slots, w: World, id: string, reason: Option<string>, now: int)
    ensures Apply(slots, w, SetStatus(id, Active, reason, now)) == w
  {
  }

  /**
   * Resuming lands exactly for a stored automation that is not active, whose end
   * and run time are ahead. It counts from now, or waits for a live interval run.
   */
  lemma ResumedAsAsked(slots: Slots, w: World, id: string, now: int)
    requires id in w.automations
    ensures var a := w.automations[id]; var u := Apply(slots, w, Activate(id, now));
            var lands := a.status != Active && (a.endAt.Some? ==> a.endAt.value > now) && (a.schedule.Once? ==> a.schedule.runAt > now);
            u.runs == w.runs && (forall i | i in w.automations && i != id :: i in u.automations && u.automations[i] == w.automations[i])
            && (!lands ==> u == w)
            && (lands ==>
                  id in u.automations
                  && var b := u.automations[id];
                     b == Automation(a.schedule, a.endAt, a.silent, Active, None, b.nextFireAt,
                                     a.lastFiredAt, a.lastFinishedAt, a.revision + 1, a.createdAt, now)
                     && if a.schedule.Interval? && Live(w, id) then b.nextFireAt == None else CountsFrom(slots, b, now))
  {
  }

  /** Nothing fires, starts, edits or stops this automation. */
  predicate Untouched(op: Op, id: string) {
    match op
    case Fire(i, _, _, _) => i != id
    case RunNow(i, _, _) => i != id
    case SetStatus(i, _, _, _) => i != id
    case Update(i, _, _, _, _, _, _) => i != id
    case Activate(i, _) => i != id
    case RecordMissed(i, _, _) => i != id
    case Delete(i) => i != id
    case _ => true
  }

  /** It has not run yet. */
  predicate NeverRan(w: World, id: string) {
    forall r | r in w.runs :: w.runs[r].automation != id
  }

  lemma StepUntouched(slots: Slots, w: World, op: Op, id: string)
    requires Tables(w) && id in w.automations && NeverRan(w, id) && Untouched(op, id) && w.automations[id].nextFireAt.Some?
    ensures var u := Apply(slots, w, op); id in u.automations && NeverRan(u, id) && u.automations[id] == w.automations[id]
  {
    PlansAreLegal(slots, w, op);
  }

  lemma {:induction false} RunUntouched(slots: Slots, w: World, ops: seq<Op>, id: string)
    requires Tables(w) && id in w.automations && NeverRan(w, id) && w.automations[id].nextFireAt.Some?
    requires forall i | 0 <= i < |ops| :: Untouched(ops[i], id)
    ensures var u := RunAll(slots, w, ops); Tables(u) && id in u.automations && NeverRan(u, id) && u.automations[id] == w.automations[id]
    decreases |ops|
  {
    if ops != [] {
      RunUntouched(slots, w, ops[..|ops| - 1], id);
      AlwaysTables(slots, w, ops);
      StepUntouched(slots, RunAll(slots, w, ops[..|ops| - 1]), ops[|ops| - 1], id);
    }
  }

  /** An active automation that has not run yet waits for this time. */
  ghost predicate Waits(w: World, id: string, due: int) {
    Tables(w) && id in w.automations && NeverRan(w, id) && w.automations[id].status == Active && w.automations[id].nextFireAt == Some(due)
  }

  /** A created interval automation waits for the end of a whole interval from its creation. */
  lemma CreatedWaits(slots: Slots, w: World, id: string, ms: int, e: Option<int>, q: bool, at: int, made: int, now: int)
    requires Tables(w) && id !in w.automations && id !in w.claimed
    requires Accepted(Interval(ms)) && (e.Some? ==> e.value > at && made + ms <= e.value)
    ensures Waits(Apply(slots, w, Create(id, Interval(ms), e, q, at, made, now)), id, made + ms)
  {
    PlansAreLegal(slots, w, Create(id, Interval(ms), e, q, at, made, now));
    LegalKeepsTables(w, PlanOf(slots, w, Create(id, Interval(ms), e, q, at, made, now)));
  }

  lemma FiresWhenDue(slots: Slots, w: World, id: string, due: int, run: string, t: Trigger, at: int)
    requires Waits(w, id, due) && run !in w.used && t != ByHand
    ensures FiresExactlyWhenDue(slots, w, id, due, run, t, at)
  {
    assert !Live(w, id);
  }

  /** A firing at `at` does nothing before the time is due, and launches the run of that time from then on. */
  predicate FiresExactlyWhenDue(slots: Slots, w: World, id: string, due: int, run: string, t: Trigger, at: int) {
    var f := Apply(slots, w, Fire(id, run, t, at));
    if at < due then f == w
    else run in f.runs && f.runs[run].scheduledFor == due && f.runs[run].status == Queued && f.runs[run].trigger == t && f.runs[run].automation == id
  }

  /** Whatever other automations do meanwhile, the first firing of a waiting automation happens exactly when its time is due. */
  lemma FirstFireIsOnTime(slots: Slots, w: World, ops: seq<Op>, id: string, due: int, run: string, t: Trigger, at: int)
    requires Waits(w, id, due) && run !in RunAll(slots, w, ops).used && t != ByHand
    requires forall i | 0 <= i < |ops| :: Untouched(ops[i], id)
    ensures FiresExactlyWhenDue(slots, RunAll(slots, w, ops), id, due, run, t, at)
  {
    RunUntouched(slots, w, ops, id);
    FiresWhenDue(slots, RunAll(slots, w, ops), id, due, run, t, at);
  }
}
