/**
 * What the rows say: how a run ended is what the one report said that found it
 * live, where it came from is what the one firing said that made it, and an
 * automation keeps the terms its last edit gave it.
 */
module AutomationOutcomes {
  import opened Options
  import opened AutomationModel
  import opened AutomationSafety

  // ---- one report ----

  /** A report on a live run is stored as it was made; the run counts as read exactly when nobody needs to see it. */
  lemma SettledAsReported(slots: Slots, w: World, run: string, o: RunStatus, e: Option<string>, now: int)
    requires run in w.runs && !Terminal(w.runs[run].status) && Terminal(o)
    ensures var r := w.runs[run]; var u := Apply(slots, w, Settle(run, o, e, now));
            u.runs.Keys == w.runs.Keys && (forall s | s in w.runs && s != run :: u.runs[s] == w.runs[s])
            && var d := u.runs[run];
               d.status == o && d.finishedAt == Some(now) && (e.Some? ==> d.error == e) && (e == None ==> d.error == r.error)
               && (o == Skipped || o == Cancelled || (o == Success && r.silenced) ==> d.readAt == Some(now))
               && (o != Skipped && o != Cancelled && !(o == Success && r.silenced) ==> d.readAt == r.readAt)
               && d == r.(status := d.status, finishedAt := d.finishedAt, error := d.error, readAt := d.readAt)
  {
  }

  /** A late or repeated report, and one that is no end, changes nothing at all. */
  lemma LateReportChangesNothing(slots: Slots, w: World, run: string, o: RunStatus, e: Option<string>, now: int)
    requires run !in w.runs || Terminal(w.runs[run].status) || !Terminal(o)
    ensures Apply(slots, w, Settle(run, o, e, now)) == w
  {
  }

  // ---- how a run ended, over any run of segments ----

  predicate Finished(w: World, run: string) {
    run in w.runs && Terminal(w.runs[run].status)
  }

  /** The segment finds the run unfinished, or makes it, and says how `r` ended. */
  predicate SaysEnd(w: World, op: Op, run: string, r: Run) {
    match op
    case Settle(i, o, e, now) =>
      i == run && run in w.runs && !Terminal(w.runs[run].status) && r.status == o && r.finishedAt == Some(now)
      && r.error == (if e.Some? then e else w.runs[run].error)
    case Fire(id, i, t, now) =>
      i == run && run !in w.used && Live(w, id) && r.automation == id && r.trigger == t
      && r.status == Skipped && r.finishedAt == Some(now) && r.error == Some(OVERLAP_SKIP)
    case RecordMissed(id, i, now) =>
      i == run && run !in w.used && r.automation == id && r.trigger == BySchedule
      && r.status == Missed && r.firedAt == None && r.finishedAt == None && r.error == None
    case _ => false
  }

  lemma StepSaysEnd(slots: Slots, w: World, op: Op, run: string)
    requires Tables(w) && !Finished(w, run) && Finished(Apply(slots, w, op), run)
    ensures SaysEnd(w, op, run, Apply(slots, w, op).runs[run])
  {
  }

  /** How a finished run ended: what a note on it cannot change. */
  predicate SameEnding(r: Run, s: Run) {
    s == r.(session := s.session, input := s.input, silenced := s.silenced, readAt := s.readAt)
  }

  lemma StepKeepsEnd(slots: Slots, w: World, op: Op, run: string)
    requires Tables(w) && Finished(w, run)
    ensures var u := Apply(slots, w, op); run in u.runs ==> SameEnding(w.runs[run], u.runs[run])
  {
  }

  /** A finished run has spent its id: it stays finished or is removed, and never comes back. */
  predicate Spent(w: World, run: string) {
    run in w.used && (run in w.runs ==> Terminal(w.runs[run].status))
  }

  lemma StepKeepsSpent(slots: Slots, w: World, op: Op, run: string)
    requires Tables(w) && Spent(w, run)
    ensures Spent(Apply(slots, w, op), run) && (Finished(Apply(slots, w, op), run) ==> Finished(w, run))
  {
    PlansAreLegal(slots, w, op);
  }

  predicate Ends(slots: Slots, w: World, op: Op, run: string) {
    !Finished(w, run) && Finished(Apply(slots, w, op), run)
  }

  /** Segment `n` of the run is the one that ended it. */
  ghost predicate EndsAt(slots: Slots, w: World, ops: seq<Op>, n: int, run: string) {
    0 <= n < |ops| && Ends(slots, RunAll(slots, w, ops[..n]), ops[n], run)
  }

  lemma EndedIsSpent(slots: Slots, w: World, op: Op, run: string)
    requires Tables(w) && Ends(slots, w, op, run)
    ensures Spent(Apply(slots, w, op), run)
  {
    PlansAreLegal(slots, w, op);
    LegalKeepsTables(w, PlanOf(slots, w, op));
  }

  lemma SpentNeverEnds(slots: Slots, w: World, op: Op, run: string)
    requires Tables(w) && Spent(w, run)
    ensures !Ends(slots, w, op, run)
  {
    StepKeepsSpent(slots, w, op, run);
  }

  lemma NextIsSpent(slots: Slots, w: World, ops: seq<Op>, run: string)
    requires Tables(w) && ops != [] && Spent(RunAll(slots, w, ops[..|ops| - 1]), run)
    ensures Spent(RunAll(slots, w, ops), run)
  {
    AlwaysTables(slots, w, ops[..|ops| - 1]);
    StepKeepsSpent(slots, RunAll(slots, w, ops[..|ops| - 1]), ops[|ops| - 1], run);
  }

  lemma {:induction false} StaysSpent(slots: Slots, w: World, ops: seq<Op>, n: nat, run: string)
    requires Tables(w) && n <= |ops| && Spent(RunAll(slots, w, ops[..n]), run)
    ensures Spent(RunAll(slots, w, ops), run)
    decreases |ops|
  {
    if n == |ops| {
      assert ops[..n] == ops;
    } else {
      assert ops[..|ops| - 1][..n] == ops[..n];
      StaysSpent(slots, w, ops[..|ops| - 1], n, run);
      NextIsSpent(slots, w, ops, run);
    }
  }

  lemma SpentAfterEnd(slots: Slots, w: World, ops: seq<Op>, n: nat, run: string)
    requires Tables(w) && EndsAt(slots, w, ops, n, run)
    ensures Spent(RunAll(slots, w, ops[..n + 1]), run)
  {
    assert ops[..n + 1][..n] == ops[..n];
    AlwaysTables(slots, w, ops[..n]);
    EndedIsSpent(slots, RunAll(slots, w, ops[..n]), ops[n], run);
  }

  lemma EndsBefore(slots: Slots, w: World, ops: seq<Op>, n: nat, m: nat, run: string)
    requires Tables(w) && n < m < |ops| && EndsAt(slots, w, ops, n, run)
    ensures !EndsAt(slots, w, ops, m, run)
  {
    SpentAfterEnd(slots, w, ops, n, run);
    assert ops[..m][..n + 1] == ops[..n + 1];
    StaysSpent(slots, w, ops[..m], n + 1, run);
    AlwaysTables(slots, w, ops[..m]);
    SpentNeverEnds(slots, RunAll(slots, w, ops[..m]), ops[m], run);
  }

  lemma EndsOnce(slots: Slots, w: World, ops: seq<Op>, n: int, m: int, run: string)
    requires Tables(w) && EndsAt(slots, w, ops, n, run) && EndsAt(slots, w, ops, m, run)
    ensures n == m
  {
    if n < m {
      EndsBefore(slots, w, ops, n, m, run);
    } else if m < n {
      EndsBefore(slots, w, ops, m, n, run);
    }
  }

  /** Segment `n` ended the run and said of it what `r` shows. */
  ghost predicate SaidAt(slots: Slots, w: World, ops: seq<Op>, n: int, run: string, r: Run) {
    EndsAt(slots, w, ops, n, run) && SaysEnd(RunAll(slots, w, ops[..n]), ops[n], run, r)
  }

  lemma StillSaid(slots: Slots, w: World, ops: seq<Op>, n: int, run: string, r: Run, s: Run)
    requires ops != [] && SaidAt(slots, w, ops[..|ops| - 1], n, run, r) && SameEnding(r, s)
    ensures SaidAt(slots, w, ops, n, run, s)
  {
    assert ops[..|ops| - 1][..n] == ops[..n];
  }

  lemma LastSaid(slots: Slots, w: World, ops: seq<Op>, run: string)
    requires Tables(w) && ops != [] && Ends(slots, RunAll(slots, w, ops[..|ops| - 1]), ops[|ops| - 1], run)
    ensures SaidAt(slots, w, ops, |ops| - 1, run, RunAll(slots, w, ops).runs[run])
  {
    AlwaysTables(slots, w, ops[..|ops| - 1]);
    StepSaysEnd(slots, RunAll(slots, w, ops[..|ops| - 1]), ops[|ops| - 1], run);
  }

  lemma NextEndsAlike(slots: Slots, w: World, ops: seq<Op>, run: string)
    requires Tables(w) && ops != [] && Finished(RunAll(slots, w, ops[..|ops| - 1]), run) && Finished(RunAll(slots, w, ops), run)
    ensures SameEnding(RunAll(slots, w, ops[..|ops| - 1]).runs[run], RunAll(slots, w, ops).runs[run])
  {
    AlwaysTables(slots, w, ops[..|ops| - 1]);
    StepKeepsEnd(slots, RunAll(slots, w, ops[..|ops| - 1]), ops[|ops| - 1], run);
  }

  lemma NextStillSaid(slots: Slots, w: World, ops: seq<Op>, n: int, run: string)
    requires Tables(w) && ops != [] && Finished(RunAll(slots, w, ops[..|ops| - 1]), run) && Finished(RunAll(slots, w, ops), run)
    requires SaidAt(slots, w, ops[..|ops| - 1], n, run, RunAll(slots, w, ops[..|ops| - 1]).runs[run])
    ensures SaidAt(slots, w, ops, n, run, RunAll(slots, w, ops).runs[run])
  {
    NextEndsAlike(slots, w, ops, run);
    StillSaid(slots, w, ops, n, run, RunAll(slots, w, ops[..|ops| - 1]).runs[run], RunAll(slots, w, ops).runs[run]);
  }

  lemma {:induction false} SomethingEndedIt(slots: Slots, w: World, ops: seq<Op>, run: string) returns (n: nat)
    requires Tables(w) && !Finished(w, run) && Finished(RunAll(slots, w, ops), run)
    ensures SaidAt(slots, w, ops, n, run, RunAll(slots, w, ops).runs[run])
    decreases |ops|
  {
    if Finished(RunAll(slots, w, ops[..|ops| - 1]), run) {
      n := SomethingEndedIt(slots, w, ops[..|ops| - 1], run);
      NextStillSaid(slots, w, ops, n, run);
    } else {
      n := |ops| - 1;
      LastSaid(slots, w, ops, run);
    }
  }

  /**
   * Over any run of segments: a run that is finished ended exactly once, and how
   * is what that one segment said: the report that found it live, or the firing
   * that skipped it, or the startup that missed it.
   */
  lemma FinishedAsReported(slots: Slots, w: World, ops: seq<Op>, run: string)
    requires Tables(w) && !Finished(w, run) && Finished(RunAll(slots, w, ops), run)
    ensures exists n :: SaidAt(slots, w, ops, n, run, RunAll(slots, w, ops).runs[run]) && forall m :: EndsAt(slots, w, ops, m, run) ==> m == n
  {
    var n := SomethingEndedIt(slots, w, ops, run);
    forall m | EndsAt(slots, w, ops, m, run) ensures m == n {
      EndsOnce(slots, w, ops, n, m, run);
    }
  }

  // ---- where a run came from ----

  /** The segment makes the run: at the time it was due, by hand at once, or as missed. */
  predicate Makes(w: World, op: Op, run: string, r: Run) {
    run !in w.used
    && match op
       case Fire(id, i, t, now) =>
         i == run && id in w.automations && Due(w.automations[id], now) && t != ByHand
         && r.automation == id && r.trigger == t && Some(r.scheduledFor) == w.automations[id].nextFireAt && r.firedAt == Some(now) && r.createdAt == now
         && (Live(w, id) ==> r.status == Skipped)
       case RunNow(id, i, now) =>
         i == run && id in w.automations && !Live(w, id)
         && r.automation == id && r.trigger == ByHand && r.scheduledFor == now && r.firedAt == Some(now) && r.createdAt == now
       case RecordMissed(id, i, now) =>
         i == run && id in w.automations && Due(w.automations[id], now)
         && r.automation == id && r.trigger == BySchedule && Some(r.scheduledFor) == w.automations[id].nextFireAt && r.firedAt == None && r.createdAt == now
         && r.status == Missed
       case _ => false
  }

  lemma StepMakes(slots: Slots, w: World, op: Op, run: string)
    requires Tables(w) && run !in w.runs && run in Apply(slots, w, op).runs
    ensures var r := Apply(slots, w, op).runs[run];
            Makes(w, op, run, r) && (Terminal(r.status) || r.status == Queued)
  {
  }

  /** A new row is queued with nothing written yet, or ended at once and needs nobody to read it; it is silenced as its automation is. */
  lemma NewRowIsBlank(slots: Slots, w: World, op: Op, run: string)
    requires Tables(w) && run !in w.runs && run in Apply(slots, w, op).runs
    ensures var r := Apply(slots, w, op).runs[run];
            r.session == None && r.input == None && r.automation in w.automations && r.silenced == w.automations[r.automation].silent
            && (r.status == Queued ==> r.finishedAt == None && r.error == None && r.readAt == None)
            && (r.status != Queued ==> r.readAt == Some(r.createdAt))
  {
  }

  predicate SameOrigin(r: Run, s: Run) {
    s == r.(status := s.status, session := s.session, input := s.input, finishedAt := s.finishedAt,
            error := s.error, silenced := s.silenced, readAt := s.readAt)
    && (Terminal(r.status) ==> s.status == r.status)
  }

  lemma StepKeepsOrigin(slots: Slots, w: World, op: Op, run: string)
    requires Tables(w) && run in w.runs && run in Apply(slots, w, op).runs
    ensures SameOrigin(w.runs[run], Apply(slots, w, op).runs[run])
  {
  }

  ghost predicate MadeAt(slots: Slots, w: World, ops: seq<Op>, n: int, run: string, r: Run) {
    0 <= n < |ops| && Makes(RunAll(slots, w, ops[..n]), ops[n], run, r)
  }

  lemma StillMade(slots: Slots, w: World, ops: seq<Op>, n: int, run: string, r: Run, s: Run)
    requires ops != [] && MadeAt(slots, w, ops[..|ops| - 1], n, run, r) && SameOrigin(r, s)
    ensures MadeAt(slots, w, ops, n, run, s)
  {
    assert ops[..|ops| - 1][..n] == ops[..n];
  }

  lemma LastMade(slots: Slots, w: World, ops: seq<Op>, run: string)
    requires Tables(w) && ops != [] && run !in RunAll(slots, w, ops[..|ops| - 1]).runs && run in RunAll(slots, w, ops).runs
    ensures MadeAt(slots, w, ops, |ops| - 1, run, RunAll(slots, w, ops).runs[run])
  {
    AlwaysTables(slots, w, ops[..|ops| - 1]);
    StepMakes(slots, RunAll(slots, w, ops[..|ops| - 1]), ops[|ops| - 1], run);
  }

  lemma NextKeepsOrigin(slots: Slots, w: World, ops: seq<Op>, run: string)
    requires Tables(w) && ops != [] && run in RunAll(slots, w, ops[..|ops| - 1]).runs && run in RunAll(slots, w, ops).runs
    ensures SameOrigin(RunAll(slots, w, ops[..|ops| - 1]).runs[run], RunAll(slots, w, ops).runs[run])
  {
    AlwaysTables(slots, w, ops[..|ops| - 1]);
    StepKeepsOrigin(slots, RunAll(slots, w, ops[..|ops| - 1]), ops[|ops| - 1], run);
  }

  lemma NextStillMade(slots: Slots, w: World, ops: seq<Op>, n: int, run: string)
    requires Tables(w) && ops != [] && run in RunAll(slots, w, ops[..|ops| - 1]).runs && run in RunAll(slots, w, ops).runs
    requires MadeAt(slots, w, ops[..|ops| - 1], n, run, RunAll(slots, w, ops[..|ops| - 1]).runs[run])
    ensures MadeAt(slots, w, ops, n, run, RunAll(slots, w, ops).runs[run])
  {
    NextKeepsOrigin(slots, w, ops, run);
    StillMade(slots, w, ops, n, run, RunAll(slots, w, ops[..|ops| - 1]).runs[run], RunAll(slots, w, ops).runs[run]);
  }

  /** Every row of the history says when it was due, when it was fired and by what, as the segment that made it decided. */
  lemma {:induction false} RowsTellTheirOrigin(slots: Slots, w: World, ops: seq<Op>, run: string) returns (n: nat)
    requires Tables(w) && run !in w.runs && run in RunAll(slots, w, ops).runs
    ensures MadeAt(slots, w, ops, n, run, RunAll(slots, w, ops).runs[run])
    decreases |ops|
  {
    if run in RunAll(slots, w, ops[..|ops| - 1]).runs {
      n := RowsTellTheirOrigin(slots, w, ops[..|ops| - 1], run);
      NextStillMade(slots, w, ops, n, run);
    } else {
      n := |ops| - 1;
      LastMade(slots, w, ops, run);
    }
  }

  /** The start of the run is reported while the run is there. */
  predicate Begins(w: World, op: Op, run: string) {
    (op.Started? || op.ScriptStarted?) && op.run == run && run in w.runs
  }

  ghost predicate BeganIn(slots: Slots, w: World, ops: seq<Op>, run: string) {
    exists n :: BeginsAt(slots, w, ops, n, run)
  }

  ghost predicate BeginsAt(slots: Slots, w: World, ops: seq<Op>, n: int, run: string) {
    0 <= n < |ops| && Begins(RunAll(slots, w, ops[..n]), ops[n], run)
  }

  lemma BeginsInFront(slots: Slots, w: World, ops: seq<Op>, n: int, run: string)
    requires ops != [] && n < |ops| - 1
    ensures BeginsAt(slots, w, ops, n, run) == BeginsAt(slots, w, ops[..|ops| - 1], n, run)
  {
    if n >= 0 {
      assert ops[..|ops| - 1][..n] == ops[..n];
    }
  }

  lemma BeganExtends(slots: Slots, w: World, ops: seq<Op>, run: string)
    requires ops != []
    ensures BeganIn(slots, w, ops, run) <==> BeganIn(slots, w, ops[..|ops| - 1], run) || BeginsAt(slots, w, ops, |ops| - 1, run)
  {
    if BeganIn(slots, w, ops, run) && !BeginsAt(slots, w, ops, |ops| - 1, run) {
      var n :| BeginsAt(slots, w, ops, n, run);
      BeginsInFront(slots, w, ops, n, run);
    }
    if BeganIn(slots, w, ops[..|ops| - 1], run) {
      var n :| BeginsAt(slots, w, ops[..|ops| - 1], n, run);
      BeginsInFront(slots, w, ops, n, run);
    }
  }

  /** A run whose id was never used was never there, so nothing reported its start. */
  lemma {:induction false} NeverBegan(slots: Slots, w: World, ops: seq<Op>, run: string)
    requires Tables(w) && run !in RunAll(slots, w, ops).used
    ensures !BeganIn(slots, w, ops, run)
    decreases |ops|
  {
    if ops != [] {
      var before := RunAll(slots, w, ops[..|ops| - 1]);
      assert before.used <= RunAll(slots, w, ops).used;
      AlwaysTables(slots, w, ops[..|ops| - 1]);
      NeverBegan(slots, w, ops[..|ops| - 1], run);
      BeganExtends(slots, w, ops, run);
    }
  }

  /** A segment leaves a live run queued or running, or makes a running one by reporting its start. */
  lemma StepBegins(slots: Slots, w: World, op: Op, run: string)
    requires Tables(w) && run in w.runs && !Terminal(w.runs[run].status)
    requires run in Apply(slots, w, op).runs && !Terminal(Apply(slots, w, op).runs[run].status)
    ensures Apply(slots, w, op).runs[run].status == (if Begins(w, op, run) then Running else w.runs[run].status)
  {
  }

  lemma MakingUsesTheId(slots: Slots, w: World, op: Op, run: string)
    requires Tables(w) && run !in w.runs && run in Apply(slots, w, op).runs
    ensures run !in w.used && (Terminal(Apply(slots, w, op).runs[run].status) || Apply(slots, w, op).runs[run].status == Queued)
    ensures !Begins(w, op, run)
  {
  }

  lemma LiveBefore(slots: Slots, w: World, op: Op, run: string)
    requires Tables(w) && run in w.runs && run in Apply(slots, w, op).runs && !Terminal(Apply(slots, w, op).runs[run].status)
    ensures !Terminal(w.runs[run].status)
  {
  }

  /** A live run is running exactly when its start was reported, and queued until then. */
  lemma {:induction false} RunningExactlyWhenBegun(slots: Slots, w: World, ops: seq<Op>, run: string)
    requires Tables(w) && run !in w.runs
    requires run in RunAll(slots, w, ops).runs && !Terminal(RunAll(slots, w, ops).runs[run].status)
    ensures RunAll(slots, w, ops).runs[run].status == if BeganIn(slots, w, ops, run) then Running else Queued
    decreases |ops|
  {
    var front, last := ops[..|ops| - 1], ops[|ops| - 1];
    var before := RunAll(slots, w, front);
    AlwaysTables(slots, w, front);
    BeganExtends(slots, w, ops, run);
    if run in before.runs {
      LiveBefore(slots, before, last, run);
      StepBegins(slots, before, last, run);
      RunningExactlyWhenBegun(slots, w, front, run);
    } else {
      MakingUsesTheId(slots, before, last, run);
      NeverBegan(slots, w, front, run);
    }
  }
}
