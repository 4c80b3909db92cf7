/** What a call of the lock pool is for: its function runs once, while the call holds every key it asked for. */
module LockService {
  import opened KeyedLocks

  predicate Happens(steps: seq<Step>, n: int, s: Step) {
    0 <= n < |steps| && steps[n] == s && var u := Run(EMPTY, steps[..n]); Defined(u) && Enabled(u, s)
  }

  /** At step `n` the call enters its function; it holds all of its keys, and nobody else holds one of them. */
  predicate RunsHolding(steps: seq<Step>, n: int, t: nat, keys: seq<string>) {
    Happens(steps, n, Enter(t))
    && var x := Run(EMPTY, steps[..n]).tasks[t]; x.ordered == keys && |x.held| == |keys|
  }

  ghost predicate Served(steps: seq<Step>, t: nat, keys: seq<string>) {
    exists n :: RunsHolding(steps, n, t, keys)
  }

  /** Where a call stands that asked for `keys`: under way, its function run or not yet, or over with its function run. */
  ghost predicate Tracked(w: World, steps: seq<Step>, t: nat, keys: seq<string>) {
    if t in w.tasks then
      t !in w.finished && w.tasks[t].ordered == keys
      && (Entered(w.tasks[t]) <==> Served(steps, t, keys))
    else t in w.finished && Served(steps, t, keys)
  }

  lemma SameInFront(steps: seq<Step>, n: int, t: nat, keys: seq<string>)
    requires steps != [] && n < |steps| - 1
    ensures RunsHolding(steps, n, t, keys) == RunsHolding(steps[..|steps| - 1], n, t, keys)
  {
    if n >= 0 {
      assert steps[..|steps| - 1][..n] == steps[..n];
    }
  }

  lemma ServedFront(steps: seq<Step>, t: nat, keys: seq<string>)
    requires steps != []
    ensures var n := |steps| - 1; Served(steps, t, keys) <==> Served(steps[..n], t, keys) || RunsHolding(steps, n, t, keys)
  {
    if Served(steps[..|steps| - 1], t, keys) {
      var n :| RunsHolding(steps[..|steps| - 1], n, t, keys);
      SameInFront(steps, n, t, keys);
    }
    if Served(steps, t, keys) && !RunsHolding(steps, |steps| - 1, t, keys) {
      var n :| RunsHolding(steps, n, t, keys);
      SameInFront(steps, n, t, keys);
    }
  }

  predicate Entered(x: Task) {
    x.phase == Running || x.phase == Releasing
  }

  predicate Takes(w: World, s: Step) {
    Defined(w) && Enabled(w, s)
  }

  /** What a step makes of a call that is under way. */
  lemma StepOfCall(w: World, s: Step, t: nat)
    requires Tasks(w) && t in w.tasks && t !in w.finished
    ensures var u := Next(w, s);
            if t in u.tasks then
              t !in u.finished && u.tasks[t].ordered == w.tasks[t].ordered
              && (Entered(u.tasks[t]) <==> Entered(w.tasks[t]) || (Takes(w, s) && s == Enter(t)))
            else t in u.finished && Entered(w.tasks[t]) && s != Enter(t)
  {
  }

  lemma StepOfDone(w: World, s: Step, t: nat)
    requires t in w.finished && t !in w.tasks
    ensures t in Next(w, s).finished && t !in Next(w, s).tasks && !(Takes(w, s) && s == Enter(t))
  {
  }

  lemma LastHolds(steps: seq<Step>, t: nat, keys: seq<string>)
    requires steps != [] && Tasks(Run(EMPTY, steps[..|steps| - 1]))
    ensures var w, s := Run(EMPTY, steps[..|steps| - 1]), steps[|steps| - 1];
            RunsHolding(steps, |steps| - 1, t, keys) <==> Takes(w, s) && s == Enter(t) && t in w.tasks && w.tasks[t].ordered == keys
  {
  }

  lemma StepTracked(steps: seq<Step>, t: nat, keys: seq<string>)
    requires steps != [] && Tasks(Run(EMPTY, steps[..|steps| - 1])) && Tracked(Run(EMPTY, steps[..|steps| - 1]), steps[..|steps| - 1], t, keys)
    ensures Tracked(Run(EMPTY, steps), steps, t, keys)
  {
    var w := Run(EMPTY, steps[..|steps| - 1]);
    ServedFront(steps, t, keys);
    LastHolds(steps, t, keys);
    if t in w.tasks {
      StepOfCall(w, steps[|steps| - 1], t);
    } else {
      StepOfDone(w, steps[|steps| - 1], t);
    }
  }

  lemma {:induction false} TrackedFrom(steps: seq<Step>, n: nat, t: nat, keys: seq<string>)
    requires Happens(steps, n, Begin(t, keys))
    ensures Tracked(Run(EMPTY, steps), steps, t, keys)
    decreases |steps|
  {
    var front := steps[..|steps| - 1];
    EmptyIsFine();
    Always(EMPTY, front);
    if n == |steps| - 1 {
      NotServedYet(front, t, keys);
      ServedFront(steps, t, keys);
    } else {
      assert front[..n] == steps[..n] && front[n] == steps[n];
      TrackedFrom(front, n, t, keys);
      StepTracked(steps, t, keys);
    }
  }

  lemma StepBeforeCall(w: World, s: Step, t: nat)
    requires Tasks(w) && t !in Next(w, s).tasks && t !in Next(w, s).finished
    ensures t !in w.tasks && t !in w.finished
  {
  }

  /** Somebody who is neither under way nor done has not entered. */
  lemma {:induction false} NotServedYet(steps: seq<Step>, t: nat, keys: seq<string>)
    requires t !in Run(EMPTY, steps).tasks && t !in Run(EMPTY, steps).finished
    ensures !Served(steps, t, keys)
    decreases |steps|
  {
    if steps != [] {
      EmptyIsFine();
      Always(EMPTY, steps[..|steps| - 1]);
      StepBeforeCall(Run(EMPTY, steps[..|steps| - 1]), steps[|steps| - 1], t);
      NotServedYet(steps[..|steps| - 1], t, keys);
      ServedFront(steps, t, keys);
      LastHolds(steps, t, keys);
    }
  }

  /**
   * A call that came in is under way until its function has run, and is over
   * only after it has: its function runs while the call holds every key.
   */
  lemma EveryCallIsServed(steps: seq<Step>, n: nat, t: nat, keys: seq<string>)
    requires Happens(steps, n, Begin(t, keys))
    ensures var w := Run(EMPTY, steps); (t in w.tasks <==> t !in w.finished) && (t in w.finished ==> Served(steps, t, keys))
    ensures Run(EMPTY, steps).tasks == map[] ==> Served(steps, t, keys)
  {
    TrackedFrom(steps, n, t, keys);
  }

  lemma EnteredStays(w: World, s: Step, t: nat)
    requires Tasks(w) && Past(w, t)
    ensures Past(Next(w, s), t) && !(Takes(w, s) && s == Enter(t))
  {
  }

  /** The function of a call runs once. */
  lemma {:induction false} ServedOnce(steps: seq<Step>, m: nat, n: nat, t: nat, keys: seq<string>, again: seq<string>)
    requires m < n && RunsHolding(steps, m, t, keys)
    ensures !RunsHolding(steps, n, t, again)
  {
    if n < |steps| {
      assert steps[..n][..m] == steps[..m];
      EnteredFrom(steps[..n], m, t);
      EmptyIsFine();
      Always(EMPTY, steps[..n]);
      EnteredStays(Run(EMPTY, steps[..n]), steps[n], t);
    }
  }

  /** In its function or past it. */
  predicate Past(w: World, t: nat) {
    if t in w.tasks then t !in w.finished && Entered(w.tasks[t]) else t in w.finished
  }

  lemma Entering(w: World, t: nat)
    requires Takes(w, Enter(t)) && t !in w.finished
    ensures Past(Next(w, Enter(t)), t)
  {
  }

  lemma LastEnters(steps: seq<Step>, t: nat)
    requires Happens(steps, |steps| - 1, Enter(t))
    ensures Past(Run(EMPTY, steps), t)
  {
    NotDone(steps[..|steps| - 1], t);
    Entering(Run(EMPTY, steps[..|steps| - 1]), t);
  }

  lemma LastLeavesPast(steps: seq<Step>, t: nat)
    requires steps != [] && Past(Run(EMPTY, steps[..|steps| - 1]), t)
    ensures Past(Run(EMPTY, steps), t)
  {
    EmptyIsFine();
    Always(EMPTY, steps[..|steps| - 1]);
    EnteredStays(Run(EMPTY, steps[..|steps| - 1]), steps[|steps| - 1], t);
  }

  lemma HappensInFront(steps: seq<Step>, n: nat, s: Step)
    requires n < |steps| - 1 && Happens(steps, n, s)
    ensures Happens(steps[..|steps| - 1], n, s)
  {
    assert steps[..|steps| - 1][..n] == steps[..n];
  }

  lemma {:induction false} EnteredFrom(steps: seq<Step>, m: nat, t: nat)
    requires Happens(steps, m, Enter(t))
    ensures Past(Run(EMPTY, steps), t)
    decreases |steps|
  {
    if m == |steps| - 1 {
      LastEnters(steps, t);
    } else {
      HappensInFront(steps, m, Enter(t));
      EnteredFrom(steps[..|steps| - 1], m, t);
      LastLeavesPast(steps, t);
    }
  }

  /** A call under way is not done. */
  lemma {:induction false} NotDone(steps: seq<Step>, t: nat)
    ensures t in Run(EMPTY, steps).tasks ==> t !in Run(EMPTY, steps).finished
    decreases |steps|
  {
    if steps != [] {
      NotDone(steps[..|steps| - 1], t);
    }
  }

  /** While the function runs nobody else holds one of its keys. */
  lemma NobodyElseHolds(steps: seq<Step>, n: nat, t: nat, keys: seq<string>, k: string, u: nat)
    requires RunsHolding(steps, n, t, keys) && k in keys
    requires var w := Run(EMPTY, steps[..n]); u in w.tasks && Holds(w.tasks[u], k)
    ensures u == t
  {
    var x := Run(EMPTY, steps[..n]).tasks[t];
    assert x.ordered[..|x.held|] == keys;
    OneHolder(steps[..n], k, t, u);
  }
}
