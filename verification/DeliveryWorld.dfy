/**
 * Deliveries in the world they share: what each event does, that every request
 * to the provider is on record, and that a call nobody disturbs delivers.
 */
module DeliveryWorld {
  import opened Options
  import opened LeaseFence
  import opened OutboxTable
  import opened OutboxDelivery
  import opened AtMostOnce
  import opened DeliveryReports
  import opened Text

  // ---- events ----

  /** A started call and a resumed one change the table and themselves, and what other actors do changes the table alone. */
  lemma EventsAct(w: World, e: Event)
    ensures var v := Step(w, e);
            w.log <= v.log
            && match e
               case Start(i, config, newId, now, at) =>
                 v.log == w.log
                 && (i in w.calls ==> v == w)
                 && (i !in w.calls ==>
                       (v.table, v.calls) == (StartCall(w.table, config, newId, now, at).0, w.calls[i := StartCall(w.table, config, newId, now, at).1]))
               case Resume(i, s, aborted, now) =>
                 if i in w.calls && w.calls[i].Working? then
                   (v.table, v.calls) == (ResumeCall(w.table, w.calls[i], s, aborted, now).0, w.calls[i := ResumeCall(w.table, w.calls[i], s, aborted, now).1])
                 else v == w
               case Aside(op) =>
                 v.calls == w.calls && v.log == w.log
                 && v.table == match op
                               case MarkOp(_, _, _, _) => w.table
                               case CompleteOp(_, _, _, _) => w.table
                               case FailOp(_, _, _, _, _, _) => w.table
                               case _ => Apply(w.table, op)
  {
  }

  /** What a segment sends: the first request when the hook behind `sending` lets it go, the replay when its wait is over. */
  function Requests(i: nat, c: Call, s: Signal): seq<Send>
    requires c.Working?
  {
    if c.phase == AtSending && (s.Proceed? || s.Reply?) then [Send(i, false, c.row, c.config.request.key)]
    else if c.phase == ReplayWait && !s.Die? then [Send(i, true, c.row, c.config.request.key)]
    else []
  }

  /** In every reachable world the record grows by exactly the requests the segment makes. */
  lemma RequestsAreOnRecord(t: Table, events: seq<Event>, i: nat, s: Signal, aborted: bool, now: int)
    requires Consistent(t)
    requires var w := Run(Begin(t), events); i in w.calls && w.calls[i].Working?
    ensures var w := Run(Begin(t), events); Step(w, Resume(i, s, aborted, now)).log == w.log + Requests(i, w.calls[i], s)
  {
    Always(Begin(t), events);
    var w := Run(Begin(t), events);
    assert CallOk(w.table, w.calls[i]);
    OneMoreRequest(w.table, w.calls[i], i, s, aborted, now);
  }

  lemma OneMoreRequest(t: Table, c: Call, i: nat, s: Signal, aborted: bool, now: int)
    requires c.Working? && Shape(c)
    ensures var (_, d) := ResumeCall(t, c, s, aborted, now); d.Working? && SendsOf(i, c, d) == Requests(i, c, s)
  {
  }

  // ---- an undisturbed call ----

  /** The call is resumed with one signal after the other. */
  function Resumes(i: nat, signals: seq<Signal>, now: int): seq<Event> {
    if signals == [] then [] else [Resume(i, signals[0], false, now)] + Resumes(i, signals[1..], now)
  }

  lemma {:induction false} RunOn(w: World, e: Event, rest: seq<Event>)
    ensures Run(w, [e] + rest) == Run(Step(w, e), rest)
    decreases |rest|
  {
    var all := [e] + rest;
    if rest == [] {
      assert all[..|all| - 1] == [] && all[|all| - 1] == e;
      assert Run(w, []) == w;
    } else {
      assert all[..|all| - 1] == [e] + rest[..|rest| - 1] && all[|all| - 1] == rest[|rest| - 1];
      RunOn(w, e, rest[..|rest| - 1]);
    }
  }

  lemma {:induction false} ResumesAreStraight(w: World, i: nat, signals: seq<Signal>, now: int)
    requires i in w.calls && w.calls[i].Working?
    ensures var v := Run(w, Resumes(i, signals, now)); var (u, d) := Straight(w.table, w.calls[i], signals, now);
            v.table == u && v.calls == w.calls[i := d]
    decreases |signals|
  {
    if signals == [] {
      assert w.calls == w.calls[i := w.calls[i]];
    } else {
      var v := Step(w, Resume(i, signals[0], false, now));
      RunOn(w, Resume(i, signals[0], false, now), Resumes(i, signals[1..], now));
      StraightStep(w.table, w.calls[i], signals[0], signals[1..], now);
      ResumesAreStraight(v, i, signals[1..], now);
      assert v.calls[i := Straight(w.table, w.calls[i], signals, now).1] == w.calls[i := Straight(w.table, w.calls[i], signals, now).1];
    }
  }

  ghost predicate StraightDelivers(w: World, i: nat, signals: seq<Signal>, now: int, id: string, receipt: string) {
    i in w.calls && w.calls[i].Working? && var (u, d) := Straight(w.table, w.calls[i], signals, now); Delivers(u, d, id, receipt)
  }

  lemma ResumedDelivers(w: World, i: nat, signals: seq<Signal>, now: int, id: string, receipt: string)
    requires StraightDelivers(w, i, signals, now, id, receipt)
    ensures var v := Run(w, Resumes(i, signals, now)); i in v.calls && Delivers(v.table, v.calls[i], id, receipt) && v.calls == w.calls[i := v.calls[i]]
  {
    ResumesAreStraight(w, i, signals, now);
  }

  lemma StartedDelivers(w: World, i: nat, config: Config, id: string, newId: string, now: int, key: string, receipt: string)
    requires i !in w.calls && Deliverable(w.table, config, id, now) && Trim(key) != "" && Trim(receipt) != ""
    ensures var v := Step(w, Start(i, config, newId, now, now));
            StraightDelivers(v, i, Answers(config.upload && w.table[id].uploadKey == None, key, receipt), now, id, Trim(receipt))
            && v.calls == w.calls[i := v.calls[i]]
  {
    EventsAct(w, Start(i, config, newId, now, now));
    UndisturbedCallDelivers(w.table, config, id, newId, now, key, receipt);
  }

  /** The events of a call that nobody disturbs: its start and the answers it waits for. */
  function Undisturbed(i: nat, config: Config, newId: string, now: int, upload: bool, key: string, receipt: string): seq<Event> {
    [Start(i, config, newId, now, now)] + Resumes(i, Answers(upload, key, receipt), now)
  }

  /** A new call on a due output, undisturbed and answered, delivers it and reports so, and leaves every other call as it is. */
  lemma UndisturbedRunDelivers(w: World, i: nat, config: Config, id: string, newId: string, now: int, key: string, receipt: string)
    requires i !in w.calls && Deliverable(w.table, config, id, now) && Trim(key) != "" && Trim(receipt) != ""
    ensures var v := Run(w, Undisturbed(i, config, newId, now, config.upload && w.table[id].uploadKey == None, key, receipt));
            i in v.calls && Delivers(v.table, v.calls[i], id, Trim(receipt)) && v.calls == w.calls[i := v.calls[i]]
  {
    var upload := config.upload && w.table[id].uploadKey == None;
    StartedDelivers(w, i, config, id, newId, now, key, receipt);
    ResumedDelivers(Step(w, Start(i, config, newId, now, now)), i, Answers(upload, key, receipt), now, id, Trim(receipt));
    RunOn(w, Start(i, config, newId, now, now), Resumes(i, Answers(upload, key, receipt), now));
  }
}
