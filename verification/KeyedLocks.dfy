/**
 * The keyed lock pool under any interleaving of `withLocks` calls. A task is
 * one call; its steps are the stretches between two awaits. Releases are single
 * steps here although the code performs them in one stretch, which only adds
 * interleavings.
 */
module KeyedLocks {
  import opened Options
  import Lex

  /** A lock state: its key, one released flag per gate in queue order, and the reference count. */
  datatype LockState = LockState(key: string, gates: seq<bool>, references: int)

  /** A place in the queue of one lock state object. */
  datatype Ticket = Ticket(state: nat, index: nat)

  datatype Phase = Ready | Waiting(ticket: Ticket) | Running | Releasing
  datatype Task = Task(ordered: seq<string>, held: seq<Ticket>, phase: Phase)

  /**
   * `locks` names the current object of a key, `states` holds every object ever
   * made. `requests` and `grants` are history: per key, its callers in the order
   * in which they asked for it and in which they got it.
   */
  datatype World = World(
    locks: map<string, nat>, states: seq<LockState>, tasks: map<nat, Task>, finished: set<nat>,
    requests: map<string, seq<nat>>, grants: map<string, seq<nat>>)

  const EMPTY := World(map[], [], map[], {}, map[], map[])

  // ---- the pool ----

  /** The synchronous part of `acquire`: find or make the entry, count, queue a gate. */
  function Queue(locks: map<string, nat>, states: seq<LockState>, key: string): (map<string, nat>, seq<LockState>, Ticket)
    requires forall k | k in locks :: locks[k] < |states|
  {
    var ls := if key in locks then locks else locks[key := |states|];
    var ss := if key in locks then states else states + [LockState(key, [], 0)];
    var s := ss[ls[key]];
    (ls, ss[ls[key] := s.(gates := s.gates + [false], references := s.references + 1)], Ticket(ls[key], |s.gates|))
  }

  /** The promise a ticket waits for has resolved: every earlier gate is released. */
  predicate Open(states: seq<LockState>, t: Ticket) {
    t.state < |states| && t.index < |states[t.state].gates| && forall i | 0 <= i < t.index :: states[t.state].gates[i]
  }

  /** The release function: open the gate, drop the reference, delete the entry with its last one. */
  function Unqueue(locks: map<string, nat>, states: seq<LockState>, key: string, t: Ticket): (map<string, nat>, seq<LockState>)
    requires t.state < |states| && t.index < |states[t.state].gates|
  {
    var s := states[t.state];
    var left := s.references - 1;
    (if left == 0 && key in locks && locks[key] == t.state then locks - {key} else locks,
     states[t.state := s.(gates := s.gates[t.index := true], references := left)])
  }

  predicate Queues(states: seq<LockState>, tickets: seq<Ticket>) {
    forall t | t in tickets :: t.state < |states| && t.index < |states[t.state].gates|
  }

  /** The `finally` block: every release, last acquired first. */
  function Unwound(locks: map<string, nat>, states: seq<LockState>, keys: seq<string>, tickets: seq<Ticket>): (map<string, nat>, seq<LockState>)
    requires |tickets| <= |keys| && Queues(states, tickets)
    decreases |tickets|
  {
    if tickets == [] then (locks, states)
    else
      var last := |tickets| - 1;
      var (ls, ss) := Unqueue(locks, states, keys[last], tickets[last]);
      Unwound(ls, ss, keys, tickets[..last])
  }

  lemma UnwoundStep(locks: map<string, nat>, states: seq<LockState>, keys: seq<string>, tickets: seq<Ticket>, n: nat)
    requires n < |tickets| <= |keys| && Queues(states, tickets[..n + 1])
    ensures tickets[n].state < |states| && tickets[n].index < |states[tickets[n].state].gates|
    ensures var (ls, ss) := Unqueue(locks, states, keys[n], tickets[n]);
            Queues(ss, tickets[..n]) && Unwound(locks, states, keys, tickets[..n + 1]) == Unwound(ls, ss, keys, tickets[..n])
  {
    assert tickets[..n + 1][n] == tickets[n] && tickets[..n + 1][..n] == tickets[..n];
    forall t | t in tickets[..n] ensures t in tickets[..n + 1] {
    }
  }

  // ---- steps ----

  function Log(m: map<string, seq<nat>>, k: string): seq<nat> {
    if k in m then m[k] else []
  }

  datatype Step =
    | Begin(t: nat, ordered: seq<string>)
    | Acquire(t: nat)
    | Grant(t: nat)
    | Enter(t: nat)
    | Leave(t: nat)
    | Release(t: nat)
    | End(t: nat)

  predicate Ascending(keys: seq<string>) {
    forall i, j | 0 <= i < j < |keys| :: Lex.Less(keys[i], keys[j])
  }

  function NextKey(x: Task): string
    requires |x.held| < |x.ordered|
  {
    x.ordered[|x.held|]
  }

  predicate Enabled(w: World, s: Step) {
    match s
    case Begin(t, ordered) => t !in w.tasks && t !in w.finished && Ascending(ordered)
    case Acquire(t) => t in w.tasks && w.tasks[t].phase == Ready && |w.tasks[t].held| < |w.tasks[t].ordered|
    case Grant(t) => t in w.tasks && w.tasks[t].phase.Waiting? && Open(w.states, w.tasks[t].phase.ticket)
                     && |w.tasks[t].held| < |w.tasks[t].ordered|
    case Enter(t) => t in w.tasks && w.tasks[t].phase == Ready && |w.tasks[t].held| == |w.tasks[t].ordered|
    case Leave(t) => t in w.tasks && w.tasks[t].phase == Running
    case Release(t) => t in w.tasks && w.tasks[t].phase == Releasing && w.tasks[t].held != []
    case End(t) => t in w.tasks && w.tasks[t].phase == Releasing && w.tasks[t].held == []
  }

  predicate Defined(w: World) {
    (forall k | k in w.locks :: w.locks[k] < |w.states|)
    && forall t | t in w.tasks ::
         |w.tasks[t].held| <= |w.tasks[t].ordered|
         && forall h | h in w.tasks[t].held :: h.state < |w.states| && h.index < |w.states[h.state].gates|
  }

  function Apply(w: World, s: Step): World
    requires Defined(w) && Enabled(w, s)
  {
    match s
    case Begin(t, ordered) => w.(tasks := w.tasks[t := Task(ordered, [], Ready)])
    case Acquire(t) =>
      var k := NextKey(w.tasks[t]);
      var (ls, ss, ticket) := Queue(w.locks, w.states, k);
      w.(locks := ls, states := ss, tasks := w.tasks[t := w.tasks[t].(phase := Waiting(ticket))],
         requests := w.requests[k := Log(w.requests, k) + [t]])
    case Grant(t) =>
      var x := w.tasks[t];
      w.(tasks := w.tasks[t := x.(held := x.held + [x.phase.ticket], phase := Ready)],
         grants := w.grants[NextKey(x) := Log(w.grants, NextKey(x)) + [t]])
    case Enter(t) => w.(tasks := w.tasks[t := w.tasks[t].(phase := Running)])
    case Leave(t) => w.(tasks := w.tasks[t := w.tasks[t].(phase := Releasing)])
    case Release(t) =>
      var x := w.tasks[t];
      var last := |x.held| - 1;
      var (ls, ss) := Unqueue(w.locks, w.states, x.ordered[last], x.held[last]);
      w.(locks := ls, states := ss, tasks := w.tasks[t := x.(held := x.held[..last])])
    case End(t) => w.(tasks := w.tasks - {t}, finished := w.finished + {t})
  }

  // ---- one key ----

  /** Everything about one key: its current object, that object's queue, and the key's history. */
  datatype View = View(entry: Option<nat>, gates: seq<bool>, references: int, requests: seq<nat>, grants: seq<nat>) {
    /** Where the current queue starts in the request log: earlier requests went to objects that are gone. */
    function Base(): int { |requests| - |gates| }
  }

  function ViewOf(w: World, k: string): View {
    if k in w.locks && w.locks[k] < |w.states| then
      View(Some(w.locks[k]), w.states[w.locks[k]].gates, w.states[w.locks[k]].references, Log(w.requests, k), Log(w.grants, k))
    else View(None, [], 0, Log(w.requests, k), Log(w.grants, k))
  }

  /** The last granted gate is not released yet. */
  predicate Busy(v: View)
    requires 0 <= v.Base() <= |v.grants| <= |v.requests|
  {
    v.Base() < |v.grants| && !v.gates[|v.grants| - 1 - v.Base()]
  }

  /** Grants follow the requests; gates are released up to the last grant; the count is the holder plus the waiters. */
  predicate KeyOk(v: View) {
    v.grants <= v.requests && 0 <= v.Base() <= |v.grants|
    && (forall i | 0 <= i < |v.gates| && v.Base() + i < |v.grants| - 1 :: v.gates[i])
    && (forall i | 0 <= i < |v.gates| && v.Base() + i >= |v.grants| :: !v.gates[i])
    && v.references == |v.requests| - |v.grants| + (if Busy(v) then 1 else 0)
    && (v.entry.Some? <==> v.references > 0) && (v.entry == None ==> v.gates == [])
  }

  predicate Queued(v: View, t: nat, ticket: Ticket) {
    v.entry == Some(ticket.state) && ticket.index < |v.gates| && v.Base() >= 0
    && v.Base() + ticket.index >= |v.grants| && v.requests[v.Base() + ticket.index] == t
  }

  predicate Held(v: View, t: nat, ticket: Ticket) {
    v.entry == Some(ticket.state) && ticket.index < |v.gates| && !v.gates[ticket.index]
    && v.grants != [] && v.Base() + ticket.index == |v.grants| - 1 && v.grants[|v.grants| - 1] == t
  }

  function Requested(v: View, t: nat, newId: nat): View {
    View(Some(v.entry.OrElse(newId)), v.gates + [false], v.references + 1, v.requests + [t], v.grants)
  }

  function Granted(v: View, t: nat): View {
    v.(grants := v.grants + [t])
  }

  function Released(v: View, i: nat): View
    requires i < |v.gates|
  {
    if v.references == 1 then View(None, [], 0, v.requests, v.grants)
    else v.(gates := v.gates[i := true], references := v.references - 1)
  }

  lemma RequestKeeps(v: View, t: nat, newId: nat)
    requires KeyOk(v)
    ensures var u := Requested(v, t, newId);
            KeyOk(u) && Queued(u, t, Ticket(u.entry.value, |v.gates|))
            && (forall x, ticket :: Queued(v, x, ticket) ==> Queued(u, x, ticket))
            && (forall x, ticket :: Held(v, x, ticket) ==> Held(u, x, ticket))
  {
  }

  /** Only the first waiter can be granted, and only when nobody holds the key. */
  lemma GrantKeeps(v: View, t: nat, ticket: Ticket)
    requires KeyOk(v) && Queued(v, t, ticket) && forall i | 0 <= i < ticket.index :: v.gates[i]
    ensures v.Base() + ticket.index == |v.grants| && !Busy(v)
    ensures var u := Granted(v, t);
            KeyOk(u) && Held(u, t, ticket)
            && (forall x, other :: Queued(v, x, other) && other != ticket ==> Queued(u, x, other))
            && (forall x, other :: !Held(v, x, other))
  {
    var first := |v.grants| - v.Base();
    assert first < |v.gates| && !v.gates[first];
    assert ticket.index <= first;
  }

  lemma ReleaseKeeps(v: View, t: nat, ticket: Ticket)
    requires KeyOk(v) && Held(v, t, ticket)
    ensures var u := Released(v, ticket.index);
            KeyOk(u) && !Busy(u)
            && (forall x, other :: Queued(v, x, other) ==> Queued(u, x, other))
            && (forall x, other :: Held(v, x, other) ==> x == t)
  {
  }

  // ---- the invariant ----

  predicate Holds(x: Task, k: string) {
    |x.held| <= |x.ordered| && k in x.ordered[..|x.held|]
  }

  predicate Waits(x: Task, k: string) {
    x.phase.Waiting? && |x.held| < |x.ordered| && NextKey(x) == k
  }

  /** The current object of each key is made for that key. */
  predicate EntryOk(w: World, k: string)
    requires k in w.locks
  {
    w.locks[k] < |w.states| && w.states[w.locks[k]].key == k
  }

  predicate TaskOk(w: World, t: nat)
    requires t in w.tasks
  {
    var x := w.tasks[t];
    Ascending(x.ordered) && |x.held| <= |x.ordered|
    && (x.phase == Running ==> |x.held| == |x.ordered|)
    && (x.phase.Waiting? ==> |x.held| < |x.ordered| && Queued(ViewOf(w, NextKey(x)), t, x.phase.ticket))
    && forall j | 0 <= j < |x.held| :: Held(ViewOf(w, x.ordered[j]), t, x.held[j])
  }

  /** A gate that is not released belongs to a task that waits for it or holds it. */
  predicate OwnerOk(w: World, k: string, i: nat) {
    var v := ViewOf(w, k);
    i < |v.gates| && !v.gates[i] && v.entry.Some? && 0 <= v.Base() ==>
      var t := v.requests[v.Base() + i];
      t in w.tasks
      && if v.Base() + i >= |v.grants| then Waits(w.tasks[t], k) && w.tasks[t].phase.ticket == Ticket(v.entry.value, i)
         else Holds(w.tasks[t], k)
  }

  ghost predicate Entries(w: World) {
    (forall k | k in w.locks :: EntryOk(w, k)) && forall k: string :: KeyOk(ViewOf(w, k))
  }

  ghost predicate Tasks(w: World) {
    forall t | t in w.tasks :: TaskOk(w, t)
  }

  ghost predicate Owners(w: World) {
    forall k: string, i: nat :: OwnerOk(w, k, i)
  }

  ghost predicate Inv(w: World) {
    Entries(w) && Tasks(w) && Owners(w)
  }

  lemma InvIsDefined(w: World)
    requires Entries(w) && Tasks(w)
    ensures Defined(w)
  {
  }

  // ---- what a step does ----

  /** A step of task `t` touches one key and one task. */
  ghost predicate Touches(w: World, u: World, t: nat, k: string, v: View, x: Task) {
    ViewOf(u, k) == v && (forall l | l != k :: ViewOf(u, l) == ViewOf(w, l)) && (forall l | l in u.locks :: EntryOk(u, l))
    && t in w.tasks && u.tasks == w.tasks[t := x]
  }

  function Asking(w: World, t: nat): Task
    requires t in w.tasks && |w.tasks[t].held| < |w.tasks[t].ordered|
  {
    var v := ViewOf(w, NextKey(w.tasks[t]));
    w.tasks[t].(phase := Waiting(Ticket(v.entry.OrElse(|w.states|), |v.gates|)))
  }

  function Given(x: Task): Task
    requires x.phase.Waiting?
  {
    x.(held := x.held + [x.phase.ticket], phase := Ready)
  }

  function Shorter(x: Task): Task
    requires x.held != []
  {
    x.(held := x.held[..|x.held| - 1])
  }

  lemma AcquireTouches(w: World, t: nat)
    requires Entries(w) && Defined(w) && Enabled(w, Acquire(t))
    ensures var k := NextKey(w.tasks[t]);
            Touches(w, Apply(w, Acquire(t)), t, k, Requested(ViewOf(w, k), t, |w.states|), Asking(w, t))
  {
    var u, k := Apply(w, Acquire(t)), NextKey(w.tasks[t]);
    assert KeyOk(ViewOf(w, k));
    forall l | l != k ensures ViewOf(u, l) == ViewOf(w, l) && (l in u.locks ==> EntryOk(u, l)) {
      AcquireElsewhere(w, t, l);
    }
  }

  lemma AcquireElsewhere(w: World, t: nat, l: string)
    requires Defined(w) && Enabled(w, Acquire(t)) && l != NextKey(w.tasks[t])
    requires l in w.locks ==> EntryOk(w, l)
    requires NextKey(w.tasks[t]) in w.locks ==> EntryOk(w, NextKey(w.tasks[t]))
    ensures var u := Apply(w, Acquire(t)); ViewOf(u, l) == ViewOf(w, l) && (l in u.locks ==> EntryOk(u, l))
  {
  }

  lemma ReleaseElsewhere(w: World, t: nat, k: string, l: string)
    requires Defined(w) && Enabled(w, Release(t)) && k == w.tasks[t].ordered[|w.tasks[t].held| - 1] && l != k
    requires l in w.locks ==> EntryOk(w, l)
    requires k in w.locks && EntryOk(w, k) && w.locks[k] == w.tasks[t].held[|w.tasks[t].held| - 1].state
    ensures var u := Apply(w, Release(t)); ViewOf(u, l) == ViewOf(w, l) && (l in u.locks ==> EntryOk(u, l))
  {
  }

  lemma GrantTouches(w: World, t: nat)
    requires Entries(w) && Defined(w) && Enabled(w, Grant(t)) && TaskOk(w, t)
    ensures var k := NextKey(w.tasks[t]);
            Touches(w, Apply(w, Grant(t)), t, k, Granted(ViewOf(w, k), t), Given(w.tasks[t]))
            && forall i | 0 <= i < w.tasks[t].phase.ticket.index && i < |ViewOf(w, k).gates| :: ViewOf(w, k).gates[i]
  {
  }

  lemma ReleaseTouches(w: World, t: nat)
    requires Entries(w) && Defined(w) && Enabled(w, Release(t)) && TaskOk(w, t)
    ensures var x := w.tasks[t]; var k := x.ordered[|x.held| - 1]; var i := x.held[|x.held| - 1].index;
            Held(ViewOf(w, k), t, x.held[|x.held| - 1])
            && Touches(w, Apply(w, Release(t)), t, k, Released(ViewOf(w, k), i), Shorter(x))
  {
    var u, x := Apply(w, Release(t)), w.tasks[t];
    var k := x.ordered[|x.held| - 1];
    assert Held(ViewOf(w, k), t, x.held[|x.held| - 1]);
    assert KeyOk(ViewOf(w, k));
    forall l | l != k ensures ViewOf(u, l) == ViewOf(w, l) && (l in u.locks ==> EntryOk(u, l)) {
      ReleaseElsewhere(w, t, k, l);
    }
  }

  // ---- every step keeps the invariant ----

  lemma NotHeldYet(x: Task)
    requires Ascending(x.ordered) && |x.held| < |x.ordered|
    ensures !Holds(x, NextKey(x))
  {
    forall j | 0 <= j < |x.held| ensures x.ordered[j] != NextKey(x) {
      Lex.Irreflexive(NextKey(x));
    }
  }

  lemma LastOnly(x: Task, j: nat)
    requires Ascending(x.ordered) && j < |x.held| - 1 && |x.held| <= |x.ordered|
    ensures x.ordered[j] != x.ordered[|x.held| - 1]
  {
    Lex.Irreflexive(x.ordered[j]);
  }

  /** What a task must keep when its own step touches other keys. */
  predicate Keeps(x: Task, y: Task, l: string) {
    (Holds(x, l) ==> Holds(y, l)) && (Waits(x, l) ==> Waits(y, l) && y.phase == x.phase)
  }

  lemma OwnerStays(w: World, u: World, l: string, i: nat)
    requires OwnerOk(w, l, i) && ViewOf(u, l) == ViewOf(w, l)
    requires forall v | v in w.tasks && (Holds(w.tasks[v], l) || Waits(w.tasks[v], l)) :: v in u.tasks && Keeps(w.tasks[v], u.tasks[v], l)
    ensures OwnerOk(u, l, i)
  {
  }

  /** A step that touches another key leaves the owners of this one alone. */
  lemma OwnerElsewhere(w: World, u: World, t: nat, k: string, v: View, x: Task, l: string, i: nat)
    requires Touches(w, u, t, k, v, x) && l != k && Keeps(w.tasks[t], x, l) && OwnerOk(w, l, i)
    ensures OwnerOk(u, l, i)
  {
    OwnerStays(w, u, l, i);
  }

  lemma TaskStays(w: World, u: World, v: nat)
    requires v in w.tasks && v in u.tasks && u.tasks[v] == w.tasks[v] && TaskOk(w, v)
    requires var x := w.tasks[v]; x.phase.Waiting? && |x.held| < |x.ordered| ==> Queued(ViewOf(u, NextKey(x)), v, x.phase.ticket)
    requires var x := w.tasks[v]; forall j | 0 <= j < |x.held| && j < |x.ordered| :: Held(ViewOf(u, x.ordered[j]), v, x.held[j])
    ensures TaskOk(u, v)
  {
  }

  // ---- acquire ----

  lemma AcquireTask(w: World, u: World, t: nat, v: nat)
    requires t in w.tasks && TaskOk(w, t) && |w.tasks[t].held| < |w.tasks[t].ordered| && KeyOk(ViewOf(w, NextKey(w.tasks[t])))
    requires Touches(w, u, t, NextKey(w.tasks[t]), Requested(ViewOf(w, NextKey(w.tasks[t])), t, |w.states|), Asking(w, t))
    requires v in w.tasks && TaskOk(w, v)
    ensures TaskOk(u, v)
  {
    RequestKeeps(ViewOf(w, NextKey(w.tasks[t])), t, |w.states|);
    if v != t {
      TaskStays(w, u, v);
    }
  }

  lemma AcquireOwner(w: World, u: World, t: nat, l: string, i: nat)
    requires t in w.tasks && TaskOk(w, t) && w.tasks[t].phase == Ready && |w.tasks[t].held| < |w.tasks[t].ordered|
    requires KeyOk(ViewOf(w, NextKey(w.tasks[t])))
    requires Touches(w, u, t, NextKey(w.tasks[t]), Requested(ViewOf(w, NextKey(w.tasks[t])), t, |w.states|), Asking(w, t))
    requires OwnerOk(w, l, i)
    ensures OwnerOk(u, l, i)
  {
    var k := NextKey(w.tasks[t]);
    if l != k {
      OwnerElsewhere(w, u, t, k, Requested(ViewOf(w, k), t, |w.states|), Asking(w, t), l, i);
    } else {
      AskedOwner(w, u, t, l, i);
    }
  }

  /** The new gate belongs to the caller that asked, which owned none of the others. */
  lemma AskedOwner(w: World, u: World, t: nat, k: string, i: nat)
    requires t in w.tasks && TaskOk(w, t) && w.tasks[t].phase == Ready && |w.tasks[t].held| < |w.tasks[t].ordered| && NextKey(w.tasks[t]) == k
    requires KeyOk(ViewOf(w, k)) && OwnerOk(w, k, i)
    requires ViewOf(u, k) == Requested(ViewOf(w, k), t, |w.states|) && u.tasks == w.tasks[t := Asking(w, t)]
    ensures OwnerOk(u, k, i)
  {
  }

  // ---- grant ----

  lemma GrantTask(w: World, u: World, t: nat, v: nat)
    requires t in w.tasks && TaskOk(w, t) && w.tasks[t].phase.Waiting? && KeyOk(ViewOf(w, NextKey(w.tasks[t])))
    requires Touches(w, u, t, NextKey(w.tasks[t]), Granted(ViewOf(w, NextKey(w.tasks[t])), t), Given(w.tasks[t]))
    requires forall i | 0 <= i < w.tasks[t].phase.ticket.index :: ViewOf(w, NextKey(w.tasks[t])).gates[i]
    requires v in w.tasks && TaskOk(w, v)
    ensures TaskOk(u, v)
  {
    var k := NextKey(w.tasks[t]);
    GrantKeeps(ViewOf(w, k), t, w.tasks[t].phase.ticket);
    if v != t {
      assert Waits(w.tasks[v], k) ==> w.tasks[v].phase.ticket != w.tasks[t].phase.ticket;
      TaskStays(w, u, v);
    }
  }

  lemma GrantHolds(x: Task)
    requires x.phase.Waiting? && |x.held| < |x.ordered|
    ensures Holds(Given(x), NextKey(x)) && forall l :: Holds(x, l) ==> Holds(Given(x), l)
  {
  }

  lemma GrantOwner(w: World, u: World, t: nat, l: string, i: nat)
    requires t in w.tasks && TaskOk(w, t) && w.tasks[t].phase.Waiting? && KeyOk(ViewOf(w, NextKey(w.tasks[t])))
    requires Touches(w, u, t, NextKey(w.tasks[t]), Granted(ViewOf(w, NextKey(w.tasks[t])), t), Given(w.tasks[t]))
    requires forall i | 0 <= i < w.tasks[t].phase.ticket.index :: ViewOf(w, NextKey(w.tasks[t])).gates[i]
    requires OwnerOk(w, l, i)
    ensures OwnerOk(u, l, i)
  {
    GrantHolds(w.tasks[t]);
    var k := NextKey(w.tasks[t]);
    if l != k {
      OwnerElsewhere(w, u, t, k, Granted(ViewOf(w, k), t), Given(w.tasks[t]), l, i);
    } else {
      GrantKeeps(ViewOf(w, l), t, w.tasks[t].phase.ticket);
    }
  }

  // ---- release ----

  lemma ReleaseTask(w: World, u: World, t: nat, v: nat)
    requires t in w.tasks && TaskOk(w, t) && w.tasks[t].held != [] && w.tasks[t].phase == Releasing
    requires var x := w.tasks[t]; var k, last := x.ordered[|x.held| - 1], x.held[|x.held| - 1];
             KeyOk(ViewOf(w, k)) && Held(ViewOf(w, k), t, last)
             && Touches(w, u, t, k, Released(ViewOf(w, k), last.index), Shorter(x))
    requires v in w.tasks && TaskOk(w, v)
    ensures TaskOk(u, v)
  {
    var x := w.tasks[t];
    var last := |x.held| - 1;
    ReleaseKeeps(ViewOf(w, x.ordered[last]), t, x.held[last]);
    if v != t {
      TaskStays(w, u, v);
    } else {
      forall j | 0 <= j < last ensures Held(ViewOf(u, x.ordered[j]), t, x.held[j]) {
        LastOnly(x, j);
      }
    }
  }

  lemma ShorterHolds(x: Task, l: string)
    requires x.held != [] && |x.held| <= |x.ordered| && l != x.ordered[|x.held| - 1] && Holds(x, l)
    ensures Holds(Shorter(x), l)
  {
  }

  lemma ReleaseOwner(w: World, u: World, t: nat, l: string, i: nat)
    requires t in w.tasks && TaskOk(w, t) && w.tasks[t].held != [] && w.tasks[t].phase == Releasing
    requires var x := w.tasks[t]; var k, last := x.ordered[|x.held| - 1], x.held[|x.held| - 1];
             KeyOk(ViewOf(w, k)) && Held(ViewOf(w, k), t, last)
             && Touches(w, u, t, k, Released(ViewOf(w, k), last.index), Shorter(x))
    requires OwnerOk(w, l, i)
    ensures OwnerOk(u, l, i)
  {
    var x := w.tasks[t];
    var k, last := x.ordered[|x.held| - 1], x.held[|x.held| - 1];
    if l != k {
      if Holds(x, l) {
        ShorterHolds(x, l);
      }
      OwnerElsewhere(w, u, t, k, Released(ViewOf(w, k), last.index), Shorter(x), l, i);
    } else {
      ReleasedOwner(w, u, t, l, i);
    }
  }

  /** Once the holder let go, every gate left in the queue belongs to a waiter. */
  lemma ReleasedOwner(w: World, u: World, t: nat, k: string, i: nat)
    requires t in w.tasks && w.tasks[t].phase == Releasing && u.tasks.Keys == w.tasks.Keys
    requires forall v | v in w.tasks && v != t :: u.tasks[v] == w.tasks[v]
    requires w.tasks[t].held != [] && KeyOk(ViewOf(w, k)) && Held(ViewOf(w, k), t, w.tasks[t].held[|w.tasks[t].held| - 1])
    requires ViewOf(u, k) == Released(ViewOf(w, k), w.tasks[t].held[|w.tasks[t].held| - 1].index)
    requires OwnerOk(w, k, i)
    ensures OwnerOk(u, k, i)
  {
  }

  // ---- all steps ----

  lemma AcquireKeeps(w: World, t: nat)
    requires Inv(w) && Defined(w) && Enabled(w, Acquire(t))
    ensures Inv(Apply(w, Acquire(t)))
  {
    var u := Apply(w, Acquire(t));
    AcquireTouches(w, t);
    assert TaskOk(w, t);
    RequestKeeps(ViewOf(w, NextKey(w.tasks[t])), t, |w.states|);
    forall v | v in u.tasks ensures TaskOk(u, v) {
      AcquireTask(w, u, t, v);
    }
    forall l: string, i: nat ensures OwnerOk(u, l, i) {
      AcquireOwner(w, u, t, l, i);
    }
  }

  lemma GrantStepKeeps(w: World, t: nat)
    requires Inv(w) && Defined(w) && Enabled(w, Grant(t))
    ensures Inv(Apply(w, Grant(t)))
  {
    var u := Apply(w, Grant(t));
    assert TaskOk(w, t);
    GrantTouches(w, t);
    GrantKeeps(ViewOf(w, NextKey(w.tasks[t])), t, w.tasks[t].phase.ticket);
    forall v | v in u.tasks ensures TaskOk(u, v) {
      GrantTask(w, u, t, v);
    }
    forall l: string, i: nat ensures OwnerOk(u, l, i) {
      GrantOwner(w, u, t, l, i);
    }
  }

  lemma ReleaseStepKeeps(w: World, t: nat)
    requires Inv(w) && Defined(w) && Enabled(w, Release(t))
    ensures Inv(Apply(w, Release(t)))
  {
    var u, x := Apply(w, Release(t)), w.tasks[t];
    assert TaskOk(w, t);
    ReleaseTouches(w, t);
    ReleaseKeeps(ViewOf(w, x.ordered[|x.held| - 1]), t, x.held[|x.held| - 1]);
    forall v | v in u.tasks ensures TaskOk(u, v) {
      ReleaseTask(w, u, t, v);
    }
    forall l: string, i: nat ensures OwnerOk(u, l, i) {
      ReleaseOwner(w, u, t, l, i);
    }
  }

  /** The other steps touch no key. */
  predicate Local(s: Step) {
    s.Begin? || s.Enter? || s.Leave? || s.End?
  }

  lemma LocalViews(w: World, s: Step)
    requires Defined(w) && Enabled(w, s) && Local(s)
    ensures forall l :: ViewOf(Apply(w, s), l) == ViewOf(w, l)
  {
  }

  lemma LocalTask(w: World, s: Step, v: nat)
    requires Tasks(w) && Defined(w) && Enabled(w, s) && Local(s) && v in Apply(w, s).tasks
    ensures TaskOk(Apply(w, s), v)
  {
    LocalViews(w, s);
    if v in w.tasks {
      assert TaskOk(w, v);
    }
  }

  lemma LocalOwner(w: World, s: Step, l: string, i: nat)
    requires Defined(w) && Enabled(w, s) && Local(s) && OwnerOk(w, l, i)
    ensures OwnerOk(Apply(w, s), l, i)
  {
  }

  lemma LocalKeeps(w: World, s: Step)
    requires Inv(w) && Defined(w) && Enabled(w, s) && Local(s)
    ensures Inv(Apply(w, s))
  {
    var u := Apply(w, s);
    LocalViews(w, s);
    forall l | l in u.locks ensures EntryOk(u, l) {
      assert EntryOk(w, l);
    }
    forall v | v in u.tasks ensures TaskOk(u, v) {
      LocalTask(w, s, v);
    }
    forall l: string, i: nat ensures OwnerOk(u, l, i) {
      LocalOwner(w, s, l, i);
    }
  }

  lemma StepKeeps(w: World, s: Step)
    requires Inv(w) && Defined(w) && Enabled(w, s)
    ensures Inv(Apply(w, s))
  {
    if s.Acquire? {
      AcquireKeeps(w, s.t);
    } else if s.Grant? {
      GrantStepKeeps(w, s.t);
    } else if s.Release? {
      ReleaseStepKeeps(w, s.t);
    } else {
      LocalKeeps(w, s);
    }
  }

  // ---- runs ----

  function Next(w: World, s: Step): World {
    if Defined(w) && Enabled(w, s) then Apply(w, s) else w
  }

  function Run(w: World, steps: seq<Step>): World
    decreases |steps|
  {
    if steps == [] then w else Next(Run(w, steps[..|steps| - 1]), steps[|steps| - 1])
  }

  lemma {:induction false} Always(w: World, steps: seq<Step>)
    requires Inv(w)
    ensures Inv(Run(w, steps))
    decreases |steps|
  {
    if steps != [] {
      Always(w, steps[..|steps| - 1]);
      var before := Run(w, steps[..|steps| - 1]);
      if Defined(before) && Enabled(before, steps[|steps| - 1]) {
        StepKeeps(before, steps[|steps| - 1]);
      }
    }
  }

  lemma EmptyIsFine()
    ensures Inv(EMPTY)
  {
  }

  lemma HolderOf(w: World, t: nat, k: string)
    requires Tasks(w) && t in w.tasks && Holds(w.tasks[t], k)
    ensures exists ticket :: Held(ViewOf(w, k), t, ticket)
  {
  }

  /** Mutual exclusion: in every reachable state a key has at most one holder, whatever entries were deleted and made again. */
  lemma OneHolder(steps: seq<Step>, k: string, t: nat, u: nat)
    requires var w := Run(EMPTY, steps); t in w.tasks && Holds(w.tasks[t], k) && u in w.tasks && Holds(w.tasks[u], k)
    ensures t == u
  {
    EmptyIsFine();
    Always(EMPTY, steps);
    HolderOf(Run(EMPTY, steps), t, k);
    HolderOf(Run(EMPTY, steps), u, k);
  }

  /** First come, first served: per key, the grants are a prefix of the requests, across all entries the key ever had. */
  lemma GrantsFollowRequests(steps: seq<Step>, k: string)
    ensures var w := Run(EMPTY, steps); Log(w.grants, k) <= Log(w.requests, k)
  {
    EmptyIsFine();
    Always(EMPTY, steps);
    assert KeyOk(ViewOf(Run(EMPTY, steps), k));
  }

  // ---- the reference count ----

  function Users(w: World, k: string): set<nat> {
    set t | t in w.tasks && (Holds(w.tasks[t], k) || Waits(w.tasks[t], k))
  }

  function Elements(s: seq<nat>): set<nat> {
    set x | x in s
  }

  lemma {:induction false} DistinctCount(s: seq<nat>)
    requires forall i, j | 0 <= i < j < |s| :: s[i] != s[j]
    ensures |Elements(s)| == |s|
  {
    if s == [] {
      assert Elements(s) == {};
    } else {
      var front, last := s[..|s| - 1], s[|s| - 1];
      DistinctCount(front);
      assert last !in Elements(front);
      assert Elements(s) == Elements(front) + {last};
    }
  }

  /** The end of the request log, one entry for each reference. */
  function Tail(v: View): seq<nat> {
    if 0 <= v.references <= |v.requests| then v.requests[|v.requests| - v.references..] else []
  }

  /** Where in the queue the n-th task of the tail stands. */
  lemma TailIndex(v: View, n: nat)
    requires KeyOk(v) && n < v.references
    ensures var i := |v.gates| - v.references + n;
            0 <= i < |v.gates| && !v.gates[i] && v.entry.Some? && v.requests[v.Base() + i] == Tail(v)[n]
            && (v.Base() + i < |v.grants| ==> n == 0)
  {
  }

  lemma TailOwner(w: World, k: string, n: nat)
    requires KeyOk(ViewOf(w, k)) && Tasks(w) && n < ViewOf(w, k).references
    requires var v := ViewOf(w, k); |v.gates| >= v.references && OwnerOk(w, k, |v.gates| - v.references + n)
    ensures var v := ViewOf(w, k); var t := Tail(v)[n];
            t in Users(w, k) && if Waits(w.tasks[t], k) then w.tasks[t].phase.ticket.index == |v.gates| - v.references + n else n == 0
  {
    var v := ViewOf(w, k);
    TailIndex(v, n);
    var t := Tail(v)[n];
    assert TaskOk(w, t);
    if |w.tasks[t].held| < |w.tasks[t].ordered| {
      NotHeldYet(w.tasks[t]);
    }
  }

  lemma TailOwners(w: World, k: string, n: nat)
    requires Inv(w) && n < |Tail(ViewOf(w, k))|
    ensures var v := ViewOf(w, k); var t := Tail(v)[n];
            t in Users(w, k) && if Waits(w.tasks[t], k) then w.tasks[t].phase.ticket.index == |v.gates| - v.references + n else n == 0
  {
    var v := ViewOf(w, k);
    assert KeyOk(v);
    TailIndex(v, n);
    assert OwnerOk(w, k, |v.gates| - v.references + n);
    TailOwner(w, k, n);
  }

  lemma UserIsInTail(w: World, k: string, t: nat)
    requires Inv(w) && t in Users(w, k)
    ensures t in Tail(ViewOf(w, k))
  {
    var v := ViewOf(w, k);
    assert KeyOk(v) && TaskOk(w, t);
    if Waits(w.tasks[t], k) {
      var at := v.Base() + w.tasks[t].phase.ticket.index;
      assert v.requests[at] == t;
      assert Tail(v)[at - (|v.requests| - v.references)] == t;
    } else {
      HolderOf(w, t, k);
      assert v.references == |v.requests| - |v.grants| + 1;
      assert Tail(v)[0] == t;
    }
  }

  lemma TailIsUsers(w: World, k: string)
    requires Inv(w)
    ensures forall t :: t in Tail(ViewOf(w, k)) <==> t in Users(w, k)
  {
    var tail := Tail(ViewOf(w, k));
    forall t ensures t in tail <==> t in Users(w, k) {
      if t in Users(w, k) {
        UserIsInTail(w, k, t);
      }
      if t in tail {
        var n :| 0 <= n < |tail| && tail[n] == t;
        TailOwners(w, k, n);
      }
    }
  }

  lemma TailIsDistinct(w: World, k: string)
    requires Inv(w)
    ensures var tail := Tail(ViewOf(w, k)); forall i, j | 0 <= i < j < |tail| :: tail[i] != tail[j]
  {
    var tail := Tail(ViewOf(w, k));
    forall i, j | 0 <= i < j < |tail| ensures tail[i] != tail[j] {
      TailOwners(w, k, i);
      TailOwners(w, k, j);
    }
  }

  lemma TailCounts(w: World, k: string)
    requires Inv(w)
    ensures |Users(w, k)| == |Tail(ViewOf(w, k))|
  {
    TailIsUsers(w, k);
    TailIsDistinct(w, k);
    DistinctCount(Tail(ViewOf(w, k)));
    assert Elements(Tail(ViewOf(w, k))) == Users(w, k);
  }

  /** The reference count of an entry is the number of tasks that hold its key or wait for it; no entry, no such task. */
  lemma ReferencesCount(w: World, k: string)
    requires Inv(w)
    ensures k in w.locks ==> w.locks[k] < |w.states| && w.states[w.locks[k]].references == |Users(w, k)|
    ensures k in w.locks <==> Users(w, k) != {}
  {
    TailCounts(w, k);
    EntryCounts(w, k);
    assert |Users(w, k)| == 0 <==> Users(w, k) == {};
  }

  lemma EntryCounts(w: World, k: string)
    requires Entries(w)
    ensures var n := |Tail(ViewOf(w, k))|;
            (k in w.locks ==> w.locks[k] < |w.states| && w.states[w.locks[k]].references == n) && (k in w.locks <==> n > 0)
  {
  }

  // ---- progress ----

  predicate Above(w: World, v: nat, k: string) {
    v in w.tasks && w.tasks[v].phase.Waiting? && |w.tasks[v].held| < |w.tasks[v].ordered| && Lex.Less(k, NextKey(w.tasks[v]))
  }

  function HeldUp(w: World, k: string): set<nat> {
    set v | v in w.tasks && Above(w, v, k)
  }

  /** Whoever holds a key and waits for another one waits for a greater one. */
  lemma HolderIsAbove(x: Task, k: string)
    requires Ascending(x.ordered) && |x.held| < |x.ordered| && Holds(x, k)
    ensures Lex.Less(k, NextKey(x))
  {
  }

  lemma HeldUpShrinks(w: World, k: string, v: nat)
    requires Above(w, v, k)
    ensures HeldUp(w, NextKey(w.tasks[v])) < HeldUp(w, k)
  {
    var l := NextKey(w.tasks[v]);
    Lex.Irreflexive(l);
    forall x | Above(w, x, l) ensures Above(w, x, k) {
      Lex.Transitive(k, l, NextKey(w.tasks[x]));
    }
    assert v in HeldUp(w, k) && v !in HeldUp(w, l);
  }

  /** The first gate in a queue that is not released belongs to the holder, or to a waiter that can go on. */
  lemma QueueHead(w: World, t: nat, k: string) returns (owner: nat)
    requires Inv(w) && t in w.tasks && Waits(w.tasks[t], k)
    ensures owner in w.tasks && (Holds(w.tasks[owner], k) || Enabled(w, Grant(owner)))
  {
    var v := ViewOf(w, k);
    assert KeyOk(v) && TaskOk(w, t);
    var i := if Busy(v) then |v.grants| - 1 - v.Base() else |v.grants| - v.Base();
    assert OwnerOk(w, k, i);
    owner := v.requests[v.Base() + i];
    assert EntryOk(w, k);
  }

  /** No deadlock: while tasks remain some task can take a step without anybody new arriving. */
  lemma {:induction false} SomeStep(w: World, t: nat) returns (s: Step)
    requires Inv(w) && t in w.tasks
    ensures Enabled(w, s) && !s.Begin?
    decreases if w.tasks[t].phase.Waiting? && |w.tasks[t].held| < |w.tasks[t].ordered| then 1 + |HeldUp(w, NextKey(w.tasks[t]))| else |w.tasks| + 2
  {
    var x := w.tasks[t];
    assert TaskOk(w, t);
    match x.phase
    case Running => s := Leave(t);
    case Releasing => s := if x.held == [] then End(t) else Release(t);
    case Ready => s := if |x.held| < |x.ordered| then Acquire(t) else Enter(t);
    case Waiting(_) =>
      var owner := QueueHead(w, t, NextKey(x));
      if Enabled(w, Grant(owner)) {
        s := Grant(owner);
      } else {
        s := HolderStep(w, owner, NextKey(x));
      }
  }

  lemma {:induction false} HolderStep(w: World, t: nat, k: string) returns (s: Step)
    requires Inv(w) && t in w.tasks && Holds(w.tasks[t], k)
    ensures Enabled(w, s) && !s.Begin?
    decreases |HeldUp(w, k)|
  {
    var x := w.tasks[t];
    assert TaskOk(w, t);
    match x.phase
    case Running => s := Leave(t);
    case Releasing => s := Release(t);
    case Ready => s := if |x.held| < |x.ordered| then Acquire(t) else Enter(t);
    case Waiting(_) =>
      HolderIsAbove(x, k);
      HeldUpShrinks(w, k, t);
      SubsetSize(HeldUp(w, NextKey(x)), HeldUp(w, k));
      var owner := QueueHead(w, t, NextKey(x));
      if Enabled(w, Grant(owner)) {
        s := Grant(owner);
      } else {
        s := HolderStep(w, owner, NextKey(x));
      }
  }

  lemma {:induction false} SubsetSize(a: set<nat>, b: set<nat>)
    requires a < b
    ensures |a| < |b|
  {
    var x :| x in b && x !in a;
    assert b == (b - a) + a;
    assert |b| == |b - a| + |a|;
  }

  // ---- termination ----

  /** The steps a task still has to take. */
  function Work(x: Task): int {
    var n, h := |x.ordered|, |x.held|;
    match x.phase
    case Ready => 2 * (n - h) + n + 3
    case Waiting(_) => 2 * (n - h) + n + 2
    case Running => h + 2
    case Releasing => h + 1
  }

  ghost function Total(tasks: map<nat, Task>): int {
    if tasks == map[] then 0
    else
      var t :| t in tasks;
      Work(tasks[t]) + Total(tasks - {t})
  }

  lemma {:induction false} TotalWithout(tasks: map<nat, Task>, t: nat)
    requires t in tasks
    ensures Total(tasks) == Work(tasks[t]) + Total(tasks - {t})
    decreases |tasks|
  {
    var v :| v in tasks && Total(tasks) == Work(tasks[v]) + Total(tasks - {v});
    if v != t {
      TotalWithout(tasks - {v}, t);
      TotalWithout(tasks - {t}, v);
      assert tasks - {v} - {t} == tasks - {t} - {v};
    }
  }

  lemma {:induction false} TotalIsCounted(tasks: map<nat, Task>)
    requires forall t | t in tasks :: |tasks[t].held| <= |tasks[t].ordered|
    ensures Total(tasks) >= |tasks|
    decreases |tasks|
  {
    if tasks == map[] {
      assert |tasks| == 0;
    } else {
      var t :| t in tasks && Total(tasks) == Work(tasks[t]) + Total(tasks - {t});
      TotalIsCounted(tasks - {t});
      assert tasks == (tasks - {t})[t := tasks[t]];
      assert |tasks| == |tasks - {t}| + 1;
      assert Work(tasks[t]) >= 1;
    }
  }

  lemma StepTask(w: World, s: Step)
    requires Tasks(w) && Defined(w) && Enabled(w, s) && !s.Begin?
    ensures var u, t := Apply(w, s).tasks, s.t;
            t in w.tasks
            && if s.End? then u == w.tasks - {t} && Work(w.tasks[t]) == 1
               else t in u && u == w.tasks[t := u[t]] && Work(u[t]) == Work(w.tasks[t]) - 1
  {
  }

  /** Every step of a task uses up one unit of work. */
  lemma StepWorks(w: World, s: Step)
    requires Tasks(w) && Defined(w) && Enabled(w, s) && !s.Begin?
    ensures Total(Apply(w, s).tasks) == Total(w.tasks) - 1
  {
    var u := Apply(w, s).tasks;
    StepTask(w, s);
    TotalWithout(w.tasks, s.t);
    if !s.End? {
      TotalWithout(u, s.t);
      assert u - {s.t} == w.tasks - {s.t};
    }
  }

  /** A run in which every step does something and nobody new arrives. */
  predicate Busily(w: World, steps: seq<Step>)
    decreases |steps|
  {
    steps == [] || (Busily(w, steps[..|steps| - 1]) && !steps[|steps| - 1].Begin?
                    && Defined(Run(w, steps[..|steps| - 1])) && Enabled(Run(w, steps[..|steps| - 1]), steps[|steps| - 1]))
  }

  lemma {:induction false} WorkIsUsedUp(w: World, steps: seq<Step>)
    requires Inv(w) && Busily(w, steps)
    ensures Total(Run(w, steps).tasks) == Total(w.tasks) - |steps|
    decreases |steps|
  {
    if steps != [] {
      var front := steps[..|steps| - 1];
      WorkIsUsedUp(w, front);
      Always(w, front);
      StepWorks(Run(w, front), steps[|steps| - 1]);
    }
  }

  /**
   * Every schedule finishes: from any reachable state, however the scheduler
   * chooses, the remaining tasks take exactly their total work in steps, can
   * never get stuck before that, and leave the lock map empty.
   */
  lemma EverybodyFinishes(w: World, steps: seq<Step>)
    requires Inv(w) && Busily(w, steps)
    ensures |steps| <= Total(w.tasks)
    ensures |steps| < Total(w.tasks) ==> exists s :: Enabled(Run(w, steps), s) && !s.Begin?
    ensures |steps| == Total(w.tasks) ==> Run(w, steps).tasks == map[] && Run(w, steps).locks == map[]
  {
    var u := Run(w, steps);
    WorkIsUsedUp(w, steps);
    Always(w, steps);
    InvIsDefined(u);
    TotalIsCounted(u.tasks);
    if u.tasks == map[] {
      forall k ensures k !in u.locks {
        ReferencesCount(u, k);
      }
    } else {
      var t :| t in u.tasks;
      var s := SomeStep(u, t);
    }
  }
}
