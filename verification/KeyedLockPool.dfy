/**
 * The lock pool as objects on the heap: a map from keys to lock entries that
 * are created on demand and dropped with their last reference. An entry's tail
 * promise is its list of gates: a ticket may pass once every earlier gate is
 * released. The methods perform the pool's transitions of the lock machine.
 */
module KeyedLockPool {
  import opened Options
  import opened KeyedLocks
  import Lex

  class Entry {
    const key: string
    ghost const id: nat
    var gates: seq<bool>
    var references: int

    constructor (key: string, ghost id: nat)
      ensures this.key == key && this.id == id && gates == [] && references == 0
    {
      this.key, this.id, gates, references := key, id, [], 0;
    }
  }

  class Pool {
    var locks: map<string, Entry>
    ghost var all: seq<Entry>

    /** Every entry ever made is in `all`, at its own number. */
    ghost predicate Valid()
      reads this, all
    {
      (forall i | 0 <= i < |all| :: all[i].id == i)
      && forall k | k in locks :: locks[k].id < |all| && all[locks[k].id] == locks[k]
    }

    ghost function Locks(): map<string, nat>
      reads this
    {
      map k | k in locks :: locks[k].id
    }

    ghost function StateOf(i: nat): LockState
      requires i < |all|
      reads this, all
    {
      LockState(all[i].key, all[i].gates, all[i].references)
    }

    ghost function States(): (s: seq<LockState>)
      reads this, all
      ensures |s| == |all| && forall i: nat | i < |all| :: s[i] == StateOf(i)
    {
      seq(|all|, i requires 0 <= i < |all| reads this, all => StateOf(i))
    }

    constructor ()
      ensures Valid() && Locks() == map[] && States() == []
    {
      locks, all := map[], [];
    }

    /** The synchronous part of `acquire`; the caller then waits until every earlier gate of the entry is released. */
    method Acquire(key: string) returns (entry: Entry, index: nat)
      requires Valid()
      modifies this, all
      ensures Valid() && |old(all)| <= |all| && all[..|old(all)|] == old(all)
      ensures forall e | e in all && e !in old(all) :: fresh(e)
      ensures entry in all && entry.key == all[entry.id].key
      ensures (Locks(), States(), Ticket(entry.id, index)) == Queue(old(Locks()), old(States()), key)
    {
      if key in locks {
        entry := locks[key];
      } else {
        entry := new Entry(key, |all|);
        locks := locks[key := entry];
        all := all + [entry];
      }
      index := |entry.gates|;
      entry.references := entry.references + 1;
      entry.gates := entry.gates + [false];
      ghost var ss := if key in old(locks) then old(States()) else old(States()) + [LockState(key, [], 0)];
      assert States() == ss[entry.id := LockState(ss[entry.id].key, ss[entry.id].gates + [false], ss[entry.id].references + 1)];
      assert Locks() == if key in old(locks) then old(Locks()) else old(Locks())[key := entry.id];
    }

    /** The release function of a ticket; calling it again does nothing. */
    method Release(entry: Entry, index: nat)
      requires Valid() && entry.id < |all| && all[entry.id] == entry && index < |entry.gates|
      modifies this`locks, entry
      ensures Valid() && all == old(all)
      ensures if old(entry.gates[index]) then Locks() == old(Locks()) && States() == old(States())
              else (Locks(), States()) == Unqueue(old(Locks()), old(States()), entry.key, Ticket(entry.id, index))
    {
      if entry.gates[index] { return; }
      entry.gates := entry.gates[index := true];
      entry.references := entry.references - 1;
      if entry.references == 0 && entry.key in locks && locks[entry.key] == entry {
        locks := locks - {entry.key};
      }
      ghost var s := old(States()[entry.id]);
      ghost var current := entry.key in old(locks) && old(locks)[entry.key] == entry;
      assert current <==> entry.key in old(Locks()) && old(Locks())[entry.key] == entry.id;
      assert Locks() == if s.references == 1 && current then old(Locks()) - {entry.key} else old(Locks());
      assert States() == old(States())[entry.id := s.(gates := s.gates[index := true], references := s.references - 1)];
    }

    /** Granted and not yet released. */
    ghost predicate Owned(entry: Entry, index: nat)
      reads this, entry
    {
      entry.id < |all| && all[entry.id] == entry && index < |entry.gates| && !entry.gates[index]
    }

    /** The first `n` of a caller's tickets, still to be released. */
    ghost predicate Holding(entries: seq<Entry>, indexes: seq<nat>, n: nat)
      requires n <= |entries| == |indexes|
      reads this, entries
    {
      forall i | 0 <= i < n :: Owned(entries[i], indexes[i])
    }

    /** Releasing the first `n` tickets, last first, leads to `goal`. */
    ghost predicate Toward(entries: seq<Entry>, indexes: seq<nat>, n: nat, goal: (map<string, nat>, seq<LockState>))
      requires n <= |entries| == |indexes|
      reads this, all, entries
    {
      Valid() && Holding(entries, indexes, n) && Queues(States(), TicketsOf(entries, indexes)[..n])
      && Unwound(Locks(), States(), KeysOf(entries), TicketsOf(entries, indexes)[..n]) == goal
    }

    /** One turn of the loop below. */
    method ReleaseLast(entries: seq<Entry>, indexes: seq<nat>, n: nat, ghost goal: (map<string, nat>, seq<LockState>))
      requires n < |entries| == |indexes| && Toward(entries, indexes, n + 1, goal)
      requires forall i, j | 0 <= i < j < |entries| :: entries[i] != entries[j]
      modifies this`locks, entries[n]
      ensures all == old(all) && Toward(entries, indexes, n, goal)
    {
      UnwoundStep(Locks(), States(), KeysOf(entries), TicketsOf(entries, indexes), n);
      assert Owned(entries[n], indexes[n]);
      Release(entries[n], indexes[n]);
    }

    /** The `finally` block: release what was acquired, last first. */
    method Unwind(entries: seq<Entry>, indexes: seq<nat>, ghost goal: (map<string, nat>, seq<LockState>))
      requires |entries| == |indexes| && Toward(entries, indexes, |entries|, goal)
      requires forall i, j | 0 <= i < j < |entries| :: entries[i] != entries[j]
      modifies this`locks, entries
      ensures Valid() && all == old(all) && (Locks(), States()) == goal
    {
      var n: nat := |entries|;
      while n > 0
        invariant n <= |entries| && all == old(all) && Toward(entries, indexes, n, goal)
      {
        n := n - 1;
        ReleaseLast(entries, indexes, n, goal);
      }
      assert TicketsOf(entries, indexes)[..0] == [];
    }
  }

  ghost function KeysOf(entries: seq<Entry>): (s: seq<string>)
    ensures |s| == |entries| && forall i | 0 <= i < |s| :: s[i] == entries[i].key
  {
    seq(|entries|, i requires 0 <= i < |entries| => entries[i].key)
  }

  ghost function TicketsOf(entries: seq<Entry>, indexes: seq<nat>): (t: seq<Ticket>)
    requires |entries| == |indexes|
    ensures |t| == |entries| && forall i | 0 <= i < |t| :: t[i] == Ticket(entries[i].id, indexes[i])
  {
    seq(|entries|, i requires 0 <= i < |entries| => Ticket(entries[i].id, indexes[i]))
  }

  // ---- the key order ----

  ghost predicate SameKeys(s: seq<string>, t: seq<string>) {
    forall k :: k in s <==> k in t
  }

  /** Where `k` belongs in an ascending list. */
  method Position(ordered: seq<string>, k: string) returns (i: nat)
    requires Ascending(ordered)
    ensures i <= |ordered|
    ensures forall j | 0 <= j < i :: Lex.Less(ordered[j], k)
    ensures i < |ordered| ==> ordered[i] == k || Lex.Less(k, ordered[i])
  {
    i := 0;
    while i < |ordered| && Lex.Less(ordered[i], k)
      invariant i <= |ordered|
      invariant forall j | 0 <= j < i :: Lex.Less(ordered[j], k)
    {
      i := i + 1;
    }
    if i < |ordered| {
      Lex.Total(ordered[i], k);
    }
  }

  lemma InsertAscends(ordered: seq<string>, i: nat, k: string)
    requires Ascending(ordered) && i <= |ordered|
    requires forall j | 0 <= j < i :: Lex.Less(ordered[j], k)
    requires i < |ordered| ==> Lex.Less(k, ordered[i])
    ensures Ascending(ordered[..i] + [k] + ordered[i..])
  {
    var s := ordered[..i] + [k] + ordered[i..];
    forall a, b | 0 <= a < b < |s| ensures Lex.Less(s[a], s[b]) {
      if a == i && b > i + 1 {
        Lex.Transitive(k, ordered[i], ordered[b - 1]);
      }
    }
  }

  /** `Array.from(new Set(keys)).sort()`: every key once, in order. */
  method Ordered(keys: seq<string>) returns (ordered: seq<string>)
    ensures Ascending(ordered) && SameKeys(ordered, keys)
  {
    ordered := [];
    for n := 0 to |keys|
      invariant Ascending(ordered) && SameKeys(ordered, keys[..n])
    {
      var i := Position(ordered, keys[n]);
      assert keys[..n + 1] == keys[..n] + [keys[n]];
      if i == |ordered| || ordered[i] != keys[n] {
        InsertAscends(ordered, i, keys[n]);
        assert ordered == ordered[..i] + ordered[i..];
        ordered := ordered[..i] + [keys[n]] + ordered[i..];
      } else {
        assert keys[n] in ordered;
      }
    }
    assert keys[..|keys|] == keys;
  }
}
