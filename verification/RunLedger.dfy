/**
 * The process-wide ledger in front of the automation engine: each run's start
 * and settlement is reported once, as far as a bounded memory can tell. (The
 * engine itself ignores a settlement of a finished run.)
 */
module RunLedger {
  const KEPT := 5_000

  /** An insertion-ordered set as the list of its entries, oldest first. */
  function Remember(entries: seq<string>, key: string): seq<string> {
    var more := entries + [key];
    if |more| > KEPT then more[1..] else more
  }

  function Without(entries: seq<string>, key: string): seq<string> {
    if entries == [] then [] else (if entries[0] == key then [] else [entries[0]]) + Without(entries[1..], key)
  }

  /** The settlement reports that reach the engine when `calls` settle these runs in turn. */
  function Reports(calls: seq<string>): seq<string> {
    if calls == [] then []
    else
      var before := Reports(calls[..|calls| - 1]);
      if calls[|calls| - 1] in Settled(calls[..|calls| - 1]) then before else before + [calls[|calls| - 1]]
  }

  /** The runs remembered as settled. */
  function Settled(calls: seq<string>): seq<string> {
    if calls == [] then []
    else
      var before := Settled(calls[..|calls| - 1]);
      if calls[|calls| - 1] in before then before else Remember(before, calls[|calls| - 1])
  }

  function Latest(reports: seq<string>): seq<string> {
    if |reports| <= KEPT then reports else reports[|reports| - KEPT..]
  }

  /** The memory holds exactly the latest reports. */
  lemma {:induction false} MemoryIsLatest(calls: seq<string>)
    ensures Settled(calls) == Latest(Reports(calls))
  {
    if calls != [] {
      MemoryIsLatest(calls[..|calls| - 1]);
    }
  }

  lemma RecentIsRemembered(reports: seq<string>, i: nat)
    requires |reports| - KEPT <= i < |reports|
    ensures reports[i] in Latest(reports)
  {
  }

  /** Between two settlement reports of the same run lie at least as many other reports as the ledger remembers. */
  lemma {:induction false} RepeatedReportsAreFarApart(calls: seq<string>, i: nat, j: nat)
    requires i < j < |Reports(calls)| && Reports(calls)[i] == Reports(calls)[j]
    ensures j - i > KEPT
  {
    var front := calls[..|calls| - 1];
    var before := Reports(front);
    if j < |before| {
      RepeatedReportsAreFarApart(front, i, j);
    } else {
      MemoryIsLatest(front);
      if i >= |before| - KEPT {
        RecentIsRemembered(before, i);
        assert false;
      }
    }
  }

  class Ledger {
    var started: seq<string>
    var settled: seq<string>
    /** What was asked for and what was passed on to the engine. */
    ghost var calls: seq<string>
    ghost var reports: seq<string>

    ghost predicate Valid()
      reads this
    {
      settled == Settled(calls) && reports == Reports(calls)
    }

    constructor ()
      ensures Valid() && calls == [] && started == []
    {
      started, settled, calls, reports := [], [], [], [];
    }

    /** Answers whether the start is reported. */
    method NoteStarted(run: string) returns (report: bool)
      requires Valid()
      modifies `started
      ensures Valid() && (report <==> run !in old(started) && run !in settled)
      ensures started == if report then Remember(old(started), run) else old(started)
    {
      if run in started || run in settled { return false; }
      started := started + [run];
      if |started| > KEPT {
        started := started[1..];
      }
      return true;
    }

    /** Answers whether the settlement is reported. */
    method Settle(run: string) returns (report: bool)
      requires Valid()
      modifies this
      ensures Valid() && calls == old(calls) + [run] && (report <==> run !in old(settled))
      ensures reports == if report then old(reports) + [run] else old(reports)
      ensures report ==> started == Without(old(started), run)
    {
      calls := calls + [run];
      assert calls[..|calls| - 1] == old(calls);
      if run in settled { return false; }
      settled := settled + [run];
      if |settled| > KEPT {
        settled := settled[1..];
      }
      started := Forget(started, run);
      reports := reports + [run];
      return true;
    }

    method Forget(entries: seq<string>, key: string) returns (rest: seq<string>)
      ensures rest == Without(entries, key)
    {
      rest := [];
      for i := 0 to |entries|
        invariant rest + Without(entries[i..], key) == Without(entries, key)
      {
        if entries[i] != key {
          rest := rest + [entries[i]];
        }
        assert entries[i..][1..] == entries[i + 1..];
      }
    }
  }
}
