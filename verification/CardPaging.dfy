/**
 * Keyset paging over the open cards: `listAllNonterminalStreamingCards` reads
 * pages ordered by (updated_at, id), each starting after the last key of the
 * page before.
 */
module CardPaging {
  import Lex
  import Cards = CardTable

  datatype Row = Row(updatedAt: string, id: string, status: Cards.Status)
  datatype Key = Key(updatedAt: string, id: string)

  const ORIGIN := Key("", "")

  function KeyOf(r: Row): Key {
    Key(r.updatedAt, r.id)
  }

  /** `updated_at > ? OR (updated_at = ? AND id > ?)`. */
  predicate After(k: Key, r: Row) {
    Lex.Less(k.updatedAt, r.updatedAt) || (r.updatedAt == k.updatedAt && Lex.Less(k.id, r.id))
  }

  predicate Before(r: Row, s: Row) {
    After(KeyOf(r), s)
  }

  /** The primary key: no two cards share an id. */
  predicate UniqueIds(rows: set<Row>) {
    forall r, s | r in rows && s in rows && r.id == s.id :: r == s
  }

  lemma Order(r: Row, s: Row, t: Row)
    ensures !Before(r, r)
    ensures Before(r, s) && Before(s, t) ==> Before(r, t)
    ensures r.id != s.id ==> Before(r, s) || Before(s, r)
  {
    Lex.Irreflexive(r.updatedAt);
    Lex.Irreflexive(r.id);
    if Before(r, s) && Before(s, t) {
      if r.updatedAt == s.updatedAt && s.updatedAt == t.updatedAt {
        Lex.Transitive(r.id, s.id, t.id);
      } else if r.updatedAt != s.updatedAt && s.updatedAt != t.updatedAt {
        Lex.Transitive(r.updatedAt, s.updatedAt, t.updatedAt);
      }
    }
    Lex.Total(r.updatedAt, s.updatedAt);
    Lex.Total(r.id, s.id);
  }

  predicate First(m: Row, s: set<Row>) {
    m in s && forall x | x in s && x != m :: Before(m, x)
  }

  lemma {:induction false} FirstExists(s: set<Row>)
    requires s != {} && UniqueIds(s)
    ensures exists m :: First(m, s)
    ensures forall m, n | First(m, s) && First(n, s) :: m == n
  {
    var r :| r in s;
    var rest := s - {r};
    if rest == {} {
      assert s == {r};
      assert First(r, s);
    } else {
      FirstExists(rest);
      var m :| First(m, rest);
      Order(r, m, r);
      forall x | x in rest ensures Before(r, m) ==> Before(r, x) {
        Order(r, m, x);
      }
      assert First(if Before(r, m) then r else m, s);
    }
    forall m, n | First(m, s) && First(n, s) ensures m == n {
      Order(m, n, m);
    }
  }

  predicate Ascending(q: seq<Row>) {
    forall i, j | 0 <= i < j < |q| :: Before(q[i], q[j])
  }

  /** `ORDER BY updated_at, id`. */
  function Sorted(s: set<Row>): seq<Row>
    requires UniqueIds(s)
  {
    if s == {} then []
    else
      FirstExists(s);
      var m :| First(m, s);
      [m] + Sorted(s - {m})
  }

  /** The sorted list holds every row once, in key order. */
  lemma {:induction false} SortedFacts(s: set<Row>)
    requires UniqueIds(s)
    ensures |Sorted(s)| == |s| && Ascending(Sorted(s))
    ensures forall r :: r in Sorted(s) <==> r in s
  {
    if s != {} {
      FirstExists(s);
      var m :| First(m, s);
      SortedFacts(s - {m});
      assert Sorted(s) == [m] + Sorted(s - {m});
    }
  }

  function Open(rows: set<Row>): set<Row> {
    set r | r in rows && !Cards.Terminal(r.status)
  }

  function OpenAfter(rows: set<Row>, k: Key): set<Row> {
    set r | r in rows && !Cards.Terminal(r.status) && After(k, r)
  }

  /** One page. */
  function Page(rows: set<Row>, k: Key, limit: nat): seq<Row>
    requires UniqueIds(rows)
  {
    var all := Sorted(OpenAfter(rows, k));
    if |all| <= limit then all else all[..limit]
  }

  lemma NonEmpty(q: seq<Row>)
    ensures q != [] ==> exists r :: r in q
  {
    if q != [] {
      assert q[0] in q;
    }
  }

  /** Two strictly ordered sequences of the same rows are the same sequence. */
  lemma {:induction false} AscendingIsUnique(p: seq<Row>, q: seq<Row>)
    requires Ascending(p) && Ascending(q) && forall r :: r in p <==> r in q
    ensures p == q
  {
    if p == [] || q == [] {
      NonEmpty(p);
      NonEmpty(q);
    } else {
      assert p[0] in q && q[0] in p;
      var i :| 0 <= i < |q| && q[i] == p[0];
      var j :| 0 <= j < |p| && p[j] == q[0];
      Order(p[0], q[0], p[0]);
      assert i == 0;
      forall r ensures r in p[1..] <==> r in q[1..] {
        TailMembers(p, r);
        TailMembers(q, r);
      }
      AscendingIsUnique(p[1..], q[1..]);
    }
  }

  lemma TailMembers(p: seq<Row>, r: Row)
    requires p != [] && Ascending(p)
    ensures r in p[1..] <==> r in p && r != p[0]
  {
    Order(p[0], p[0], p[0]);
    if r in p && r != p[0] {
      var i :| 0 <= i < |p| && p[i] == r;
      assert p[1..][i - 1] == r;
    }
  }

  /** In an ascending sequence the rows after position `n` are those that come after the row before it. */
  lemma RowsAfter(all: seq<Row>, n: nat, r: Row)
    requires Ascending(all) && 0 < n <= |all|
    ensures r in all[n..] <==> r in all && Before(all[n - 1], r)
  {
    if r in all[n..] {
      var j :| n <= j < |all| && all[j] == r;
      assert Before(all[n - 1], all[j]);
    }
    forall i | 0 <= i < n ensures !Before(all[n - 1], all[i]) {
      Order(all[n - 1], all[i], all[n - 1]);
    }
    if r in all && Before(all[n - 1], r) {
      var j :| 0 <= j < |all| && all[j] == r;
      assert all[n..][j - n] == r;
    }
  }

  lemma TailAscending(all: seq<Row>, n: nat)
    requires Ascending(all) && n <= |all|
    ensures Ascending(all[n..])
  {
  }

  /** The rows after the last key of a page are the listing without that page. */
  lemma NextPage(rows: set<Row>, k: Key, n: nat)
    requires UniqueIds(rows) && 0 < n <= |Sorted(OpenAfter(rows, k))|
    ensures var all := Sorted(OpenAfter(rows, k)); Sorted(OpenAfter(rows, KeyOf(all[n - 1]))) == all[n..]
  {
    var all := Sorted(OpenAfter(rows, k));
    var last := all[n - 1];
    var rest := OpenAfter(rows, KeyOf(last));
    SortedFacts(OpenAfter(rows, k));
    SortedFacts(rest);
    assert last in all;
    forall r ensures r in Sorted(rest) <==> r in all[n..] {
      RowsAfter(all, n, r);
      if r in rest {
        AfterIsTransitive(k, last, r);
      }
    }
    TailAscending(all, n);
    AscendingIsUnique(Sorted(rest), all[n..]);
  }

  lemma AfterIsTransitive(k: Key, r: Row, s: Row)
    requires After(k, r) && Before(r, s)
    ensures After(k, s)
  {
    Order(Row(k.updatedAt, k.id, r.status), r, s);
  }

  /** One query: the front of what is left; the last key of a non-empty page leaves the rest. */
  method ReadPage(rows: set<Row>, k: Key, limit: nat, ghost left: seq<Row>) returns (page: seq<Row>)
    requires UniqueIds(rows) && limit > 0 && left == Sorted(OpenAfter(rows, k))
    ensures page == Page(rows, k, limit)
    ensures page <= left && (|page| < limit ==> page == left) && (page == [] ==> left == [])
    ensures page != [] ==> Sorted(OpenAfter(rows, KeyOf(page[|page| - 1]))) == left[|page|..]
  {
    page := Page(rows, k, limit);
    if page != [] {
      NextPage(rows, k, |page|);
    }
  }

  function Limit(pageSize: int): nat {
    if pageSize < 1 then 1 else if pageSize > 10_000 then 10_000 else pageSize
  }

  /** All pages, whatever the page size: every open card after the origin, once, in order. */
  method ListAllOpen(rows: set<Row>, pageSize: int) returns (cards: seq<Row>)
    requires UniqueIds(rows)
    ensures cards == Sorted(OpenAfter(rows, ORIGIN))
  {
    var limit := Limit(pageSize);
    cards := [];
    var after := ORIGIN;
    ghost var all := Sorted(OpenAfter(rows, ORIGIN));
    ghost var left := all;
    while true
      invariant cards + left == all && left == Sorted(OpenAfter(rows, after))
      decreases |left|
    {
      var page := ReadPage(rows, after, limit, left);
      Rejoin(cards, page, left);
      cards := cards + page;
      left := left[|page|..];
      if page == [] { break; }
      after := KeyOf(page[|page| - 1]);
      if |page| < limit { break; }
    }
  }

  lemma Rejoin(cards: seq<Row>, page: seq<Row>, left: seq<Row>)
    requires page <= left
    ensures (cards + page) + left[|page|..] == cards + left
  {
  }

  /** The listing misses an open card exactly when its time and id are both empty. */
  lemma NothingMissed(rows: set<Row>, r: Row)
    requires UniqueIds(rows) && r in Open(rows)
    ensures r in Sorted(OpenAfter(rows, ORIGIN)) <==> KeyOf(r) != ORIGIN
  {
    SortedFacts(OpenAfter(rows, ORIGIN));
    assert After(ORIGIN, r) <==> KeyOf(r) != ORIGIN;
  }

  /** So with non-empty ids the listing is the sorted list of all open cards. */
  lemma ListingIsComplete(rows: set<Row>)
    requires UniqueIds(rows) && forall r | r in rows :: r.id != ""
    ensures Sorted(OpenAfter(rows, ORIGIN)) == Sorted(Open(rows))
  {
    assert OpenAfter(rows, ORIGIN) == Open(rows) by {
      forall r | r in Open(rows) ensures After(ORIGIN, r) {
        assert r in rows;
      }
    }
  }
}
