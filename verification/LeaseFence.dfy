/**
 * What a lease column pair (owner, token) protects, independent of the table
 * that carries it. A view is the part of a row that decides who may write: the
 * fencing token and the holder, which is absent whenever the row's status is
 * not a leased one.
 */
module LeaseFence {
  import opened Options

  datatype Claim = Claim(owner: string, token: nat)
  datatype View = View(token: nat, holder: Option<string>)

  /** What one statement did to one row: the claim it handed out, if any, and the row after it. */
  datatype Moment = Moment(grant: Option<Claim>, after: View)

  /** The lease test of every fenced `WHERE`, without the expiry comparison (which depends on the caller's clock). */
  predicate CanWrite(v: View, c: Claim) {
    v.holder == Some(c.owner) && v.token == c.token
  }

  /**
   * The discipline every statement has to keep: a grant takes the next token; a
   * statement that grants nothing leaves the lease alone or drops the holder
   * without moving the token back.
   */
  predicate Fenced(before: View, m: Moment) {
    match m.grant
    case Some(c) => c.token == before.token + 1 && m.after == View(c.token, Some(c.owner))
    case None => m.after == before || (before.token <= m.after.token && m.after.holder == None)
  }

  function ViewAt(v0: View, h: seq<Moment>, n: nat): View
    requires n <= |h|
  {
    if n == 0 then v0 else h[n - 1].after
  }

  predicate FencedAt(v0: View, h: seq<Moment>, i: nat)
    requires i < |h|
  {
    Fenced(ViewAt(v0, h, i), h[i])
  }

  predicate History(v0: View, h: seq<Moment>) {
    forall i: nat | i < |h| :: FencedAt(v0, h, i)
  }

  lemma {:induction false} TokensGrow(v0: View, h: seq<Moment>, i: nat, j: nat)
    requires History(v0, h) && i <= j <= |h|
    ensures ViewAt(v0, h, i).token <= ViewAt(v0, h, j).token
    decreases j - i
  {
    if i < j {
      TokensGrow(v0, h, i, j - 1);
      assert FencedAt(v0, h, j - 1);
    }
  }

  /** Two different handings never carry the same token. */
  lemma {:induction false} GrantsAreDistinct(v0: View, h: seq<Moment>, i: nat, j: nat)
    requires History(v0, h) && i < j < |h|
    requires h[i].grant.Some? && h[j].grant.Some?
    ensures h[i].grant.value.token < h[j].grant.value.token
  {
    assert FencedAt(v0, h, i) && FencedAt(v0, h, j);
    TokensGrow(v0, h, i + 1, j);
  }

  /** Of all handings made so far at most one can still write. */
  lemma {:induction false} OneWriter(v0: View, h: seq<Moment>, n: nat, i: nat, j: nat)
    requires History(v0, h) && n <= |h| && i < n && j < n
    requires h[i].grant.Some? && CanWrite(ViewAt(v0, h, n), h[i].grant.value)
    requires h[j].grant.Some? && CanWrite(ViewAt(v0, h, n), h[j].grant.value)
    ensures i == j
  {
    if i < j {
      GrantsAreDistinct(v0, h, i, j);
    } else if j < i {
      GrantsAreDistinct(v0, h, j, i);
    }
  }

  /** A claim that cannot write at some moment after it was handed out can never write again. */
  lemma {:induction false} NeverAgain(v0: View, h: seq<Moment>, i: nat, m: nat, n: nat)
    requires History(v0, h) && i < m <= n <= |h|
    requires h[i].grant.Some? && !CanWrite(ViewAt(v0, h, m), h[i].grant.value)
    ensures !CanWrite(ViewAt(v0, h, n), h[i].grant.value)
    decreases n - m
  {
    if m < n {
      var c := h[i].grant.value;
      var now, next := ViewAt(v0, h, m), ViewAt(v0, h, m + 1);
      assert FencedAt(v0, h, i) && FencedAt(v0, h, m);
      TokensGrow(v0, h, i + 1, m);
      assert !CanWrite(next, c);
      NeverAgain(v0, h, i, m + 1, n);
    }
  }

  /** A later grant ends every earlier one. */
  lemma {:induction false} Superseded(v0: View, h: seq<Moment>, i: nat, j: nat, n: nat)
    requires History(v0, h) && i < j < n <= |h|
    requires h[i].grant.Some? && h[j].grant.Some?
    ensures !CanWrite(ViewAt(v0, h, n), h[i].grant.value)
  {
    GrantsAreDistinct(v0, h, i, j);
    assert FencedAt(v0, h, i) && FencedAt(v0, h, j);
    NeverAgain(v0, h, i, j + 1, n);
  }
}
