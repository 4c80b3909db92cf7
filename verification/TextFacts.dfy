/** What trimming and cutting into lines mean. */
module TextFacts {
  import opened Text

  /** White space and line terminators, one by one. */
  const SPACES := "\t\n\U{B}\U{C}\r \U{A0}\U{1680}\U{2000}\U{2001}\U{2002}\U{2003}\U{2004}\U{2005}\U{2006}\U{2007}\U{2008}\U{2009}\U{200A}\U{2028}\U{2029}\U{202F}\U{205F}\U{3000}\U{FEFF}"

  lemma SpacesAreListed(c: char)
    ensures IsSpace(c) <==> c in SPACES
  {
    var n := c as int;
    if IsSpace(c) {
      if n <= 13 {
        assert c == SPACES[n - 9];
      } else if 0x2000 <= n <= 0x200A {
        assert c == SPACES[8 + n - 0x2000];
      }
    }
  }

  predicate AllSpaces(s: string) {
    forall c | c in s :: IsSpace(c)
  }

  /** Nothing to trim at either end. */
  predicate Tight(s: string) {
    s == "" || (!IsSpace(s[0]) && !IsSpace(s[|s| - 1]))
  }

  lemma {:induction false} TrimStartRemoves(s: string) returns (a: string)
    ensures s == a + TrimStart(s) && AllSpaces(a) && (TrimStart(s) == "" || !IsSpace(TrimStart(s)[0]))
  {
    if s != "" && IsSpace(s[0]) {
      var b := TrimStartRemoves(s[1..]);
      a := [s[0]] + b;
      assert s == [s[0]] + s[1..];
      assert a + TrimStart(s) == [s[0]] + (b + TrimStart(s[1..]));
    } else {
      a := "";
    }
  }

  lemma {:induction false} TrimEndRemoves(s: string) returns (b: string)
    ensures s == TrimEnd(s) + b && AllSpaces(b) && (TrimEnd(s) == "" || !IsSpace(TrimEnd(s)[|TrimEnd(s)| - 1]))
  {
    if s != "" && IsSpace(s[|s| - 1]) {
      var c := TrimEndRemoves(s[..|s| - 1]);
      b := c + [s[|s| - 1]];
      assert s == s[..|s| - 1] + [s[|s| - 1]];
      assert TrimEnd(s) + b == (TrimEnd(s[..|s| - 1]) + c) + [s[|s| - 1]];
    } else {
      b := "";
    }
  }

  /** Trimming takes spaces off both ends and leaves none there. */
  lemma TrimRemovesSpaces(s: string)
    ensures exists a, b :: s == a + Trim(s) + b && AllSpaces(a) && AllSpaces(b)
    ensures Tight(Trim(s))
  {
    var t := TrimStart(s);
    var a := TrimStartRemoves(s);
    var b := TrimEndRemoves(t);
    assert s == a + Trim(s) + b;
    if Trim(s) != "" {
      assert Trim(s)[0] == t[0];
    }
  }

  lemma {:induction false} TrimStartSkips(a: string, t: string)
    requires AllSpaces(a)
    ensures TrimStart(a + t) == TrimStart(t)
  {
    if a == "" {
      assert a + t == t;
    } else {
      assert (a + t)[1..] == a[1..] + t && a[0] in a;
      TrimStartSkips(a[1..], t);
    }
  }

  lemma {:induction false} TrimEndSkips(t: string, b: string)
    requires AllSpaces(b)
    ensures TrimEnd(t + b) == TrimEnd(t)
  {
    if b == "" {
      assert t + b == t;
    } else {
      assert (t + b)[..|t + b| - 1] == t + b[..|b| - 1] && b[|b| - 1] in b;
      TrimEndSkips(t, b[..|b| - 1]);
    }
  }

  lemma {:induction false} SpacesTrimToNothing(b: string)
    requires AllSpaces(b)
    ensures TrimStart(b) == ""
  {
    TrimStartSkips(b, "");
    assert b + "" == b;
  }

  /** And that determines it: a text without spaces at its ends is what trimming makes of it between any spaces. */
  lemma TrimIsTheMiddle(a: string, t: string, b: string)
    requires AllSpaces(a) && AllSpaces(b) && Tight(t)
    ensures Trim(a + t + b) == t
  {
    assert a + t + b == a + (t + b);
    TrimStartSkips(a, t + b);
    if t == "" {
      assert t + b == b;
      SpacesTrimToNothing(b);
    } else {
      assert (t + b)[0] == t[0];
      TrimEndSkips(t, b);
    }
  }

  /** Trimming leaves nothing exactly of spaces. */
  lemma BlankExactly(s: string)
    ensures Trim(s) == "" <==> AllSpaces(s)
  {
    if AllSpaces(s) {
      SpacesTrimToNothing(s);
    }
    if Trim(s) == "" {
      TrimRemovesSpaces(s);
    }
  }
}
