/**
 * Channel addresses: `provider:chat#fragment#fragment…`, where a fragment may
 * carry the account, the thread or the root message. Parsing splits, printing
 * joins; the functions below are compositions of the two.
 */
module ChannelAddress {
  import opened Options

  const PROVIDERS := ["feishu", "telegram", "qq", "wechat", "wecom", "dingtalk", "discord", "whatsapp"]

  /** `encodeURIComponent` and `decodeFragment`. */
  datatype Codec = Codec(enc: string -> string, dec: string -> string)

  /** What the addresses need of the encoding: it can be undone and hides the separator. */
  ghost predicate Good(c: Codec) {
    forall v :: c.dec(c.enc(v)) == v && '#' !in c.enc(v)
  }

  datatype Address = Address(
    provider: string, chat: string, account: Option<string>, thread: Option<string>, root: Option<string>,
    fragments: seq<string>, legacy: bool)

  // ---- splitting and joining ----

  /** `split('#')`. */
  function Split(s: string): (parts: seq<string>)
    ensures |parts| >= 1
  {
    if s == "" then [""]
    else if s[0] == '#' then [""] + Split(s[1..])
    else
      var rest := Split(s[1..]);
      [[s[0]] + rest[0]] + rest[1..]
  }

  /** `join('#')`. */
  function Join(parts: seq<string>): string {
    if parts == [] then "" else if |parts| == 1 then parts[0] else parts[0] + "#" + Join(parts[1..])
  }

  predicate Clean(parts: seq<string>) {
    forall p | p in parts :: '#' !in p
  }

  lemma {:induction false} SplitIsClean(s: string)
    ensures Clean(Split(s))
  {
    if s != "" {
      SplitIsClean(s[1..]);
    }
  }

  /** Joining undoes splitting. */
  lemma {:induction false} JoinSplit(s: string)
    ensures Join(Split(s)) == s
  {
    if s != "" {
      JoinSplit(s[1..]);
      var rest := Split(s[1..]);
      if s[0] == '#' {
        assert ([""] + rest)[1..] == rest;
      } else {
        assert ([[s[0]] + rest[0]] + rest[1..])[1..] == rest[1..];
      }
    }
  }

  lemma {:induction false} SplitPart(p: string, s: string)
    requires '#' !in p && (s == "" || s[0] == '#')
    ensures Split(p + s) == [p] + Split(s)[1..]
  {
    if p == "" {
      assert p + s == s;
    } else {
      assert (p + s)[1..] == p[1..] + s;
      SplitPart(p[1..], s);
      assert [p[0]] + p[1..] == p;
    }
  }

  /** A part, a separator and a rest split into the part and the parts of the rest. */
  lemma SplitBehindPart(p: string, rest: string)
    requires '#' !in p
    ensures Split(p + ("#" + rest)) == [p] + Split(rest)
  {
    SplitPart(p, "#" + rest);
    assert ("#" + rest)[1..] == rest;
    assert ([""] + Split(rest))[1..] == Split(rest);
  }

  lemma JoinMore(parts: seq<string>)
    requires |parts| > 1
    ensures Join(parts) == parts[0] + ("#" + Join(parts[1..]))
  {
    assert parts[0] + "#" + Join(parts[1..]) == parts[0] + ("#" + Join(parts[1..]));
  }

  /** Splitting undoes joining of parts without a separator. */
  lemma {:induction false} SplitJoin(parts: seq<string>)
    requires parts != [] && Clean(parts)
    ensures Split(Join(parts)) == parts
  {
    if |parts| == 1 {
      SplitPart(parts[0], "");
      assert parts[0] + "" == parts[0];
    } else {
      SplitJoin(parts[1..]);
      JoinMore(parts);
      SplitBehindPart(parts[0], Join(parts[1..]));
    }
  }

  // ---- providers ----

  function Prefix(provider: string): string {
    provider + ":"
  }

  function FindProvider(jid: string, from: nat): Option<string>
    requires from <= |PROVIDERS|
    decreases |PROVIDERS| - from
  {
    if from == |PROVIDERS| then None
    else if Prefix(PROVIDERS[from]) <= jid then Some(PROVIDERS[from])
    else FindProvider(jid, from + 1)
  }

  predicate Known(provider: string) {
    provider in PROVIDERS
  }

  lemma NamesAreClean(provider: string)
    requires Known(provider)
    ensures ':' !in provider && '#' !in provider
  {
  }

  lemma ColonInside(p: string, q: string, jid: string)
    requires Prefix(p) <= jid && Prefix(q) <= jid && |p| < |q|
    ensures ':' in q
  {
    assert Prefix(p)[|p|] == jid[|p|] == Prefix(q)[|p|] == q[|p|];
  }

  /** No two provider prefixes fit the same address. */
  lemma OnePrefix(p: string, q: string, jid: string)
    requires ':' !in p && ':' !in q && Prefix(p) <= jid && Prefix(q) <= jid
    ensures p == q
  {
    if |p| < |q| {
      ColonInside(p, q, jid);
      assert false;
    }
    if |q| < |p| {
      ColonInside(q, p, jid);
      assert false;
    }
    assert p == jid[..|p|] && q == jid[..|q|];
  }

  lemma {:induction false} FindFrom(jid: string, provider: string, from: nat)
    requires from <= |PROVIDERS| && provider in PROVIDERS[from..] && Prefix(provider) <= jid
    ensures FindProvider(jid, from) == Some(provider)
    decreases |PROVIDERS| - from
  {
    if Prefix(PROVIDERS[from]) <= jid {
      NamesAreClean(provider);
      NamesAreClean(PROVIDERS[from]);
      OnePrefix(provider, PROVIDERS[from], jid);
    } else {
      FindFrom(jid, provider, from + 1);
    }
  }

  lemma {:induction false} FoundIsKnown(jid: string, from: nat)
    requires from <= |PROVIDERS| && FindProvider(jid, from).Some?
    ensures Known(FindProvider(jid, from).value) && Prefix(FindProvider(jid, from).value) <= jid
    decreases |PROVIDERS| - from
  {
    if !(Prefix(PROVIDERS[from]) <= jid) {
      FoundIsKnown(jid, from + 1);
    }
  }

  // ---- parsing ----

  function FirstWith(fragments: seq<string>, tag: string): Option<string> {
    if fragments == [] then None
    else if tag <= fragments[0] then Some(fragments[0][|tag|..])
    else FirstWith(fragments[1..], tag)
  }

  function Decoded(c: Codec, raw: Option<string>): Option<string> {
    if raw.Some? then Some(c.dec(raw.value)) else None
  }

  const ACCOUNT := "account:"
  const THREAD := "thread:"
  const ROOT := "root:"

  function AddressOf(c: Codec, provider: string, chat: string, fragments: seq<string>): Address {
    Address(provider, chat, Decoded(c, FirstWith(fragments, ACCOUNT)), Decoded(c, FirstWith(fragments, THREAD)),
            Decoded(c, FirstWith(fragments, ROOT)), fragments, FirstWith(fragments, ACCOUNT) == None)
  }

  /** `parseChannelAddress`. */
  function Parse(c: Codec, jid: string): Option<Address> {
    var found := FindProvider(jid, 0);
    if found == None then None
    else
      FoundIsKnown(jid, 0);
      var parts := Split(jid[|Prefix(found.value)|..]);
      Some(AddressOf(c, found.value, parts[0], parts[1..]))
  }

  function Print(provider: string, chat: string, fragments: seq<string>): string {
    Prefix(provider) + chat + if fragments != [] then "#" + Join(fragments) else ""
  }

  function WithoutAccount(fragments: seq<string>): seq<string> {
    if fragments == [] then []
    else (if ACCOUNT <= fragments[0] then [] else [fragments[0]]) + WithoutAccount(fragments[1..])
  }

  /** `scopeChannelJid`. */
  function Scope(c: Codec, jid: string, account: string): string {
    if account == "" then jid
    else
      match Parse(c, jid)
      case None => jid
      case Some(a) => Print(a.provider, a.chat, [ACCOUNT + c.enc(account)] + WithoutAccount(a.fragments))
  }

  /** `toProviderJid`. */
  function ToProvider(c: Codec, jid: string): string {
    match Parse(c, jid)
    case None => jid
    case Some(a) => Print(a.provider, a.chat, WithoutAccount(a.fragments))
  }

  /** `channelConversationJid`; an empty account counts as none. */
  function Conversation(c: Codec, jid: string): string {
    match Parse(c, jid)
    case None => Split(jid)[0]
    case Some(a) =>
      if a.account.Some? && a.account.value != "" then Print(a.provider, a.chat, [ACCOUNT + c.enc(a.account.value)])
      else Print(a.provider, a.chat, [])
  }

  // ---- parsing what was printed ----

  lemma PrintIsJoin(provider: string, chat: string, fragments: seq<string>)
    ensures Print(provider, chat, fragments) == Prefix(provider) + Join([chat] + fragments)
  {
  }

  /** Parsing undoes printing. */
  lemma ParsePrint(c: Codec, provider: string, chat: string, fragments: seq<string>)
    requires Known(provider) && '#' !in chat && Clean(fragments)
    ensures Parse(c, Print(provider, chat, fragments)) == Some(AddressOf(c, provider, chat, fragments))
  {
    var jid := Print(provider, chat, fragments);
    PrintIsJoin(provider, chat, fragments);
    assert PROVIDERS[0..] == PROVIDERS;
    FindFrom(jid, provider, 0);
    assert jid[|Prefix(provider)|..] == Join([chat] + fragments);
    SplitJoin([chat] + fragments);
    assert ([chat] + fragments)[1..] == fragments;
  }

  /** Printing undoes parsing. */
  lemma PrintParse(c: Codec, jid: string)
    requires Parse(c, jid).Some?
    ensures var a := Parse(c, jid).value;
            Known(a.provider) && '#' !in a.chat && Clean(a.fragments) && a == AddressOf(c, a.provider, a.chat, a.fragments)
            && Print(a.provider, a.chat, a.fragments) == jid
  {
    FoundIsKnown(jid, 0);
    var provider := FindProvider(jid, 0).value;
    var rest := jid[|Prefix(provider)|..];
    var parts := Split(rest);
    SplitIsClean(rest);
    JoinSplit(rest);
    PrintIsJoin(provider, parts[0], parts[1..]);
    assert [parts[0]] + parts[1..] == parts;
    assert Prefix(provider) + rest == jid;
  }

  lemma {:induction false} WithoutAccountFacts(fragments: seq<string>)
    ensures var w := WithoutAccount(fragments);
            FirstWith(w, ACCOUNT) == None && WithoutAccount(w) == w
            && FirstWith(w, THREAD) == FirstWith(fragments, THREAD) && FirstWith(w, ROOT) == FirstWith(fragments, ROOT)
            && (Clean(fragments) ==> Clean(w))
  {
    if fragments != [] {
      WithoutAccountFacts(fragments[1..]);
      var w := WithoutAccount(fragments[1..]);
      if ACCOUNT <= fragments[0] {
        assert fragments[0][0] == 'a' && WithoutAccount(fragments) == w;
      } else {
        assert ([fragments[0]] + w)[1..] == w;
      }
    }
  }

  /** Putting an account in front hides nothing but the accounts behind it. */
  lemma AccountInFront(raw: string, fragments: seq<string>)
    ensures var s := [ACCOUNT + raw] + WithoutAccount(fragments);
            FirstWith(s, ACCOUNT) == Some(raw) && WithoutAccount(s) == WithoutAccount(fragments)
            && FirstWith(s, THREAD) == FirstWith(fragments, THREAD) && FirstWith(s, ROOT) == FirstWith(fragments, ROOT)
  {
    var w := WithoutAccount(fragments);
    var s := [ACCOUNT + raw] + w;
    WithoutAccountFacts(fragments);
    assert s[0] == ACCOUNT + raw && s[1..] == w;
    assert s[0][0] == 'a' && s[0][|ACCOUNT|..] == raw;
  }

  // ---- the laws ----

  /** What an address becomes under an account. */
  function Under(c: Codec, a: Address, account: string): Address {
    a.(account := Some(account), legacy := false, fragments := [ACCOUNT + c.enc(account)] + WithoutAccount(a.fragments))
  }

  lemma ScopedAddress(c: Codec, provider: string, chat: string, fragments: seq<string>, account: string)
    requires Good(c)
    ensures AddressOf(c, provider, chat, [ACCOUNT + c.enc(account)] + WithoutAccount(fragments))
            == Under(c, AddressOf(c, provider, chat, fragments), account)
  {
    AccountInFront(c.enc(account), fragments);
  }

  /** A scoped address parses to the given account and otherwise to what the original parsed to. */
  lemma ScopedParses(c: Codec, jid: string, account: string)
    requires Good(c) && account != "" && Parse(c, jid).Some?
    ensures Parse(c, Scope(c, jid, account)) == Some(Under(c, Parse(c, jid).value, account))
  {
    var a := Parse(c, jid).value;
    PrintParse(c, jid);
    WithoutAccountFacts(a.fragments);
    ScopedAddress(c, a.provider, a.chat, a.fragments, account);
    assert '#' !in c.enc(account);
    ParsePrint(c, a.provider, a.chat, [ACCOUNT + c.enc(account)] + WithoutAccount(a.fragments));
  }

  /** Scoping again replaces the account. */
  lemma LastScopeWins(c: Codec, jid: string, first: string, last: string)
    requires Good(c)
    ensures Scope(c, Scope(c, jid, first), last) == if last == "" then Scope(c, jid, first) else Scope(c, jid, last)
  {
    if last != "" && first != "" && Parse(c, jid).Some? {
      ScopedParses(c, jid, first);
      AccountInFront(c.enc(first), Parse(c, jid).value.fragments);
    }
  }

  /** The provider address of a scoped address is that of the original. */
  lemma ProviderForgetsScope(c: Codec, jid: string, account: string)
    requires Good(c)
    ensures ToProvider(c, Scope(c, jid, account)) == ToProvider(c, jid)
  {
    if account != "" && Parse(c, jid).Some? {
      ScopedParses(c, jid, account);
      AccountInFront(c.enc(account), Parse(c, jid).value.fragments);
    }
  }

  /** The provider address has no account and is otherwise the same address. */
  lemma ProviderParses(c: Codec, jid: string)
    requires Parse(c, jid).Some?
    ensures var a := Parse(c, jid).value;
            Parse(c, ToProvider(c, jid)) == Some(a.(account := None, legacy := true, fragments := WithoutAccount(a.fragments)))
  {
    var a := Parse(c, jid).value;
    PrintParse(c, jid);
    WithoutAccountFacts(a.fragments);
    ParsePrint(c, a.provider, a.chat, WithoutAccount(a.fragments));
  }

  /** It forgets exactly the account: two addresses share it just when they differ in nothing but account fragments. */
  lemma ProviderForgetsExactlyTheAccount(c: Codec, x: string, y: string)
    requires Parse(c, x).Some? && Parse(c, y).Some?
    ensures var a, b := Parse(c, x).value, Parse(c, y).value;
            ToProvider(c, x) == ToProvider(c, y) <==>
            a.provider == b.provider && a.chat == b.chat && WithoutAccount(a.fragments) == WithoutAccount(b.fragments)
  {
    ProviderParses(c, x);
    ProviderParses(c, y);
  }

  /** Taking the account off a scoped address and putting it back gives the scoped address. */
  lemma ScopeIsRestored(c: Codec, jid: string, account: string)
    requires Good(c)
    ensures Scope(c, ToProvider(c, Scope(c, jid, account)), account) == Scope(c, jid, account) || account == ""
  {
    if account != "" && Parse(c, jid).Some? {
      ProviderForgetsScope(c, jid, account);
      ProviderParses(c, jid);
      WithoutAccountFacts(Parse(c, jid).value.fragments);
    }
  }

  /** A conversation address is its own conversation address, for every input. */
  lemma ConversationIsIdempotent(c: Codec, jid: string)
    requires Good(c)
    ensures Conversation(c, Conversation(c, jid)) == Conversation(c, jid)
  {
    if Parse(c, jid).Some? {
      var a := Parse(c, jid).value;
      PrintParse(c, jid);
      if a.account.Some? && a.account.value != "" {
        var fragment := ACCOUNT + c.enc(a.account.value);
        assert '#' !in fragment && fragment[|ACCOUNT|..] == c.enc(a.account.value);
        ParsePrint(c, a.provider, a.chat, [fragment]);
      } else {
        ParsePrint(c, a.provider, a.chat, []);
      }
    } else {
      PlainConversation(c, jid);
    }
  }

  /** Cutting an unknown address at its first separator leaves it unknown. */
  lemma PlainConversation(c: Codec, jid: string)
    requires Parse(c, jid) == None
    ensures var head := Split(jid)[0]; Parse(c, head) == None && Split(head)[0] == head
  {
    var head := Split(jid)[0];
    SplitIsClean(jid);
    HeadIsPrefix(jid);
    if FindProvider(head, 0).Some? {
      FoundIsKnown(head, 0);
      assert PROVIDERS[0..] == PROVIDERS;
      FindFrom(jid, FindProvider(head, 0).value, 0);
      assert false;
    }
    SplitJoin([head]);
  }

  lemma {:induction false} HeadIsPrefix(s: string)
    ensures Split(s)[0] <= s
  {
    if s != "" && s[0] != '#' {
      HeadIsPrefix(s[1..]);
    }
  }
}
