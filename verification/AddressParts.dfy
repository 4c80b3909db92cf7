/**
 * What parsing an address reads: the parts somebody wrote, whatever stands
 * between them, and which addresses belong to the same conversation.
 */
module AddressParts {
  import opened Options
  import opened ChannelAddress

  // ---- which fragment is read ----

  predicate Tagged(fragments: seq<string>, tag: string, i: int) {
    0 <= i < |fragments| && tag <= fragments[i]
  }

  /** `raw` stands behind the first fragment with the tag; without such a fragment there is none. */
  ghost predicate ReadBehind(fragments: seq<string>, tag: string, raw: Option<string>) {
    if raw.Some? then
      exists i :: Tagged(fragments, tag, i) && fragments[i] == tag + raw.value && forall j | 0 <= j < i :: !Tagged(fragments, tag, j)
    else forall i :: !Tagged(fragments, tag, i)
  }

  lemma {:induction false} FirstIsRead(fragments: seq<string>, tag: string)
    ensures ReadBehind(fragments, tag, FirstWith(fragments, tag))
  {
    if fragments != [] {
      if tag <= fragments[0] {
        assert Tagged(fragments, tag, 0) && fragments[0] == tag + fragments[0][|tag|..];
      } else {
        FirstIsRead(fragments[1..], tag);
        forall i | Tagged(fragments, tag, i) ensures i > 0 && Tagged(fragments[1..], tag, i - 1) {
        }
        if FirstWith(fragments, tag).Some? {
          var i :| Tagged(fragments[1..], tag, i) && fragments[1..][i] == tag + FirstWith(fragments, tag).value
                   && forall j | 0 <= j < i :: !Tagged(fragments[1..], tag, j);
          assert Tagged(fragments, tag, i + 1);
        }
      }
    }
  }

  /** The part is decoded from what stands behind the first fragment with the tag. */
  ghost predicate PartRead(c: Codec, fragments: seq<string>, tag: string, part: Option<string>) {
    (part == None && ReadBehind(fragments, tag, None))
    || exists raw :: ReadBehind(fragments, tag, Some(raw)) && part == Some(c.dec(raw))
  }

  lemma DecodedIsRead(c: Codec, fragments: seq<string>, tag: string)
    ensures PartRead(c, fragments, tag, Decoded(c, FirstWith(fragments, tag)))
  {
    FirstIsRead(fragments, tag);
  }

  /** Parsing reads each part from the first fragment with its tag; an address without an account fragment is a legacy one. */
  lemma PartsAreRead(c: Codec, jid: string)
    requires Parse(c, jid).Some?
    ensures var a := Parse(c, jid).value;
            PartRead(c, a.fragments, "account:", a.account) && PartRead(c, a.fragments, "thread:", a.thread)
            && PartRead(c, a.fragments, "root:", a.root) && (a.legacy <==> a.account == None)
  {
    var fragments := Parse(c, jid).value.fragments;
    DecodedIsRead(c, fragments, ACCOUNT);
    DecodedIsRead(c, fragments, THREAD);
    DecodedIsRead(c, fragments, ROOT);
  }

  // ---- what is written is read ----

  function Fragment(c: Codec, tag: string, part: Option<string>): seq<string> {
    if part.Some? then [tag + c.enc(part.value)] else []
  }

  function Fragments(c: Codec, account: Option<string>, thread: Option<string>, root: Option<string>): seq<string> {
    Fragment(c, ACCOUNT, account) + Fragment(c, THREAD, thread) + Fragment(c, ROOT, root)
  }

  lemma TagsDiffer(v: string)
    ensures !(ACCOUNT <= THREAD + v) && !(ACCOUNT <= ROOT + v) && !(THREAD <= ACCOUNT + v) && !(THREAD <= ROOT + v)
    ensures !(ROOT <= ACCOUNT + v) && !(ROOT <= THREAD + v)
    ensures ACCOUNT <= ACCOUNT + v && THREAD <= THREAD + v && ROOT <= ROOT + v
    ensures (ACCOUNT + v)[|ACCOUNT|..] == v && (THREAD + v)[|THREAD|..] == v && (ROOT + v)[|ROOT|..] == v
  {
    assert (ACCOUNT + v)[0] == 'a' && (THREAD + v)[0] == 't' && (ROOT + v)[0] == 'r';
  }

  lemma FirstOfTwo(a: seq<string>, b: seq<string>, tag: string)
    requires |a| <= 1
    ensures FirstWith(a + b, tag) == if FirstWith(a, tag).Some? then FirstWith(a, tag) else FirstWith(b, tag)
  {
    if a == [] {
      assert a + b == b;
    } else {
      assert (a + b)[1..] == b && (a + b)[0] == a[0];
    }
  }

  lemma FragmentIsFound(c: Codec, tag: string, other: string, part: Option<string>)
    requires tag in {ACCOUNT, THREAD, ROOT} && other in {ACCOUNT, THREAD, ROOT}
    ensures FirstWith(Fragment(c, tag, part), other) == if tag == other && part.Some? then Some(c.enc(part.value)) else None
  {
    if part.Some? {
      TagsDiffer(c.enc(part.value));
    }
  }

  lemma FragmentsAreFound(c: Codec, account: Option<string>, thread: Option<string>, root: Option<string>, tag: string)
    requires tag in {ACCOUNT, THREAD, ROOT}
    ensures var part := if tag == ACCOUNT then account else if tag == THREAD then thread else root;
            FirstWith(Fragments(c, account, thread, root), tag) == if part.Some? then Some(c.enc(part.value)) else None
  {
    var a, t, r := Fragment(c, ACCOUNT, account), Fragment(c, THREAD, thread), Fragment(c, ROOT, root);
    assert a + t + r == a + (t + r);
    FirstOfTwo(a, t + r, tag);
    FirstOfTwo(t, r, tag);
    FragmentIsFound(c, ACCOUNT, tag, account);
    FragmentIsFound(c, THREAD, tag, thread);
    FragmentIsFound(c, ROOT, tag, root);
  }

  /** An address written from its parts is read back part by part, whatever the parts contain. */
  lemma WrittenPartsAreRead(c: Codec, provider: string, chat: string, account: Option<string>, thread: Option<string>, root: Option<string>)
    requires Good(c) && Known(provider) && '#' !in chat
    ensures var fragments := Fragments(c, account, thread, root);
            Parse(c, Print(provider, chat, fragments)) == Some(Address(provider, chat, account, thread, root, fragments, account == None))
  {
    var fragments := Fragments(c, account, thread, root);
    FragmentsAreFound(c, account, thread, root, ACCOUNT);
    FragmentsAreFound(c, account, thread, root, THREAD);
    FragmentsAreFound(c, account, thread, root, ROOT);
    assert Clean(fragments) by {
      forall f | f in fragments ensures '#' !in f {
        if account.Some? && f == ACCOUNT + c.enc(account.value) {
          assert '#' !in c.enc(account.value);
        } else if thread.Some? && f == THREAD + c.enc(thread.value) {
          assert '#' !in c.enc(thread.value);
        } else {
          assert '#' !in c.enc(root.value);
        }
      }
    }
    ParsePrint(c, provider, chat, fragments);
  }

  // ---- conversations ----

  /** The account a conversation is kept under; an empty one counts as none. */
  function ConversationAccount(a: Address): Option<string> {
    if a.account == Some("") then None else a.account
  }

  /** The conversation of an address keeps provider, chat and account, and drops thread, root and every other fragment. */
  lemma ConversationKeeps(c: Codec, jid: string)
    requires Good(c) && Parse(c, jid).Some?
    ensures var a := Parse(c, jid).value; var account := ConversationAccount(a);
            Parse(c, Conversation(c, jid)) == Some(Address(a.provider, a.chat, account, None, None, Fragments(c, account, None, None), account == None))
  {
    var a := Parse(c, jid).value;
    PrintParse(c, jid);
    WrittenPartsAreRead(c, a.provider, a.chat, ConversationAccount(a), None, None);
    var fragments := Fragments(c, ConversationAccount(a), None, None);
    assert fragments == Fragment(c, ACCOUNT, ConversationAccount(a));
  }

  /** Two addresses belong to the same conversation exactly when provider, chat and account agree. */
  lemma SameConversationExactly(c: Codec, x: string, y: string)
    requires Good(c) && Parse(c, x).Some? && Parse(c, y).Some?
    ensures var a, b := Parse(c, x).value, Parse(c, y).value;
            Conversation(c, x) == Conversation(c, y) <==>
            a.provider == b.provider && a.chat == b.chat && ConversationAccount(a) == ConversationAccount(b)
  {
    ConversationKeeps(c, x);
    ConversationKeeps(c, y);
  }

  /** An address of no known provider is cut at its first separator. */
  lemma UnknownIsCut(c: Codec, jid: string)
    requires Parse(c, jid) == None
    ensures var head := Conversation(c, jid);
            head <= jid && '#' !in head && (head == jid || jid[|head|] == '#')
  {
    HeadIsFirstPart(jid);
  }

  lemma {:induction false} HeadIsFirstPart(s: string)
    ensures var head := Split(s)[0]; head <= s && '#' !in head && (head == s || s[|head|] == '#')
  {
    if s != "" && s[0] != '#' {
      HeadIsFirstPart(s[1..]);
    }
  }
}
