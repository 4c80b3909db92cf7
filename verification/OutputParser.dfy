/**
 * The runner's stdout buffers. The head keeps what a legacy parse needs and
 * finds the markers incrementally, scanning only each new chunk plus a short
 * carry; the tail keeps the end of the stream and trims in large steps. Both
 * are compared with what one would compute from the whole stream.
 */
module OutputParser {
  import opened Text

  datatype Markers = Markers(start: string, end: string)

  const PREFIX := "---HAPPYCLAW_OUTPUT_"
  const REAL := Markers(PREFIX + "START---", PREFIX + "END---")

  // ---- searching ----

  predicate Occurs(s: string, m: string, i: nat) {
    i + |m| <= |s| && s[i..i + |m|] == m
  }

  /** `indexOf`, from position `i` on. */
  function IndexFrom(s: string, m: string, i: nat): (r: int)
    ensures r == -1 || i <= r <= |s| - |m|
    decreases |s| - i
  {
    if i + |m| > |s| then -1 else if s[i..i + |m|] == m then i else IndexFrom(s, m, i + 1)
  }

  function IndexOf(s: string, m: string): (r: int)
    ensures r == -1 || 0 <= r <= |s| - |m|
  {
    IndexFrom(s, m, 0)
  }

  /** The position of the first occurrence, or -1. */
  predicate First(s: string, m: string, r: int) {
    if r == -1 then forall j: nat | j <= |s| :: !Occurs(s, m, j)
    else 0 <= r && Occurs(s, m, r) && forall j: nat | j < r :: !Occurs(s, m, j)
  }

  lemma {:induction false} SearchIsFirst(s: string, m: string, i: nat)
    requires forall j: nat | j < i :: !Occurs(s, m, j)
    ensures First(s, m, IndexFrom(s, m, i))
    decreases |s| - i
  {
    if i + |m| <= |s| && s[i..i + |m|] != m {
      assert !Occurs(s, m, i);
      SearchIsFirst(s, m, i + 1);
    }
  }

  lemma IndexIsFirst(s: string, m: string)
    ensures First(s, m, IndexOf(s, m))
  {
    SearchIsFirst(s, m, 0);
  }

  lemma FirstIsUnique(s: string, m: string, q: int, r: int)
    requires First(s, m, q) && First(s, m, r)
    ensures q == r
  {
  }

  /** The first occurrence in a text is the first occurrence in every longer one. */
  lemma FirstStays(s: string, t: string, m: string)
    requires s <= t && IndexOf(s, m) != -1
    ensures IndexOf(t, m) == IndexOf(s, m)
  {
    var i := IndexOf(s, m);
    IndexIsFirst(s, m);
    IndexIsFirst(t, m);
    assert t[i..i + |m|] == s[i..i + |m|];
    forall j: nat | j < i ensures !Occurs(t, m, j) {
      assert t[j..j + |m|] == s[j..j + |m|];
      assert !Occurs(s, m, j);
    }
    FirstIsUnique(t, m, i, IndexOf(t, m));
  }

  /** An occurrence that fits into the front of a text is found there. */
  lemma FirstInFront(t: string, n: nat, m: string)
    requires n <= |t| && IndexOf(t, m) != -1 && IndexOf(t, m) + |m| <= n
    ensures IndexOf(t[..n], m) == IndexOf(t, m)
  {
    var i := IndexOf(t, m);
    IndexIsFirst(t, m);
    IndexIsFirst(t[..n], m);
    assert t[..n][i..i + |m|] == t[i..i + |m|];
    assert Occurs(t[..n], m, i);
    FirstStays(t[..n], t, m);
  }

  // ---- the head ----

  function Carry(m: Markers): int {
    Max(|m.start|, |m.end|) - 1
  }

  /** What the scan relies on: markers are not empty and the end marker does not stand inside the start marker. */
  predicate Good(m: Markers) {
    m.start != "" && m.end != "" && IndexOf(m.start, m.end) == -1
  }

  lemma DiffersAt(s: string, m: string, i: nat, k: nat)
    requires k < |m| && i + k < |s| && s[i + k] != m[k]
    ensures !Occurs(s, m, i)
  {
  }

  lemma RealMarkersAreGood()
    ensures Good(REAL) && Carry(REAL) == 27
  {
    var s, e := REAL.start, REAL.end;
    assert |PREFIX| == 20 && PREFIX[19] == '_';
    assert |s| == 28 && |e| == 26;
    DiffersAt(s, e, 0, 20);
    DiffersAt(s, e, 1, 19);
    DiffersAt(s, e, 2, 19);
    IndexIsFirst(s, e);
  }

  datatype Head = Head(text: string, carry: string, startIdx: int, endIdx: int, done: bool)

  const EMPTY := Head("", "", -1, -1, false)

  function Natural(n: int): nat {
    if n < 0 then 0 else n
  }

  /** `s.slice(-n)` for positive `n`, the empty string otherwise. */
  function LastChars(s: string, n: int): string {
    if |s| <= n then s else s[|s| - Natural(n)..]
  }

  function Scan(found: int, window: string, windowStart: int, m: string): int {
    if found != -1 then found
    else if IndexOf(window, m) != -1 then windowStart + IndexOf(window, m) else -1
  }

  /** What of a chunk still fits. */
  function Part(text: string, chunk: string, limit: nat): string {
    if |chunk| > limit - |text| then chunk[..Natural(limit - |text|)] else chunk
  }

  function Append(m: Markers, h: Head, chunk: string, limit: nat): Head {
    var part := Part(h.text, chunk, limit);
    var text, window := h.text + part, h.carry + part;
    var windowStart := |h.text| - |h.carry|;
    var startIdx := Scan(h.startIdx, window, windowStart, m.start);
    var endIdx := Scan(h.endIdx, window, windowStart, m.end);
    var paired := startIdx != -1 && endIdx > startIdx;
    Head(if paired then Slice(text, 0, Natural(endIdx + |m.end|)) else text, LastChars(window, Carry(m)), startIdx, endIdx,
         paired || |text| >= limit)
  }

  /** The handler's guard: a head that is done takes no more. */
  function Feed(m: Markers, h: Head, chunk: string, limit: nat): Head {
    if h.done then h else Append(m, h, chunk, limit)
  }

  function Concat(chunks: seq<string>): string {
    if chunks == [] then "" else Concat(chunks[..|chunks| - 1]) + chunks[|chunks| - 1]
  }

  /** The head after a sequence of chunks. */
  function HeadOf(m: Markers, chunks: seq<string>, limit: nat): Head {
    if chunks == [] then EMPTY else Feed(m, HeadOf(m, chunks[..|chunks| - 1], limit), chunks[|chunks| - 1], limit)
  }

  /** The first `limit` characters of a stream. */
  function Front(stream: string, limit: nat): string {
    Slice(stream, 0, limit)
  }

  predicate Paired(h: Head) {
    h.startIdx != -1 && h.endIdx > h.startIdx
  }

  /** How a head relates to the stream it was fed, whatever the chunking. */
  predicate Follows(m: Markers, h: Head, stream: string, limit: nat) {
    h.startIdx == IndexOf(h.text, m.start) && h.endIdx == IndexOf(h.text, m.end)
    && h.text <= Front(stream, limit)
    && if Paired(h) then h.done && h.endIdx + |m.end| == |h.text|
       else h.text == Front(stream, limit) && h.carry == LastChars(h.text, Carry(m))
            && if h.done then |h.text| >= limit else |h.text| < limit || stream == ""
  }

  /** A marker that is not in the old text can only begin where the window begins or later. */
  lemma WindowSearch(text: string, part: string, m: string, from: nat)
    requires IndexOf(text, m) == -1 && from <= |text| && (from == 0 || |text| - from >= |m| - 1)
    ensures var w := IndexOf((text + part)[from..], m); IndexOf(text + part, m) == if w == -1 then -1 else from + w
  {
    var whole := text + part;
    var window := whole[from..];
    var i, w := IndexOf(whole, m), IndexOf(window, m);
    IndexIsFirst(whole, m);
    IndexIsFirst(window, m);
    IndexIsFirst(text, m);
    if i != -1 {
      if i + |m| <= |text| {
        OccursEarly(text, part, m, i);
        assert false;
      }
      assert window[i - from..i - from + |m|] == whole[i..i + |m|];
      assert Occurs(window, m, i - from);
    }
    if w != -1 {
      assert whole[from + w..from + w + |m|] == window[w..w + |m|];
      assert Occurs(whole, m, from + w);
    }
  }

  lemma OccursEarly(text: string, part: string, m: string, i: nat)
    requires Occurs(text + part, m, i) && i + |m| <= |text|
    ensures Occurs(text, m, i)
  {
  }

  /** An occurrence that lies within another one occurs in that marker. */
  lemma OccursInside(s: string, m: string, n: string, i: nat, j: nat)
    requires Occurs(s, m, i) && Occurs(s, n, j) && i <= j && j + |n| <= i + |m|
    ensures Occurs(m, n, j - i)
  {
    forall k | 0 <= k < |n| ensures m[j - i + k] == n[k] {
      assert s[i..i + |m|][j - i + k] == s[j + k] == s[j..j + |n|][k];
    }
    assert m[j - i..j - i + |n|] == n;
  }

  /** Scanning the carry and the new part finds what a search of the whole text finds. */
  lemma ScanIsSearch(text: string, part: string, m: string, carry: string)
    requires |carry| <= |text| && text[|text| - |carry|..] == carry && (|carry| == |text| || |carry| >= |m| - 1)
    ensures Scan(IndexOf(text, m), carry + part, |text| - |carry|, m) == IndexOf(text + part, m)
  {
    var from := |text| - |carry|;
    assert carry + part == (text + part)[from..];
    if IndexOf(text, m) != -1 {
      FirstStays(text, text + part, m);
    } else {
      WindowSearch(text, part, m, from);
    }
  }

  /** An end marker that begins after the start marker also ends after it. */
  lemma MarkersKeepDistance(m: Markers, s: string)
    requires Good(m) && IndexOf(s, m.start) != -1 && IndexOf(s, m.end) > IndexOf(s, m.start)
    ensures IndexOf(s, m.start) + |m.start| <= IndexOf(s, m.end) + |m.end|
  {
    var i, j := IndexOf(s, m.start), IndexOf(s, m.end);
    IndexIsFirst(s, m.start);
    IndexIsFirst(s, m.end);
    IndexIsFirst(m.start, m.end);
    if j + |m.end| < i + |m.start| {
      OccursInside(s, m.start, m.end, i, j);
      assert false;
    }
  }

  lemma CarryMoves(text: string, part: string, n: nat)
    ensures LastChars(LastChars(text, n) + part, n) == LastChars(text + part, n)
  {
    var whole := text + part;
    if |text| > n {
      var from := |text| - n;
      assert text[from..] + part == whole[from..];
      assert whole[from..][|part|..] == whole[from + |part|..];
    }
  }

  lemma FrontGrows(stream: string, chunk: string, limit: nat)
    ensures Front(stream + chunk, limit) == Front(stream, limit) + Part(Front(stream, limit), chunk, limit)
    ensures |Front(stream, limit)| >= limit ==> Front(stream + chunk, limit) == Front(stream, limit)
    ensures |Front(stream, limit)| <= limit
  {
  }

  /** Cutting the text behind the pair keeps both first positions. */
  lemma CutKeepsMarkers(m: Markers, text: string)
    requires Good(m) && IndexOf(text, m.start) != -1 && IndexOf(text, m.end) > IndexOf(text, m.start)
    ensures var cut := Slice(text, 0, IndexOf(text, m.end) + |m.end|);
            cut <= text && |cut| == IndexOf(text, m.end) + |m.end|
            && IndexOf(cut, m.start) == IndexOf(text, m.start) && IndexOf(cut, m.end) == IndexOf(text, m.end)
  {
    MarkersKeepDistance(m, text);
    FirstInFront(text, IndexOf(text, m.end) + |m.end|, m.start);
    FirstInFront(text, IndexOf(text, m.end) + |m.end|, m.end);
  }

  /** The scan positions and the carry after one more chunk, before any cut. */
  lemma AppendScans(m: Markers, h: Head, stream: string, chunk: string, limit: nat)
    requires Good(m) && Follows(m, h, stream, limit) && !Paired(h) && !h.done
    ensures var part := Part(h.text, chunk, limit); var text := h.text + part; var from := |h.text| - |h.carry|;
            text == Front(stream + chunk, limit)
            && Scan(h.startIdx, h.carry + part, from, m.start) == IndexOf(text, m.start)
            && Scan(h.endIdx, h.carry + part, from, m.end) == IndexOf(text, m.end)
            && LastChars(h.carry + part, Carry(m)) == LastChars(text, Carry(m))
  {
    var part := Part(h.text, chunk, limit);
    ScanIsSearch(h.text, part, m.start, h.carry);
    ScanIsSearch(h.text, part, m.end, h.carry);
    CarryMoves(h.text, part, Carry(m));
    FrontGrows(stream, chunk, limit);
  }

  /** The head a search of the whole front would give. */
  function Searched(m: Markers, front: string, limit: nat): Head {
    var i, j := IndexOf(front, m.start), IndexOf(front, m.end);
    Head(if i != -1 && j > i then Slice(front, 0, j + |m.end|) else front, LastChars(front, Carry(m)), i, j,
         (i != -1 && j > i) || |front| >= limit)
  }

  lemma AppendIsSearch(m: Markers, h: Head, stream: string, chunk: string, limit: nat)
    requires Good(m) && Follows(m, h, stream, limit) && !h.done
    ensures Append(m, h, chunk, limit) == Searched(m, Front(stream + chunk, limit), limit)
  {
    AppendScans(m, h, stream, chunk, limit);
  }

  lemma SearchedFollows(m: Markers, stream: string, limit: nat)
    requires Good(m)
    ensures Follows(m, Searched(m, Front(stream, limit), limit), stream, limit)
  {
    var front := Front(stream, limit);
    FrontGrows(stream, "", limit);
    if IndexOf(front, m.start) != -1 && IndexOf(front, m.end) > IndexOf(front, m.start) {
      CutKeepsMarkers(m, front);
    }
  }

  lemma FeedFollows(m: Markers, h: Head, stream: string, chunk: string, limit: nat)
    requires Good(m) && Follows(m, h, stream, limit)
    ensures Follows(m, Feed(m, h, chunk, limit), stream + chunk, limit)
  {
    if h.done {
      FrontGrows(stream, chunk, limit);
      assert Front(stream, limit) <= Front(stream + chunk, limit);
    } else {
      AppendIsSearch(m, h, stream, chunk, limit);
      SearchedFollows(m, stream + chunk, limit);
    }
  }

  /** Whatever the chunking, the marker positions are the first ones in the kept text, and the kept text is a front of the stream. */
  lemma {:induction false} HeadFollowsStream(m: Markers, chunks: seq<string>, limit: nat)
    requires Good(m)
    ensures Follows(m, HeadOf(m, chunks, limit), Concat(chunks), limit)
  {
    if chunks == [] {
      assert HeadOf(m, chunks, limit) == EMPTY;
    } else {
      HeadFollowsStream(m, chunks[..|chunks| - 1], limit);
      FeedFollows(m, HeadOf(m, chunks[..|chunks| - 1], limit), Concat(chunks[..|chunks| - 1]), chunks[|chunks| - 1], limit);
    }
  }

  // ---- the legacy parse ----

  function LastLine(s: string): string {
    if s == "" || s[|s| - 1] == '\n' then "" else LastLine(s[..|s| - 1]) + [s[|s| - 1]]
  }

  /** The text `parseLegacyOutput` hands to the JSON parser. */
  function PickJson(m: Markers, text: string): string {
    var startIdx, endIdx := IndexOf(text, m.start), IndexOf(text, m.end);
    if startIdx != -1 && endIdx != -1 && endIdx > startIdx then Trim(Slice(text, startIdx + |m.start|, endIdx))
    else LastLine(Trim(text))
  }

  lemma SlicesAgree(s: string, t: string, from: nat, to: nat)
    requires s <= t && to <= |s|
    ensures Slice(s, from, to) == Slice(t, from, to)
  {
  }

  lemma PickAgrees(m: Markers, s: string, t: string)
    requires s <= t && IndexOf(s, m.start) != -1 && IndexOf(s, m.end) > IndexOf(s, m.start)
    ensures PickJson(m, s) == PickJson(m, t)
  {
    FirstStays(s, t, m.start);
    FirstStays(s, t, m.end);
    SlicesAgree(s, t, IndexOf(s, m.start) + |m.start|, IndexOf(s, m.end));
  }

  /** The head gives the same JSON text as the first `limit` characters of the whole stream, for every chunking. */
  lemma SameJson(m: Markers, chunks: seq<string>, limit: nat)
    requires Good(m)
    ensures PickJson(m, HeadOf(m, chunks, limit).text) == PickJson(m, Front(Concat(chunks), limit))
  {
    var h := HeadOf(m, chunks, limit);
    HeadFollowsStream(m, chunks, limit);
    if Paired(h) {
      PickAgrees(m, h.text, Front(Concat(chunks), limit));
    }
  }

  // ---- the tail ----

  function AppendTail(buffer: string, chunk: string, limit: nat): string {
    var combined := buffer + chunk;
    if |combined| > 2 * limit then combined[|combined| - limit..] else combined
  }

  /** The buffer after a sequence of chunks. */
  function Tail(chunks: seq<string>, limit: nat): string {
    if chunks == [] then "" else AppendTail(Tail(chunks[..|chunks| - 1], limit), chunks[|chunks| - 1], limit)
  }

  /** The characters all trims together copied. */
  function Recopied(chunks: seq<string>, limit: nat): nat {
    if chunks == [] then 0
    else
      Recopied(chunks[..|chunks| - 1], limit)
      + if |Tail(chunks[..|chunks| - 1], limit)| + |chunks[|chunks| - 1]| > 2 * limit then limit else 0
  }

  predicate IsSuffix(s: string, t: string) {
    |s| <= |t| && t[|t| - |s|..] == s
  }

  lemma TailStep(buffer: string, stream: string, chunk: string, limit: nat)
    requires IsSuffix(buffer, stream) && |buffer| >= Min(limit, |stream|)
    ensures var b := AppendTail(buffer, chunk, limit);
            IsSuffix(b, stream + chunk) && Min(limit, |stream + chunk|) <= |b| <= 2 * limit
            && |b| == if |buffer| + |chunk| > 2 * limit then limit else |buffer| + |chunk|
  {
  }

  /**
   * The buffer is the end of the stream, never shorter than `limit` (or the
   * whole stream) and never longer than twice that; all trims together copied
   * no more characters than were appended.
   */
  lemma {:induction false} TailIsTheEnd(chunks: seq<string>, limit: nat)
    ensures IsSuffix(Tail(chunks, limit), Concat(chunks))
    ensures Min(limit, |Concat(chunks)|) <= |Tail(chunks, limit)| <= 2 * limit
    ensures Recopied(chunks, limit) + |Tail(chunks, limit)| <= |Concat(chunks)|
  {
    if chunks != [] {
      var front := chunks[..|chunks| - 1];
      TailIsTheEnd(front, limit);
      TailStep(Tail(front, limit), Concat(front), chunks[|chunks| - 1], limit);
    }
  }

  // ---- the handler ----

  /** The stdout state of one runner stream. */
  class StdoutState {
    const m: Markers
    const headLimit: nat
    const retainLimit: nat
    var stdout: string
    var total: nat
    var truncated: bool
    var text: string
    var carry: string
    var startIdx: int
    var endIdx: int
    var done: bool
    ghost var stream: string

    function HeadValue(): Head
      reads this
    {
      Head(text, carry, startIdx, endIdx, done)
    }

    /** The head follows the stream seen so far and the tail is its end. */
    ghost predicate Valid()
      reads this
    {
      Good(m) && Follows(m, HeadValue(), stream, headLimit)
      && IsSuffix(stdout, stream) && Min(retainLimit, |stream|) <= |stdout| <= 2 * retainLimit
      && total == |stream| && (truncated <==> total > |stdout|)
    }

    constructor (headLimit: nat, retainLimit: nat)
      ensures Valid() && stream == "" && m == REAL && this.headLimit == headLimit && this.retainLimit == retainLimit
      ensures HeadValue() == EMPTY && stdout == ""
    {
      m, this.headLimit, this.retainLimit := REAL, headLimit, retainLimit;
      stdout, total, truncated := "", 0, false;
      text, carry, startIdx, endIdx, done, stream := "", "", -1, -1, false, "";
      new;
      RealMarkersAreGood();
    }

    method OnData(chunk: string)
      requires Valid()
      modifies this
      ensures Valid() && stream == old(stream) + chunk
      ensures HeadValue() == Feed(m, old(HeadValue()), chunk, headLimit)
      ensures stdout == AppendTail(old(stdout), chunk, retainLimit)
    {
      TailStep(stdout, stream, chunk, retainLimit);
      total := total + |chunk|;
      AppendStdout(chunk);
      FeedHead(chunk);
      if total > |stdout| {
        truncated := true;
      }
      stream := stream + chunk;
    }

    method FeedHead(chunk: string)
      requires Good(m) && Follows(m, HeadValue(), stream, headLimit)
      modifies `text, `carry, `startIdx, `endIdx, `done
      ensures HeadValue() == Feed(m, old(HeadValue()), chunk, headLimit)
      ensures Follows(m, HeadValue(), stream + chunk, headLimit)
    {
      FeedFollows(m, HeadValue(), stream, chunk, headLimit);
      if !done {
        AppendHead(chunk);
      }
    }

    method AppendStdout(chunk: string)
      modifies `stdout
      ensures stdout == AppendTail(old(stdout), chunk, retainLimit)
    {
      var combined := stdout + chunk;
      stdout := if |combined| > 2 * retainLimit then combined[|combined| - retainLimit..] else combined;
    }

    method AppendHead(chunk: string)
      requires |text| <= headLimit && !done
      modifies `text, `carry, `startIdx, `endIdx, `done
      ensures var h := Append(m, old(HeadValue()), chunk, headLimit);
              text == h.text && carry == h.carry && startIdx == h.startIdx && endIdx == h.endIdx && done == h.done
    {
      var part := if |chunk| > headLimit - |text| then chunk[..headLimit - |text|] else chunk;
      var window := carry + part;
      var windowStart := |text| - |carry|;
      text := text + part;
      ScanWindow(window, windowStart);
      carry := LastChars(window, Carry(m));
      if startIdx != -1 && endIdx > startIdx {
        text := Slice(text, 0, Natural(endIdx + |m.end|));
        done := true;
      } else if |text| >= headLimit {
        done := true;
      }
    }

    method ScanWindow(window: string, windowStart: int)
      modifies `startIdx, `endIdx
      ensures startIdx == Scan(old(startIdx), window, windowStart, m.start)
      ensures endIdx == Scan(old(endIdx), window, windowStart, m.end)
    {
      if startIdx == -1 {
        var idx := IndexOf(window, m.start);
        if idx != -1 { startIdx := windowStart + idx; }
      }
      if endIdx == -1 {
        var idx := IndexOf(window, m.end);
        if idx != -1 { endIdx := windowStart + idx; }
      }
    }
  }
}
