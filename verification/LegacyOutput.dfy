/**
 * The text of the answer in a runner's whole output: what stands between the
 * first markers, and without a pair of them the last line.
 */
module LegacyOutput {
  import opened Text
  import opened TextFacts
  import opened OutputParser

  /** The stream up to its first end marker: something, the first start marker, the payload, the end marker. */
  predicate Written(m: Markers, noise: string, payload: string) {
    IndexOf(noise + m.start, m.start) == |noise|
    && IndexOf(noise + m.start + payload + m.end, m.end) == |noise| + |m.start| + |payload|
  }

  lemma MarkersOfWritten(m: Markers, noise: string, payload: string, text: string)
    requires m.start != "" && m.end != "" && Written(m, noise, payload) && noise + m.start + payload + m.end <= text
    ensures IndexOf(text, m.start) == |noise| && IndexOf(text, m.end) == |noise| + |m.start| + |payload|
  {
    var front := noise + m.start + payload + m.end;
    assert noise + m.start <= front <= text;
    FirstStays(noise + m.start, text, m.start);
    FirstStays(front, text, m.end);
  }

  /** What was written between the markers is what is parsed, without the spaces around it and whatever follows. */
  lemma PayloadIsParsed(m: Markers, noise: string, payload: string, text: string)
    requires m.start != "" && m.end != "" && Written(m, noise, payload) && noise + m.start + payload + m.end <= text
    ensures PickJson(m, text) == Trim(payload)
  {
    MarkersOfWritten(m, noise, payload, text);
    var from := |noise| + |m.start|;
    assert noise + m.start + payload + m.end <= text;
    assert text[from..from + |payload|] == (noise + m.start + payload + m.end)[from..from + |payload|] == payload;
  }

  /** However the stream was cut into chunks, a payload that fits into the head is parsed as it was written. */
  lemma WrittenOutputIsParsed(m: Markers, noise: string, payload: string, chunks: seq<string>, limit: nat)
    requires Good(m) && Written(m, noise, payload) && noise + m.start + payload + m.end <= Concat(chunks)
    requires |noise + m.start + payload + m.end| <= limit
    ensures PickJson(m, HeadOf(m, chunks, limit).text) == Trim(payload)
  {
    SameJson(m, chunks, limit);
    assert noise + m.start + payload + m.end <= Front(Concat(chunks), limit);
    PayloadIsParsed(m, noise, payload, Front(Concat(chunks), limit));
  }

  /** A JSON text has no spaces at its ends, so it is parsed as it is. */
  lemma JsonIsParsed(m: Markers, noise: string, a: string, json: string, b: string, chunks: seq<string>, limit: nat)
    requires Good(m) && Written(m, noise, a + json + b) && AllSpaces(a) && AllSpaces(b) && Tight(json)
    requires noise + m.start + (a + json + b) + m.end <= Concat(chunks) && |noise + m.start + (a + json + b) + m.end| <= limit
    ensures PickJson(m, HeadOf(m, chunks, limit).text) == json
  {
    WrittenOutputIsParsed(m, noise, a + json + b, chunks, limit);
    TrimIsTheMiddle(a, json, b);
  }

  lemma {:induction false} LastLineIsLast(s: string) returns (front: string)
    ensures s == front + LastLine(s) && '\n' !in LastLine(s) && (front == "" || front[|front| - 1] == '\n')
  {
    if s == "" || s[|s| - 1] == '\n' {
      front := s;
    } else {
      var init, last := s[..|s| - 1], [s[|s| - 1]];
      front := LastLineIsLast(init);
      assert s == init + last;
      assert front + LastLine(s) == (front + LastLine(init)) + last;
    }
  }

  /** Without an end marker behind a start marker it is the last line of the trimmed output. */
  lemma UnmarkedIsLastLine(m: Markers, text: string)
    requires IndexOf(text, m.start) == -1 || IndexOf(text, m.end) <= IndexOf(text, m.start)
    ensures exists front :: Trim(text) == front + PickJson(m, text) && (front == "" || front[|front| - 1] == '\n')
    ensures '\n' !in PickJson(m, text)
  {
    var front := LastLineIsLast(Trim(text));
    assert Trim(text) == front + PickJson(m, text);
  }

  /** The real markers share their dashes: an end marker that begins inside the start marker leaves nothing to parse. */
  lemma OverlappingMarkersLeaveNothing(m: Markers, text: string)
    requires IndexOf(text, m.start) != -1 && IndexOf(text, m.start) < IndexOf(text, m.end) <= IndexOf(text, m.start) + |m.start|
    ensures PickJson(m, text) == ""
  {
  }
}
