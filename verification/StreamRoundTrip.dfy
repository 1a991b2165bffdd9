/** What the gateway's wire format says, written out: data lines with their
    payloads, carriage crs, blank and other lines between them, and the end
    of the stream. Reading such a text gives back the payloads that decode. */
module StreamRoundTrip {
  import opened Wrappers
  import opened Sequences
  import opened ChatStream

  function Returns(n: nat): string {
    if n == 0 then "" else Returns(n - 1) + ['\r']
  }

  /** One payload, the carriage crs behind it, and the other lines after it. */
  datatype Sent = Sent(payload: string, crs: nat, others: seq<string>)

  predicate IsOther(line: string) {
    '\n' !in line && !("data: " <= line)
  }

  predicate CanSend(e: Sent) {
    && '\n' !in e.payload && '\r' !in e.payload && e.payload != "[DONE]"
    && forall i :: 0 <= i < |e.others| ==> IsOther(e.others[i])
  }

  predicate AllCanSend(events: seq<Sent>) {
    forall i :: 0 <= i < |events| ==> CanSend(events[i])
  }

  function Ended(lines: seq<string>): string {
    if lines == [] then "" else lines[0] + "\n" + Ended(lines[1..])
  }

  /** The text of the events, and what follows them. */
  function Wire(events: seq<Sent>, tail: string): string {
    if events == [] then tail
    else
      var e := events[0];
      "data: " + e.payload + Returns(e.crs) + "\n" + (Ended(e.others) + Wire(events[1..], tail))
  }

  /** The end of a stream: the end mark and anything behind it, or an unfinished line. */
  datatype End = Marked(crs: nat, behind: string) | Unfinished(line: string)

  function EndText(end: End): string {
    match end
    case Marked(crs, behind) => "data: [DONE]" + Returns(crs) + "\n" + behind
    case Unfinished(line) => line
  }

  predicate CanEnd(end: End) {
    end.Unfinished? ==> '\n' !in end.line
  }

  /** The payloads that decode, in order. */
  function Decoded(events: seq<Sent>, decode: Decoder): seq<Delta> {
    if events == [] then []
    else (match decode(events[0].payload) case Some(delta) => [delta] case None => []) + Decoded(events[1..], decode)
  }

  // ----- lines ------------------------------------------------------------

  lemma OneReturn(text: string)
    ensures TrimCr(text + ['\r']) == TrimCr(text) && ('\n' in text + ['\r'] <==> '\n' in text)
  {
    var line := text + ['\r'];
    assert line[..|line| - 1] == text;
  }

  lemma {:induction false} ReturnsAreTrimmed(text: string, n: nat)
    requires text == "" || text[|text| - 1] != '\r'
    ensures TrimCr(text + Returns(n)) == text && ('\n' in text + Returns(n) <==> '\n' in text)
    decreases n
  {
    if n == 0 {
      assert text + Returns(0) == text;
    } else {
      ReturnsAreTrimmed(text, n - 1);
      OneReturn(text + Returns(n - 1));
      assert text + Returns(n) == text + Returns(n - 1) + ['\r'];
    }
  }

  lemma {:induction false} TrimIsPrefix(line: string)
    ensures TrimCr(line) <= line
  {
    if line != "" && line[|line| - 1] == '\r' { TrimIsPrefix(line[..|line| - 1]); }
  }

  function DataLine(payload: string, crs: nat): string {
    "data: " + payload + Returns(crs)
  }

  lemma DataLineTrims(payload: string, crs: nat)
    requires '\r' !in payload && '\n' !in payload
    ensures TrimCr(DataLine(payload, crs)) == DATA + payload && '\n' !in DataLine(payload, crs)
  {
    var text := DATA + payload;
    assert payload != "" ==> text[|text| - 1] == payload[|payload| - 1];
    assert '\n' !in DATA;
    ReturnsAreTrimmed(text, crs);
  }

  /** A data line means its payload, decoded, and the end mark the end. */
  lemma ReadsDataLine(payload: string, crs: nat, decode: Decoder)
    requires '\r' !in payload && '\n' !in payload
    ensures Read(DataLine(payload, crs), decode)
         == if payload == "[DONE]" then Done
            else match decode(payload) case Some(delta) => Payload(delta) case None => Ignored
  {
    DataLineTrims(payload, crs);
    assert (DATA + payload)[|DATA|..] == payload;
  }

  lemma PrefixOfPrefix(a: string, b: string, c: string)
    requires b <= c
    ensures a <= b ==> a <= c
  {
  }

  lemma ReadsOther(line: string, decode: Decoder)
    requires IsOther(line)
    ensures Read(line, decode) == Ignored
  {
    TrimIsPrefix(line);
    PrefixOfPrefix(DATA, TrimCr(line), line);
  }

  // ----- a run of lines ---------------------------------------------------

  function LinesOf(events: seq<Sent>): seq<string> {
    if events == [] then []
    else [DataLine(events[0].payload, events[0].crs)] + events[0].others + LinesOf(events[1..])
  }

  lemma {:induction false} EndedIs(lines: seq<string>, rest: string)
    ensures Ended(lines) + rest == Unlines(lines, rest)
    decreases |lines|
  {
    if lines == [] {
      assert Ended(lines) + rest == rest;
    } else {
      EndedIs(lines[1..], rest);
      Regroup(lines[0] + "\n", Ended(lines[1..]), rest);
    }
  }

  lemma {:induction false} UnlinesSplits(a: seq<string>, b: seq<string>, rest: string)
    ensures Unlines(a + b, rest) == Unlines(a, Unlines(b, rest))
    decreases |a|
  {
    if a == [] {
      assert a + b == b;
    } else {
      UnlinesSplits(a[1..], b, rest);
      assert (a + b)[1..] == a[1..] + b;
    }
  }

  lemma {:induction false} WireIs(events: seq<Sent>, tail: string)
    ensures Wire(events, tail) == Unlines(LinesOf(events), tail)
    decreases |events|
  {
    if events != [] {
      var e, more := events[0], LinesOf(events[1..]);
      WireIs(events[1..], tail);
      EndedIs(e.others, Unlines(more, tail));
      UnlinesSplits(e.others, more, tail);
      var line := DataLine(e.payload, e.crs);
      assert LinesOf(events) == [line] + (e.others + more);
      assert ([line] + (e.others + more))[1..] == e.others + more;
    }
  }

  lemma {:induction false} DeltasAppend(a: seq<string>, b: seq<string>, decode: Decoder)
    ensures Deltas(a + b, decode) == Deltas(a, decode) + Deltas(b, decode)
    decreases |b|
  {
    if b == [] {
      assert a + b == a;
    } else {
      assert (a + b)[..|a + b| - 1] == a + b[..|b| - 1];
      DeltasAppend(a, b[..|b| - 1], decode);
    }
  }

  lemma {:induction false} OthersMeanNothing(lines: seq<string>, decode: Decoder)
    requires forall i :: 0 <= i < |lines| ==> IsOther(lines[i])
    ensures Deltas(lines, decode) == [] && NoDone(lines, decode) && Plain(lines)
    decreases |lines|
  {
    if lines != [] {
      var last := |lines| - 1;
      OthersMeanNothing(lines[..last], decode);
      ReadsOther(lines[last], decode);
      assert forall i :: 0 <= i < last ==> lines[i] == lines[..last][i];
    }
  }

  lemma OneLineMeans(line: string, decode: Decoder)
    ensures Deltas([line], decode) == match Read(line, decode) case Payload(delta) => [delta] case _ => []
  {
    assert [line][..0] == [];
  }

  /** One event's lines mean its payload, if it decodes. */
  lemma EventMeans(e: Sent, decode: Decoder)
    requires CanSend(e)
    ensures var lines := [DataLine(e.payload, e.crs)] + e.others;
            && Deltas(lines, decode) == (match decode(e.payload) case Some(delta) => [delta] case None => [])
            && NoDone(lines, decode) && Plain(lines)
  {
    var line := DataLine(e.payload, e.crs);
    DataLineTrims(e.payload, e.crs);
    ReadsDataLine(e.payload, e.crs, decode);
    OneLineMeans(line, decode);
    FirstThenOthers(line, e.others, decode);
  }

  lemma FirstThenOthers(line: string, others: seq<string>, decode: Decoder)
    requires '\n' !in line && !Read(line, decode).Done? && forall i :: 0 <= i < |others| ==> IsOther(others[i])
    ensures Deltas([line] + others, decode) == Deltas([line], decode)
    ensures NoDone([line] + others, decode) && Plain([line] + others)
  {
    OthersMeanNothing(others, decode);
    DeltasAppend([line], others, decode);
    assert Deltas([line], decode) + [] == Deltas([line], decode);
    Both([line], others, decode);
  }

  lemma Both(a: seq<string>, b: seq<string>, decode: Decoder)
    requires NoDone(a, decode) && NoDone(b, decode) && Plain(a) && Plain(b)
    ensures NoDone(a + b, decode) && Plain(a + b)
  {
    forall i | 0 <= i < |a + b| ensures !Read((a + b)[i], decode).Done? && '\n' !in (a + b)[i] {
      if i < |a| { assert (a + b)[i] == a[i]; } else { assert (a + b)[i] == b[i - |a|]; }
    }
  }

  lemma {:induction false} EventsMean(events: seq<Sent>, decode: Decoder)
    requires AllCanSend(events)
    ensures Deltas(LinesOf(events), decode) == Decoded(events, decode)
    ensures NoDone(LinesOf(events), decode) && Plain(LinesOf(events))
    decreases |events|
  {
    if events != [] {
      var lines := [DataLine(events[0].payload, events[0].crs)] + events[0].others;
      EventMeans(events[0], decode);
      EventsMean(events[1..], decode);
      DeltasAppend(lines, LinesOf(events[1..]), decode);
      Both(lines, LinesOf(events[1..]), decode);
    }
  }

  /** At the end of the events the parser stops. */
  lemma EndStops(end: End, decode: Decoder)
    requires CanEnd(end)
    ensures var lines := Lines(EndText(end)); lines == [] || Read(lines[0], decode).Done?
  {
    match end
    case Marked(crs, behind) =>
      var line := DataLine("[DONE]", crs);
      ReadsDataLine("[DONE]", crs, decode);
      DataLineTrims("[DONE]", crs);
      assert "data: [DONE]" == "data: " + "[DONE]";
      assert EndText(end) == line + ['\n'] + behind;
      LinesHead(line, behind);
    case Unfinished(line) =>
  }

  /** For every list of payloads, however written, every end of the stream and every
      cutting into chunks: the parsed texts and tool calls are those of the payloads
      that decode, in order. */
  lemma StreamRoundTrip(
    events: seq<Sent>, end: End, chunks: seq<Chunk>, decode: Decoder, texts: seq<string>, calls: seq<Call>)
    requires AllCanSend(events) && CanEnd(end) && Received(chunks) == Wire(events, EndText(end))
    ensures Means(Received(chunks), decode, texts, calls) <==> Says(Decoded(events, decode), texts, calls)
  {
    WireMeans(events, end, decode);
  }

  lemma WireMeans(events: seq<Sent>, end: End, decode: Decoder)
    requires AllCanSend(events) && CanEnd(end)
    ensures Deltas(BeforeDone(Lines(Wire(events, EndText(end))), decode), decode) == Decoded(events, decode)
  {
    var tail := EndText(end);
    WireIs(events, tail);
    EventsMean(events, decode);
    EndStops(end, decode);
    StopsBefore(LinesOf(events), tail, decode);
  }

  lemma StopsBefore(lines: seq<string>, tail: string, decode: Decoder)
    requires NoDone(lines, decode) && Plain(lines) && (Lines(tail) == [] || Read(Lines(tail)[0], decode).Done?)
    ensures BeforeDone(Lines(Unlines(lines, tail)), decode) == lines
  {
    LinesOfUnlines(lines, tail);
    BeforeDoneIs(lines, Lines(tail), decode);
  }

  // ----- what a list of deltas says ---------------------------------------

  /** Each delta adds its text, if it has one, and its fragments; nothing else does. */
  lemma {:induction false} DeltasAdd(a: seq<Delta>, b: seq<Delta>)
    ensures Texts(a + b) == Texts(a) + Texts(b) && Fragments(a + b) == Fragments(a) + Fragments(b)
    decreases |b|
  {
    if b == [] {
      assert a + b == a;
    } else {
      var init, last := b[..|b| - 1], b[|b| - 1];
      assert (a + b)[..|a + b| - 1] == a + init;
      DeltasAdd(a, init);
      var text := if last.content.Some? && last.content.value != "" then [last.content.value] else [];
      Regroup(Texts(a), Texts(init), text);
      Regroup(Fragments(a), Fragments(init), last.calls);
    }
  }

  lemma OneDelta(text: string, calls: seq<Fragment>)
    ensures Texts([Delta(Some(text), calls)]) == if text == "" then [] else [text]
    ensures Texts([Delta(None, calls)]) == []
    ensures Fragments([Delta(Some(text), calls)]) == calls == Fragments([Delta(None, calls)])
  {
    assert forall d: Delta :: [d][..0] == [];
    assert [] + calls == calls;
  }

  /** The first fragment of an index is the earliest one. */
  lemma {:induction false} FirstIsEarliest(before: seq<Fragment>, f: Fragment, after: seq<Fragment>)
    requires !Mentions(before, f.index)
    ensures Mentions(before + [f] + after, f.index) && FirstOf(before + [f] + after, f.index) == f
    decreases |before|
  {
    var all := before + [f] + after;
    assert all[|before|] == f;
    if before != [] {
      assert all[0] == before[0] && before[0].index != f.index;
      assert all[1..] == before[1..] + [f] + after;
      assert forall k :: 0 <= k < |before| - 1 ==> before[1..][k] == before[k + 1];
      FirstIsEarliest(before[1..], f, after);
    }
  }

  /** The arguments of an index are those of its fragments, one after the other. */
  lemma {:induction false} ArgumentsAdd(a: seq<Fragment>, b: seq<Fragment>, index: nat)
    ensures ArgumentsOf(a + b, index) == ArgumentsOf(a, index) + ArgumentsOf(b, index)
    decreases |b|
  {
    if b == [] {
      assert a + b == a;
    } else {
      assert (a + b)[..|a + b| - 1] == a + b[..|b| - 1];
      ArgumentsAdd(a, b[..|b| - 1], index);
    }
  }

  lemma OneFragment(f: Fragment, index: nat)
    ensures ArgumentsOf([f], index)
         == if f.index == index && f.arguments.Some? then f.arguments.value else ""
  {
    assert [f][..0] == [];
  }
}
