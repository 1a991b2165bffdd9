/** The gateway's streamed answer: an incremental line parser over text chunks,
    and the assembly of tool calls from fragments. */
module ChatStream {
  import opened Wrappers

  /** One entry of a delta's `tool_calls`; missing strings are "", a missing
      index is 0. */
  datatype Fragment = Fragment(index: nat, id: string, name: string, arguments: Option<string>)

  datatype Delta = Delta(content: Option<string>, calls: seq<Fragment>)

  datatype Call = Call(id: string, name: string, arguments: string)

  /** A chunk of the response body, decoded, or the error that ends it. */
  datatype Chunk = Data(text: string) | Broken

  /** JSON decoding of a data line, down to `choices[0].delta`. */
  type Decoder = string -> Option<Delta>

  // ----- lines ------------------------------------------------------------

  function TrimCr(line: string): string {
    if line != "" && line[|line| - 1] == '\r' then TrimCr(line[..|line| - 1]) else line
  }

  datatype Meaning = Ignored | Done | Payload(delta: Delta)

  const DATA := "data: "

  function Read(line: string, decode: Decoder): Meaning {
    var trimmed := TrimCr(line);
    if !(DATA <= trimmed) then Ignored
    else if trimmed[|DATA|..] == "[DONE]" then Done
    else match decode(trimmed[|DATA|..])
      case Some(delta) => Payload(delta)
      case None => Ignored
  }

  /** The lines of a text that end in a newline, without it. */
  function Lines(text: string): seq<string>
    decreases |text|
  {
    if '\n' !in text then []
    else var p := NewlineAt(text); [text[..p]] + Lines(text[p + 1..])
  }

  function NewlineAt(text: string): (p: nat)
    requires '\n' in text
    ensures p < |text| && text[p] == '\n' && '\n' !in text[..p]
  {
    if text[0] == '\n' then 0
    else
      var p := NewlineAt(text[1..]);
      assert text[..p + 1] == [text[0]] + text[1..][..p];
      p + 1
  }

  function BeforeDone(lines: seq<string>, decode: Decoder): seq<string> {
    if lines == [] || Read(lines[0], decode).Done? then []
    else [lines[0]] + BeforeDone(lines[1..], decode)
  }

  function Deltas(lines: seq<string>, decode: Decoder): seq<Delta> {
    if lines == [] then []
    else
      var rest := Deltas(lines[..|lines| - 1], decode);
      match Read(lines[|lines| - 1], decode)
      case Payload(delta) => rest + [delta]
      case _ => rest
  }

  // ----- meaning of a delta list ------------------------------------------

  function Texts(deltas: seq<Delta>): seq<string> {
    if deltas == [] then []
    else
      var last := deltas[|deltas| - 1].content;
      Texts(deltas[..|deltas| - 1]) + (if last.Some? && last.value != "" then [last.value] else [])
  }

  function Fragments(deltas: seq<Delta>): seq<Fragment> {
    if deltas == [] then [] else Fragments(deltas[..|deltas| - 1]) + deltas[|deltas| - 1].calls
  }

  predicate Mentions(fragments: seq<Fragment>, index: nat) {
    exists k :: 0 <= k < |fragments| && fragments[k].index == index
  }

  function FirstOf(fragments: seq<Fragment>, index: nat): (f: Fragment)
    requires Mentions(fragments, index)
    ensures f.index == index
  {
    if fragments[0].index == index then fragments[0]
    else
      assert Mentions(fragments[1..], index) by {
        var k :| 0 <= k < |fragments| && fragments[k].index == index;
        assert fragments[1..][k - 1].index == index;
      }
      FirstOf(fragments[1..], index)
  }

  function ArgumentsOf(fragments: seq<Fragment>, index: nat): string {
    if fragments == [] then ""
    else
      var last := fragments[|fragments| - 1];
      ArgumentsOf(fragments[..|fragments| - 1], index)
        + (if last.index == index && last.arguments.Some? then last.arguments.value else "")
  }

  /** The tool call of one index: id and name of its first fragment, the arguments
      of all its fragments in arrival order. */
  function CallOf(fragments: seq<Fragment>, index: nat): Call
    requires Mentions(fragments, index)
  {
    Call(FirstOf(fragments, index).id, FirstOf(fragments, index).name, ArgumentsOf(fragments, index))
  }

  /** One call per index that occurs, in ascending order of index. */
  ghost predicate IsAssembly(fragments: seq<Fragment>, indices: seq<nat>, calls: seq<Call>) {
    && Ascending(indices)
    && (forall i :: i in indices <==> Mentions(fragments, i))
    && |calls| == |indices|
    && (forall k :: 0 <= k < |indices| ==> Mentions(fragments, indices[k]) && calls[k] == CallOf(fragments, indices[k]))
  }

  predicate Ascending(s: seq<nat>) {
    forall i, j :: 0 <= i < j < |s| ==> s[i] < s[j]
  }

  /** What a complete response text means. */
  ghost predicate Means(text: string, decode: Decoder, texts: seq<string>, calls: seq<Call>) {
    Says(Deltas(BeforeDone(Lines(text), decode), decode), texts, calls)
  }

  /** The texts and the assembled tool calls of a list of deltas. */
  ghost predicate Says(deltas: seq<Delta>, texts: seq<string>, calls: seq<Call>) {
    texts == Texts(deltas) && exists indices :: IsAssembly(Fragments(deltas), indices, calls)
  }

  // ----- meaning is a function of the text --------------------------------

  lemma {:induction false} AscendingIsUnique(a: seq<nat>, b: seq<nat>)
    requires Ascending(a) && Ascending(b) && forall i :: i in a <==> i in b
    ensures a == b
    decreases |a|
  {
    assert a != [] ==> a[0] in b;
    assert b != [] ==> b[0] in a;
    if a != [] && b != [] {
      assert a[0] == b[0];
      forall i ensures i in a[1..] <==> i in b[1..] {
        if i in a[1..] { assert i in b && i != b[0]; }
        if i in b[1..] { assert i in a && i != a[0]; }
      }
      AscendingIsUnique(a[1..], b[1..]);
    }
  }

  /** A text has one meaning only. */
  lemma MeaningIsUnique(
    text: string, decode: Decoder, texts1: seq<string>, calls1: seq<Call>, texts2: seq<string>, calls2: seq<Call>)
    requires Means(text, decode, texts1, calls1) && Means(text, decode, texts2, calls2)
    ensures texts1 == texts2 && calls1 == calls2
  {
    var fragments := Fragments(Deltas(BeforeDone(Lines(text), decode), decode));
    var i1 :| IsAssembly(fragments, i1, calls1);
    var i2 :| IsAssembly(fragments, i2, calls2);
    AscendingIsUnique(i1, i2);
  }

  // ----- the fragment table -----------------------------------------------

  function AddFragment(table: map<nat, Call>, f: Fragment): map<nat, Call> {
    var entry := if f.index in table then table[f.index] else Call(f.id, f.name, "");
    table[f.index := entry.(arguments := entry.arguments + (if f.arguments.Some? then f.arguments.value else ""))]
  }

  ghost predicate TableOf(table: map<nat, Call>, fragments: seq<Fragment>) {
    && (forall i: nat :: i in table <==> Mentions(fragments, i))
    && (forall i: nat :: i in table && Mentions(fragments, i) ==> table[i] == CallOf(fragments, i))
  }

  lemma {:induction false} FirstSurvives(fragments: seq<Fragment>, f: Fragment, index: nat)
    requires Mentions(fragments, index)
    ensures Mentions(fragments + [f], index) && FirstOf(fragments + [f], index) == FirstOf(fragments, index)
    decreases |fragments|
  {
    var k :| 0 <= k < |fragments| && fragments[k].index == index;
    assert (fragments + [f])[k].index == index;
    if fragments[0].index != index {
      assert fragments[1..][k - 1].index == index;
      FirstSurvives(fragments[1..], f, index);
      assert (fragments + [f])[1..] == fragments[1..] + [f];
    }
  }

  lemma {:induction false} FirstIsNew(fragments: seq<Fragment>, f: Fragment)
    requires !Mentions(fragments, f.index)
    ensures Mentions(fragments + [f], f.index) && FirstOf(fragments + [f], f.index) == f
    ensures ArgumentsOf(fragments, f.index) == ""
    decreases |fragments|
  {
    assert (fragments + [f])[|fragments|].index == f.index;
    if fragments != [] {
      assert fragments[0].index != f.index;
      assert forall k :: 0 <= k < |fragments| - 1 ==> fragments[1..][k] == fragments[k + 1];
      assert forall k :: 0 <= k < |fragments| - 1 ==> fragments[..|fragments| - 1][k] == fragments[k];
      FirstIsNew(fragments[1..], f);
      assert (fragments + [f])[1..] == fragments[1..] + [f];
      FirstIsNew(fragments[..|fragments| - 1], f);
    }
  }

  /** Adding a fragment to the table is adding it to the stream. */
  lemma TableGrows(table: map<nat, Call>, fragments: seq<Fragment>, f: Fragment)
    requires TableOf(table, fragments)
    ensures TableOf(AddFragment(table, f), fragments + [f])
  {
    var all := fragments + [f];
    assert all[..|fragments|] == fragments && all[|fragments|] == f;
    forall i: nat ensures Mentions(all, i) <==> (i == f.index || Mentions(fragments, i)) {
      if Mentions(fragments, i) {
        var k :| 0 <= k < |fragments| && fragments[k].index == i;
        assert all[k].index == i;
      }
    }
    forall i: nat | i in AddFragment(table, f) && Mentions(all, i)
      ensures AddFragment(table, f)[i] == CallOf(all, i)
    {
      if Mentions(fragments, i) { FirstSurvives(fragments, f, i); } else { FirstIsNew(fragments, f); }
    }
  }

  /** collect_tool_calls: the table's entries in ascending order of key. */
  method CollectToolCalls(table: map<nat, Call>) returns (calls: seq<Call>, indices: seq<nat>)
    ensures Ascending(indices) && (forall i :: i in indices <==> i in table)
    ensures |calls| == |indices|
    ensures forall k :: 0 <= k < |indices| ==> indices[k] in table && calls[k] == table[indices[k]]
  {
    indices := [];
    var keys := table.Keys;
    while keys != {}
      invariant keys <= table.Keys
      invariant Ascending(indices)
      invariant forall i :: i in indices <==> i in table && i !in keys
    {
      var key :| key in keys;
      indices := InsertSorted(indices, key);
      keys := keys - {key};
    }
    calls := [];
    for n := 0 to |indices|
      invariant |calls| == n
      invariant forall k :: 0 <= k < n ==> indices[k] in table && calls[k] == table[indices[k]]
    {
      assert indices[n] in indices;
      calls := calls + [table[indices[n]]];
    }
  }

  method InsertSorted(sorted: seq<nat>, key: nat) returns (r: seq<nat>)
    requires Ascending(sorted) && key !in sorted
    ensures Ascending(r) && forall i :: i in r <==> i == key || i in sorted
  {
    var n := 0;
    while n < |sorted| && sorted[n] < key
      invariant 0 <= n <= |sorted|
      invariant forall k :: 0 <= k < n ==> sorted[k] < key
    {
      n := n + 1;
    }
    if n < |sorted| { assert sorted[n] in sorted; }
    r := sorted[..n] + [key] + sorted[n..];
    StaysAscending(sorted, n, key);
  }

  lemma StaysAscending(sorted: seq<nat>, n: nat, key: nat)
    requires Ascending(sorted) && n <= |sorted|
    requires (forall k :: 0 <= k < n ==> sorted[k] < key) && (n < |sorted| ==> key < sorted[n])
    ensures var r := sorted[..n] + [key] + sorted[n..]; Ascending(r) && forall i :: i in r <==> i == key || i in sorted
  {
    assert sorted == sorted[..n] + sorted[n..];
  }

  // ----- the incremental parser -------------------------------------------

  /** Everything received before the body ends or breaks. */
  function Received(chunks: seq<Chunk>): string {
    if chunks == [] || chunks[0].Broken? then "" else chunks[0].text + Received(chunks[1..])
  }

  /** Received text as finished lines and an unfinished rest. */
  function Unlines(lines: seq<string>, rest: string): string {
    if lines == [] then rest else lines[0] + ['\n'] + Unlines(lines[1..], rest)
  }

  predicate Plain(lines: seq<string>) {
    forall i :: 0 <= i < |lines| ==> '\n' !in lines[i]
  }

  lemma NewlineIs(text: string, p: nat)
    requires p < |text| && text[p] == '\n' && '\n' !in text[..p]
    ensures '\n' in text && NewlineAt(text) == p
  {
    var q := NewlineAt(text);
    assert forall i :: 0 <= i < p ==> text[..p][i] == text[i];
    assert forall i :: 0 <= i < q ==> text[..q][i] == text[i];
  }

  lemma LinesHead(line: string, tail: string)
    requires '\n' !in line
    ensures Lines(line + ['\n'] + tail) == [line] + Lines(tail)
  {
    var text := line + ['\n'] + tail;
    assert text[..|line|] == line && text[|line| + 1..] == tail;
    NewlineIs(text, |line|);
  }

  lemma HeadFirst(a: seq<string>, b: seq<string>)
    requires a != []
    ensures [a[0]] + (a[1..] + b) == a + b
  {
  }

  lemma {:induction false} LinesOfUnlines(lines: seq<string>, rest: string)
    requires Plain(lines)
    ensures Lines(Unlines(lines, rest)) == lines + Lines(rest)
    decreases |lines|
  {
    if lines == [] {
      assert lines + Lines(rest) == Lines(rest);
    } else {
      var tail := Unlines(lines[1..], rest);
      assert Lines(tail) == lines[1..] + Lines(rest) by { LinesOfUnlines(lines[1..], rest); }
      assert Lines(lines[0] + ['\n'] + tail) == [lines[0]] + Lines(tail) by { LinesHead(lines[0], tail); }
      HeadFirst(lines, Lines(rest));
    }
  }

  lemma {:induction false} UnlinesAppends(lines: seq<string>, rest: string, more: string)
    ensures Unlines(lines, rest) + more == Unlines(lines, rest + more)
    decreases |lines|
  {
    if lines != [] {
      UnlinesAppends(lines[1..], rest, more);
      assert Unlines(lines, rest) + more == lines[0] + ['\n'] + (Unlines(lines[1..], rest) + more);
    }
  }

  lemma {:induction false} UnlinesTakesLine(lines: seq<string>, line: string, rest: string)
    ensures Unlines(lines, line + ['\n'] + rest) == Unlines(lines + [line], rest)
    decreases |lines|
  {
    if lines == [] {
      assert ([line])[1..] == [];
    } else {
      UnlinesTakesLine(lines[1..], line, rest);
      assert (lines + [line])[1..] == lines[1..] + [line];
    }
  }

  predicate NoDone(lines: seq<string>, decode: Decoder) {
    forall i :: 0 <= i < |lines| ==> !Read(lines[i], decode).Done?
  }

  lemma {:induction false} BeforeDoneIs(lines: seq<string>, more: seq<string>, decode: Decoder)
    requires NoDone(lines, decode) && (more == [] || Read(more[0], decode).Done?)
    ensures BeforeDone(lines + more, decode) == lines
    decreases |lines|
  {
    if lines == [] {
      assert lines + more == more;
    } else {
      BeforeDoneIs(lines[1..], more, decode);
      assert (lines + more)[1..] == lines[1..] + more;
    }
  }

  lemma {:induction false} ReceivedSplits(chunks: seq<Chunk>, n: nat)
    requires n <= |chunks| && forall i :: 0 <= i < n ==> chunks[i].Data?
    ensures Received(chunks) == Received(chunks[..n]) + Received(chunks[n..])
    decreases n
  {
    if n > 0 {
      ReceivedSplits(chunks[1..], n - 1);
      assert chunks[..n][1..] == chunks[1..][..n - 1] && chunks[1..][n - 1..] == chunks[n..];
      assert Received(chunks) == chunks[0].text + (Received(chunks[1..][..n - 1]) + Received(chunks[n..]));
    } else {
      assert chunks[..0] == [] && chunks[0..] == chunks;
    }
  }

  lemma ReceivedGrows(chunks: seq<Chunk>, n: nat)
    requires n < |chunks| && forall i :: 0 <= i <= n ==> chunks[i].Data?
    ensures Received(chunks[..n + 1]) == Received(chunks[..n]) + chunks[n].text
  {
    var head := chunks[..n + 1];
    ReceivedSplits(head, n);
    assert head[..n] == chunks[..n] && head[n..] == [chunks[n]];
    assert Received([chunks[n]]) == chunks[n].text + "";
  }

  /** The parser's own state: the lines taken so far and what they gave. */
  ghost predicate Progressed(lines: seq<string>, decode: Decoder, texts: seq<string>, table: map<nat, Call>) {
    && NoDone(lines, decode)
    && Plain(lines)
    && texts == Texts(Deltas(lines, decode))
    && TableOf(table, Fragments(Deltas(lines, decode)))
  }

  lemma Concludes(
    text: string, lines: seq<string>, rest: string, decode: Decoder, texts: seq<string>, table: map<nat, Call>,
    calls: seq<Call>, indices: seq<nat>)
    requires Progressed(lines, decode, texts, table)
    requires text == Unlines(lines, rest)
    requires Lines(rest) == [] || Read(Lines(rest)[0], decode).Done?
    requires Ascending(indices) && (forall i :: i in indices <==> i in table)
    requires |calls| == |indices|
    requires forall k :: 0 <= k < |indices| ==> indices[k] in table && calls[k] == table[indices[k]]
    ensures Means(text, decode, texts, calls)
  {
    LinesOfUnlines(lines, rest);
    BeforeDoneIs(lines, Lines(rest), decode);
    assert IsAssembly(Fragments(Deltas(lines, decode)), indices, calls);
  }

  method AddFragments(table: map<nat, Call>, fragments: seq<Fragment>, ghost before: seq<Fragment>)
    returns (table': map<nat, Call>)
    requires TableOf(table, before)
    ensures TableOf(table', before + fragments)
  {
    table' := table;
    assert before + fragments[..0] == before;
    for n := 0 to |fragments|
      invariant TableOf(table', before + fragments[..n])
    {
      TableGrows(table', before + fragments[..n], fragments[n]);
      assert before + fragments[..n] + [fragments[n]] == before + fragments[..n + 1];
      table' := AddFragment(table', fragments[n]);
    }
    assert fragments[..|fragments|] == fragments;
  }

  lemma LinesGrow(lines: seq<string>, line: string, decode: Decoder)
    requires NoDone(lines, decode) && Plain(lines) && '\n' !in line && !Read(line, decode).Done?
    ensures NoDone(lines + [line], decode) && Plain(lines + [line])
  {
  }

  /** How one more line changes the delta list. */
  lemma DeltasGrow(lines: seq<string>, line: string, decode: Decoder)
    ensures Deltas(lines + [line], decode)
         == Deltas(lines, decode) + (match Read(line, decode) case Payload(delta) => [delta] case _ => [])
  {
    var all := lines + [line];
    assert all[..|all| - 1] == lines && all[|all| - 1] == line;
  }

  lemma MeaningGrows(deltas: seq<Delta>, delta: Delta)
    ensures Texts(deltas + [delta])
         == Texts(deltas) + (if delta.content.Some? && delta.content.value != "" then [delta.content.value] else [])
    ensures Fragments(deltas + [delta]) == Fragments(deltas) + delta.calls
  {
    var all := deltas + [delta];
    assert all[..|all| - 1] == deltas && all[|all| - 1] == delta;
  }

  /** One finished line: skipped, or its delta's text and fragments are added. */
  method TakeLine(line: string, decode: Decoder, ghost lines: seq<string>, texts: seq<string>, table: map<nat, Call>)
    returns (texts': seq<string>, table': map<nat, Call>)
    requires '\n' !in line && !Read(line, decode).Done? && Progressed(lines, decode, texts, table)
    ensures Progressed(lines + [line], decode, texts', table')
  {
    DeltasGrow(lines, line, decode);
    LinesGrow(lines, line, decode);
    ghost var before := Deltas(lines, decode);
    texts', table' := texts, table;
    match Read(line, decode) {
      case Payload(delta) =>
        MeaningGrows(before, delta);
        if delta.content.Some? && delta.content.value != "" {
          texts' := texts' + [delta.content.value];
        }
        table' := AddFragments(table, delta.calls, Fragments(before));
        assert Deltas(lines + [line], decode) == before + [delta];
      case Ignored =>
        assert Deltas(lines + [line], decode) == before;
    }
  }

  lemma CutsLine(lines: seq<string>, buffer: string)
    requires '\n' in buffer
    ensures var p := NewlineAt(buffer); Unlines(lines + [buffer[..p]], buffer[p + 1..]) == Unlines(lines, buffer)
  {
    var p := NewlineAt(buffer);
    assert buffer == buffer[..p] + ['\n'] + buffer[p + 1..];
    UnlinesTakesLine(lines, buffer[..p], buffer[p + 1..]);
  }

  lemma ReceivedAll(chunks: seq<Chunk>, n: nat)
    requires n <= |chunks| && (forall i :: 0 <= i < n ==> chunks[i].Data?) && (n < |chunks| ==> chunks[n].Broken?)
    ensures Received(chunks) == Received(chunks[..n])
  {
    ReceivedSplits(chunks, n);
    assert Received(chunks[n..]) == "";
    assert Received(chunks[..n]) + "" == Received(chunks[..n]);
  }

  /** At [DONE] the buffer and the chunks not yet read are the rest of the text. */
  lemma StopsAtDone(chunks: seq<Chunk>, n: nat, lines: seq<string>, buffer: string, decode: Decoder)
    requires n <= |chunks| && (forall i :: 0 <= i < n ==> chunks[i].Data?)
    requires Received(chunks[..n]) == Unlines(lines, buffer)
    requires '\n' in buffer && Read(buffer[..NewlineAt(buffer)], decode).Done?
    ensures var rest := buffer + Received(chunks[n..]);
            && Received(chunks) == Unlines(lines, rest)
            && Lines(rest) != [] && Read(Lines(rest)[0], decode).Done?
  {
    var p := NewlineAt(buffer);
    var line := buffer[..p];
    var rest := buffer + Received(chunks[n..]);
    ReceivedSplits(chunks, n);
    UnlinesAppends(lines, buffer, Received(chunks[n..]));
    assert rest == line + ['\n'] + rest[p + 1..];
    LinesHead(line, rest[p + 1..]);
  }

  /** The inner loop: every finished line in the buffer, up to [DONE]. */
  method TakeLines(text: string, decode: Decoder, ghost before: seq<string>, texts: seq<string>, table: map<nat, Call>)
    returns (done: bool, buffer: string, ghost lines: seq<string>, texts': seq<string>, table': map<nat, Call>)
    requires Progressed(before, decode, texts, table)
    ensures Progressed(lines, decode, texts', table') && Unlines(lines, buffer) == Unlines(before, text)
    ensures if done then '\n' in buffer && Read(buffer[..NewlineAt(buffer)], decode).Done? else '\n' !in buffer
  {
    buffer, lines, texts', table' := text, before, texts, table;
    while '\n' in buffer
      invariant Progressed(lines, decode, texts', table')
      invariant Unlines(lines, buffer) == Unlines(before, text)
      decreases |buffer|
    {
      var p := NewlineAt(buffer);
      var line := buffer[..p];
      if Read(line, decode).Done? {
        done := true;
        return;
      }
      texts', table' := TakeLine(line, decode, lines, texts', table');
      CutsLine(lines, buffer);
      lines := lines + [line];
      buffer := buffer[p + 1..];
    }
    done := false;
  }

  /** parse_gateway_stream. However the text was cut into chunks, the result is
      the meaning of everything received before the first broken chunk. */
  method ParseGatewayStream(chunks: seq<Chunk>, decode: Decoder) returns (texts: seq<string>, calls: seq<Call>)
    ensures Means(Received(chunks), decode, texts, calls)
  {
    texts := [];
    var table: map<nat, Call> := map[];
    var buffer, done := "", false;
    ghost var lines: seq<string> := [];
    var indices: seq<nat>;
    var n := 0;
    while n < |chunks| && chunks[n].Data?
      invariant n <= |chunks| && forall i :: 0 <= i < n ==> chunks[i].Data?
      invariant Progressed(lines, decode, texts, table)
      invariant Received(chunks[..n]) == Unlines(lines, buffer)
      invariant '\n' !in buffer
    {
      ReceivedGrows(chunks, n);
      UnlinesAppends(lines, buffer, chunks[n].text);
      buffer := buffer + chunks[n].text;
      done, buffer, lines, texts, table := TakeLines(buffer, decode, lines, texts, table);
      n := n + 1;
      if done {
        calls, indices := CollectToolCalls(table);
        StopsAtDone(chunks, n, lines, buffer, decode);
        Concludes(Received(chunks), lines, buffer + Received(chunks[n..]), decode, texts, table, calls, indices);
        return;
      }
    }
    calls, indices := CollectToolCalls(table);
    ReceivedAll(chunks, n);
    Concludes(Received(chunks), lines, buffer, decode, texts, table, calls, indices);
  }
}
