/** `callAPIStream` of `src/agents/invoke-native-api.ts`: reading a streamed completion.

    The reader is a subset of the event-stream format in section 9.2 of the WHATWG HTML Living
    Standard: lines end in LF only, every `data: ` line stands alone, and what follows the last
    newline is dropped. The specification is stated over the whole text that was received; the
    method reads it chunk by chunk. */
module ApiStream {
  import opened Text

  // --- Decoded payloads ---

  datatype Usage = Usage(promptTokens: int, completionTokens: int)

  /** A piece of a tool call; absent strings are empty, an absent index means 0. */
  datatype Fragment = Fragment(index: int, id: Option<string>, name: string, arguments: string)

  datatype Delta = Delta(content: string, toolCalls: seq<Fragment>)

  datatype Chunk = Chunk(id: Option<string>, model: Option<string>, usage: Option<Usage>,
                         delta: Option<Delta>, finishReason: string)

  /** What `JSON.parse` makes of a payload. Reading a member of `null` throws. */
  datatype Payload = Malformed | NullValue | Payload(chunk: Chunk)

  datatype ToolCall = ToolCall(id: string, name: string, arguments: string)

  datatype Response = Response(id: string, content: Option<string>, toolCalls: Option<seq<ToolCall>>,
                               finishReason: string, usage: Usage, model: string)

  datatype Outcome = Completed(response: Response) | Threw

  // --- Which payloads count ---

  datatype LineKind = Skipped | DoneMarker | Crash | Data(chunk: Chunk)

  function Classify(parse: string -> Payload, line: string): LineKind {
    if !("data: " <= line) then Skipped
    else
      var data := Trim(line[6..]);
      if data == "[DONE]" then DoneMarker
      else
        match parse(data)
        case Malformed => Skipped
        case NullValue => Crash
        case Payload(c) => Data(c)
  }

  datatype Ending = StillOpen | Closed | Crashed

  datatype Consumed = Consumed(chunks: seq<Chunk>, ending: Ending)

  /** What one more line adds; nothing once the stream has ended. */
  function ConsumeLine(parse: string -> Payload, before: Consumed, line: string): Consumed {
    if !before.ending.StillOpen? then before
    else
      match Classify(parse, line)
      case Skipped => before
      case DoneMarker => before.(ending := Closed)
      case Crash => before.(ending := Crashed)
      case Data(c) => before.(chunks := before.chunks + [c])
  }

  /** The chunks on the data lines up to the first `[DONE]` or the first payload that throws. */
  function Consume(parse: string -> Payload, lines: seq<string>): Consumed {
    if lines == [] then Consumed([], StillOpen) else ConsumeLine(parse, Consume(parse, Init(lines)), Last(lines))
  }

  lemma {:induction false} ConsumeSnoc(parse: string -> Payload, lines: seq<string>, line: string)
    ensures Consume(parse, lines + [line]) == ConsumeLine(parse, Consume(parse, lines), line)
  {
  }

  // --- What the chunks add up to ---

  function LastId(cs: seq<Chunk>): string {
    if cs == [] then ""
    else if cs[|cs| - 1].id.Some? then cs[|cs| - 1].id.value
    else LastId(cs[..|cs| - 1])
  }

  function LastModel(requested: string, cs: seq<Chunk>): string {
    if cs == [] then requested
    else if cs[|cs| - 1].model.Some? then cs[|cs| - 1].model.value
    else LastModel(requested, cs[..|cs| - 1])
  }

  function LastUsage(cs: seq<Chunk>): Usage {
    if cs == [] then Usage(0, 0)
    else if cs[|cs| - 1].usage.Some? then cs[|cs| - 1].usage.value
    else LastUsage(cs[..|cs| - 1])
  }

  /** Only a chunk that carries a delta can set the finish reason. */
  function LastFinish(cs: seq<Chunk>): string {
    if cs == [] then "stop"
    else if cs[|cs| - 1].delta.Some? && cs[|cs| - 1].finishReason != "" then cs[|cs| - 1].finishReason
    else LastFinish(cs[..|cs| - 1])
  }

  function TextDeltas(cs: seq<Chunk>): seq<string> {
    if cs == [] then []
    else
      var d := cs[|cs| - 1].delta;
      TextDeltas(cs[..|cs| - 1]) + (if d.Some? && d.value.content != "" then [d.value.content] else [])
  }

  function Fragments(cs: seq<Chunk>): seq<Fragment> {
    if cs == [] then []
    else
      var d := cs[|cs| - 1].delta;
      Fragments(cs[..|cs| - 1]) + (if d.Some? then d.value.toolCalls else [])
  }

  // --- Tool calls out of interleaved fragments ---

  /** The fragments of one call, in order of arrival. */
  function ByIndex(fs: seq<Fragment>, k: int): seq<Fragment> {
    if fs == [] then []
    else
      var f := fs[|fs| - 1];
      ByIndex(fs[..|fs| - 1], k) + (if f.index == k then [f] else [])
  }

  const NEW_CALL := ToolCall("", "", "")

  function Grown(t: ToolCall, f: Fragment): ToolCall {
    ToolCall(if f.id.Some? then f.id.value else t.id, t.name + f.name, t.arguments + f.arguments)
  }

  /** One call out of its own fragments: the last id, all names and all arguments. */
  function Assembled(fs: seq<Fragment>): ToolCall {
    if fs == [] then NEW_CALL else Grown(Assembled(fs[..|fs| - 1]), fs[|fs| - 1])
  }

  function Indices(fs: seq<Fragment>): set<int> {
    set i | 0 <= i < |fs| :: fs[i].index
  }

  function CallMap(fs: seq<Fragment>): map<int, ToolCall> {
    map k | k in Indices(fs) :: Assembled(ByIndex(fs, k))
  }

  function Min(s: set<int>): (m: int)
    requires s != {}
    ensures m in s && forall x | x in s :: m <= x
  {
    MinExists(s);
    var m :| m in s && forall x | x in s :: m <= x;
    m
  }

  lemma {:induction false} MinExists(s: set<int>)
    requires s != {}
    ensures exists m :: m in s && forall x | x in s :: m <= x
  {
    var y := AnyElement(s);
    if s != {y} {
      MinExists(s - {y});
      var m :| m in s - {y} && forall x | x in s - {y} :: m <= x;
      assert forall x | x in s :: x == y || x in s - {y};
      if y < m {
        assert forall x | x in s :: y <= x;
      } else {
        assert forall x | x in s :: m <= x;
      }
    }
  }

  /** The calls in ascending order of their index. */
  function InOrder(calls: map<int, ToolCall>): seq<ToolCall>
    decreases |calls.Keys|
  {
    if calls.Keys == {} then []
    else
      var k := Min(calls.Keys);
      [calls[k]] + InOrder(calls - {k})
  }

  // --- The specification ---

  datatype Totals = Totals(id: string, model: string, usage: Usage, finishReason: string,
                           text: string, deltas: seq<string>, calls: map<int, ToolCall>)

  function Summary(model: string, cs: seq<Chunk>): Totals {
    Totals(LastId(cs), LastModel(model, cs), LastUsage(cs), LastFinish(cs),
           Concat(TextDeltas(cs)), TextDeltas(cs), CallMap(Fragments(cs)))
  }

  function ToResponse(t: Totals): Response {
    Response(t.id,
             if t.text == "" then None else Some(t.text),
             if t.calls.Keys == {} then None else Some(InOrder(t.calls)),
             t.finishReason, t.usage, t.model)
  }

  /** The outcome of a stream whose text is `text`, however it was cut into chunks. */
  function Expected(parse: string -> Payload, model: string, text: string): (Outcome, seq<string>) {
    var c := Consume(parse, Lines(text));
    var t := Summary(model, c.chunks);
    (if c.ending.Crashed? then Threw else Completed(ToResponse(t)), t.deltas)
  }

  // --- Reading ---

  lemma {:induction false} ConsumeStops(parse: string -> Payload, lines: seq<string>, more: seq<string>)
    requires !Consume(parse, lines).ending.StillOpen?
    ensures Consume(parse, lines + more) == Consume(parse, lines)
  {
    if more == [] {
      assert lines + more == lines;
    } else {
      ConsumeStops(parse, lines, Init(more));
      assert Init(lines + more) == lines + Init(more);
    }
  }

  lemma {:induction false} ByIndexAppend(fs: seq<Fragment>, f: Fragment, k: int)
    ensures ByIndex(fs + [f], k) == if f.index == k then ByIndex(fs, k) + [f] else ByIndex(fs, k)
  {
  }

  lemma {:induction false} ByIndexUnknown(fs: seq<Fragment>, k: int)
    requires k !in Indices(fs)
    ensures ByIndex(fs, k) == []
  {
    if fs != [] {
      ByIndexUnknown(fs[..|fs| - 1], k);
      assert fs[|fs| - 1].index in Indices(fs);
    }
  }

  lemma {:induction false} IndicesAppend(fs: seq<Fragment>, f: Fragment)
    ensures Indices(fs + [f]) == Indices(fs) + {f.index}
  {
    var gs := fs + [f];
    assert gs[|fs|] == f;
    forall k | k in Indices(fs) ensures k in Indices(gs) {
      var i :| 0 <= i < |fs| && fs[i].index == k;
      assert gs[i] == fs[i];
    }
  }

  /** One more fragment changes the entry of its own index and no other. */
  lemma {:induction false} CallMapAppend(fs: seq<Fragment>, f: Fragment)
    ensures CallMap(fs + [f]) == CallMap(fs)[f.index := Assembled(ByIndex(fs, f.index) + [f])]
  {
    IndicesAppend(fs, f);
    forall k | k in Indices(fs + [f])
      ensures ByIndex(fs + [f], k) == if f.index == k then ByIndex(fs, f.index) + [f] else ByIndex(fs, k)
    {
      ByIndexAppend(fs, f, k);
    }
    MapWithUpdate(CallMap(fs), CallMap(fs + [f]), f.index, Assembled(ByIndex(fs, f.index) + [f]));
  }

  lemma {:induction false} MapWithUpdate<K, V>(m: map<K, V>, n: map<K, V>, k: K, v: V)
    requires n.Keys == m.Keys + {k} && n[k] == v
    requires forall x | x in m && x != k :: n[x] == m[x]
    ensures n == m[k := v]
  {
  }

  lemma {:induction false} AssembledAppend(fs: seq<Fragment>, f: Fragment)
    ensures Assembled(fs + [f]) == Grown(Assembled(fs), f)
  {
  }

  lemma {:induction false} EntryGrows(seen: seq<Fragment>, calls: map<int, ToolCall>, tc: Fragment)
    requires calls == CallMap(seen)
    ensures var entry := if tc.index in calls then calls[tc.index] else NEW_CALL;
            CallMap(seen + [tc]) == calls[tc.index := Grown(entry, tc)]
  {
    CallMapAppend(seen, tc);
    AssembledAppend(ByIndex(seen, tc.index), tc);
    if tc.index !in calls {
      ByIndexUnknown(seen, tc.index);
    }
  }

  method AddFragments(ghost seen: seq<Fragment>, calls: map<int, ToolCall>, deltas: seq<Fragment>)
    returns (r: map<int, ToolCall>)
    requires calls == CallMap(seen)
    ensures r == CallMap(seen + deltas)
  {
    r := calls;
    assert seen + deltas[..0] == seen;
    for i := 0 to |deltas|
      invariant r == CallMap(seen + deltas[..i])
    {
      r := AddFragment(seen + deltas[..i], r, deltas[i]);
      assert seen + deltas[..i + 1] == seen + deltas[..i] + [deltas[i]];
    }
    assert deltas[..|deltas|] == deltas;
  }

  method AddFragment(ghost seen: seq<Fragment>, calls: map<int, ToolCall>, tc: Fragment)
    returns (r: map<int, ToolCall>)
    requires calls == CallMap(seen)
    ensures r == CallMap(seen + [tc])
  {
    EntryGrows(seen, calls, tc);
    var acc := if tc.index in calls then calls[tc.index] else NEW_CALL;
    if tc.id.Some? { acc := acc.(id := tc.id.value); }
    acc := acc.(name := acc.name + tc.name);
    acc := acc.(arguments := acc.arguments + tc.arguments);
    r := calls[tc.index := acc];
  }

  /** Takes one decoded chunk into the running totals. */
  method AddChunk(model: string, ghost cs: seq<Chunk>, totals: Totals, c: Chunk) returns (t: Totals)
    requires totals == Summary(model, cs)
    ensures t == Summary(model, cs + [c])
  {
    ghost var ds := cs + [c];
    assert ds[..|ds| - 1] == cs;
    t := totals;
    if c.id.Some? { t := t.(id := c.id.value); }
    if c.model.Some? { t := t.(model := c.model.value); }
    if c.usage.Some? { t := t.(usage := c.usage.value); }
    assert Fragments(cs) + [] == Fragments(cs) && TextDeltas(cs) + [] == TextDeltas(cs);
    if c.delta.None? { return; }
    var delta := c.delta.value;
    if delta.content != "" {
      ConcatSnoc(t.deltas, delta.content);
      t := t.(text := t.text + delta.content, deltas := t.deltas + [delta.content]);
    }
    var calls := AddFragments(Fragments(cs), t.calls, delta.toolCalls);
    t := t.(calls := calls);
    if c.finishReason != "" { t := t.(finishReason := c.finishReason); }
  }

  /** `callAPIStream` from the first `reader.read()` on: the chunks are the decoded texts the reader
      yields. Reading ends with them, at `[DONE]`, or when a payload throws. */
  method CallAPIStream(parse: string -> Payload, model: string, chunks: seq<string>)
    returns (outcome: Outcome, deltas: seq<string>)
    ensures (outcome, deltas) == Expected(parse, model, Concat(chunks))
  {
    var buffer := "";
    var totals := Totals("", model, Usage(0, 0), "stop", "", [], map[]);
    var i := 0;
    while i < |chunks|
      invariant i <= |chunks|
      invariant buffer == Rest(Concat(chunks[..i]))
      invariant Consume(parse, Lines(Concat(chunks[..i]))).ending.StillOpen?
      invariant totals == Summary(model, Consume(parse, Lines(Concat(chunks[..i]))).chunks)
    {
      var ending;
      buffer, totals, ending := ReadChunk(parse, model, Concat(chunks[..i]), buffer, totals, chunks[i]);
      ConcatOneMore(chunks, i);
      if !ending.StillOpen? {
        EndedEarly(parse, chunks, i + 1);
        return if ending.Crashed? then Threw else Completed(ToResponse(totals)), totals.deltas;
      }
      i := i + 1;
    }
    assert chunks[..i] == chunks;
    return Completed(ToResponse(totals)), totals.deltas;
  }

  /** The body of the outer loop: one decoded text, after the text seen so far. */
  method ReadChunk(parse: string -> Payload, model: string, ghost seen: string, buffer: string, totals: Totals,
      chunk: string)
    returns (rest: string, t: Totals, ending: Ending)
    requires buffer == Rest(seen) && Consume(parse, Lines(seen)).ending.StillOpen?
    requires totals == Summary(model, Consume(parse, Lines(seen)).chunks)
    ensures rest == Rest(seen + chunk) && ending == Consume(parse, Lines(seen + chunk)).ending
    ensures t == Summary(model, Consume(parse, Lines(seen + chunk)).chunks)
  {
    var lines := Split(buffer + chunk, '\n');
    rest := lines[|lines| - 1];
    lines := lines[..|lines| - 1];
    FeedChunk(seen, chunk);
    t, ending := ReadLines(parse, model, Lines(seen), totals, lines);
  }

  lemma {:induction false} Reassemble(chunks: seq<string>, i: nat)
    requires i <= |chunks|
    ensures Concat(chunks) == Concat(chunks[..i]) + Concat(chunks[i..])
  {
    ConcatAppend(chunks[..i], chunks[i..]);
    assert chunks == chunks[..i] + chunks[i..];
  }

  lemma {:induction false} EndedEarly(parse: string -> Payload, chunks: seq<string>, i: nat)
    requires i <= |chunks| && !Consume(parse, Lines(Concat(chunks[..i]))).ending.StillOpen?
    ensures Consume(parse, Lines(Concat(chunks))) == Consume(parse, Lines(Concat(chunks[..i])))
  {
    var read, unread := Concat(chunks[..i]), Concat(chunks[i..]);
    Reassemble(chunks, i);
    FeedChunk(read, unread);
    ConsumeStops(parse, Lines(read), Lines(Rest(read) + unread));
  }

  /** The inner loop: the complete lines of one chunk, up to the first one that ends the stream. */
  method ReadLines(parse: string -> Payload, model: string, ghost earlier: seq<string>, totals: Totals,
      lines: seq<string>)
    returns (t: Totals, ending: Ending)
    requires Consume(parse, earlier).ending.StillOpen? && totals == Summary(model, Consume(parse, earlier).chunks)
    ensures ending == Consume(parse, earlier + lines).ending
    ensures t == Summary(model, Consume(parse, earlier + lines).chunks)
  {
    t, ending := totals, StillOpen;
    assert earlier + lines[..0] == earlier;
    for i := 0 to |lines|
      invariant ending == Consume(parse, earlier + lines[..i]).ending == StillOpen
      invariant t == Summary(model, Consume(parse, earlier + lines[..i]).chunks)
    {
      OneMoreLine(earlier, lines, i);
      ConsumeSnoc(parse, earlier + lines[..i], lines[i]);
      t, ending := ReadLine(parse, model, Consume(parse, earlier + lines[..i]), t, lines[i]);
      if !ending.StillOpen? {
        ConsumeStops(parse, earlier + lines[..i + 1], lines[i + 1..]);
        return;
      }
    }
    assert earlier + lines[..|lines|] == earlier + lines;
  }

  lemma {:induction false} OneMoreLine(earlier: seq<string>, lines: seq<string>, i: nat)
    requires i < |lines|
    ensures earlier + lines[..i] + [lines[i]] == earlier + lines[..i + 1]
    ensures earlier + lines == earlier + lines[..i + 1] + lines[i + 1..]
  {
  }

  method ReadLine(parse: string -> Payload, model: string, ghost before: Consumed, totals: Totals, line: string)
    returns (t: Totals, ending: Ending)
    requires before.ending.StillOpen? && totals == Summary(model, before.chunks)
    ensures ending == ConsumeLine(parse, before, line).ending
    ensures t == Summary(model, ConsumeLine(parse, before, line).chunks)
  {
    t, ending := totals, StillOpen;
    if !("data: " <= line) { return; }
    var data := Trim(line[6..]);
    if data == "[DONE]" { return t, Closed; }
    match parse(data)
    case Malformed =>
    case NullValue => ending := Crashed;
    case Payload(c) => t := AddChunk(model, before.chunks, totals, c);
  }

  // --- What the specification promises ---

  /** Two ways of cutting one text give the same outcome and the same text deltas; an unterminated
      last line changes nothing. */
  lemma {:induction false} ChunkingIrrelevant(parse: string -> Payload, model: string, a: seq<string>,
      b: seq<string>, tail: string)
    requires Concat(b) == Concat(a) + tail && '\n' !in tail
    ensures Expected(parse, model, Concat(b)) == Expected(parse, model, Concat(a))
  {
    var text := Concat(a);
    FeedChunk(text, tail);
    SplitFacts(text, '\n');
    assert '\n' !in Rest(text) + tail;
    SplitAtom(Rest(text) + tail, '\n');
    assert Lines(text) + [] == Lines(text);
  }

  /** However the fragments of different calls are interleaved, the calls come out the same. */
  lemma {:induction false} InterleavingIrrelevant(fs: seq<Fragment>, gs: seq<Fragment>)
    requires forall k :: ByIndex(fs, k) == ByIndex(gs, k)
    ensures CallMap(fs) == CallMap(gs)
  {
    forall k ensures k in Indices(fs) <==> k in Indices(gs) {
      ByIndexKnown(fs, k);
      ByIndexKnown(gs, k);
    }
    assert Indices(fs) == Indices(gs);
  }

  lemma {:induction false} ByIndexKnown(fs: seq<Fragment>, k: int)
    ensures ByIndex(fs, k) != [] <==> k in Indices(fs)
  {
    if fs != [] {
      var before := fs[..|fs| - 1];
      ByIndexKnown(before, k);
      CallMapAppend(before, fs[|fs| - 1]);
      assert before + [fs[|fs| - 1]] == fs;
      assert k in CallMap(fs) <==> k in Indices(fs);
      assert k in CallMap(before) <==> k in Indices(before);
    }
  }

  function Ascending(keys: set<int>): seq<int> {
    if keys == {} then [] else [Min(keys)] + Ascending(keys - {Min(keys)})
  }

  lemma {:induction false} AscendingFacts(keys: set<int>)
    ensures |Ascending(keys)| == |keys|
    ensures forall i | 0 <= i < |Ascending(keys)| :: Ascending(keys)[i] in keys
    ensures forall i, j | 0 <= i < j < |Ascending(keys)| :: Ascending(keys)[i] < Ascending(keys)[j]
  {
    if keys != {} {
      AscendingFacts(keys - {Min(keys)});
    }
  }

  lemma {:induction false} InOrderAscends(calls: map<int, ToolCall>)
    ensures |InOrder(calls)| == |Ascending(calls.Keys)|
    ensures forall i | 0 <= i < |InOrder(calls)| ::
              Ascending(calls.Keys)[i] in calls && InOrder(calls)[i] == calls[Ascending(calls.Keys)[i]]
    decreases |calls.Keys|
  {
    if calls.Keys != {} {
      var k := Min(calls.Keys);
      assert (calls - {k}).Keys == calls.Keys - {k};
      InOrderAscends(calls - {k});
    }
  }

  /** The calls are listed by ascending index, each index once. */
  lemma {:induction false} SortedByIndex(calls: map<int, ToolCall>) returns (order: seq<int>)
    ensures |order| == |InOrder(calls)| == |calls|
    ensures forall i, j | 0 <= i < j < |order| :: order[i] < order[j]
    ensures forall i | 0 <= i < |order| :: order[i] in calls && InOrder(calls)[i] == calls[order[i]]
  {
    AscendingFacts(calls.Keys);
    InOrderAscends(calls);
    order := Ascending(calls.Keys);
  }

  /** The response text is the concatenation of the deltas that were reported on the way. */
  lemma {:induction false} DeltasAreTheText(parse: string -> Payload, model: string, text: string)
    ensures var (outcome, deltas) := Expected(parse, model, text);
            && (forall d | d in deltas :: d != "")
            && (outcome.Completed? ==>
                  outcome.response.content == if Concat(deltas) == "" then None else Some(Concat(deltas)))
  {
    NoEmptyDelta(Consume(parse, Lines(text)).chunks);
  }

  lemma {:induction false} NoEmptyDelta(cs: seq<Chunk>)
    ensures forall d | d in TextDeltas(cs) :: d != ""
  {
    if cs != [] {
      NoEmptyDelta(cs[..|cs| - 1]);
    }
  }
}
