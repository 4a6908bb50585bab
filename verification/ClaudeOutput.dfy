/** `parseClaudeJsonOutput` of `src/agents/output-parsers.ts` and `streamCLIOutput` of
    `src/agents/invoke-cli.ts`: the streamer filters the lines of the CLI while they arrive, and the
    parser reads the filtered text afterwards. `decode` is what `JSON.parse` makes of a line. */
module ClaudeOutput {
  import opened Text

  // --- Decoded lines ---

  datatype Usage = Usage(input: nat, cacheRead: nat, cacheCreation: nat, output: nat)

  /** `readable` says whether the progress code can read the detail of a tool input: it throws on
      one whose command, query or url cannot be sliced. */
  datatype Block = TextBlock(text: string) | ToolUse(name: string, readable: bool) | OtherBlock

  datatype Message = Message(usage: Option<Usage>, content: seq<Block>)

  datatype BlockKind = TextKind | ToolKind | OtherKind

  /** Events of `--include-partial-messages`. `startsSubagent` says that a finished tool input is a
      Task or Agent call with a description; `Broken` is an event whose members cannot be read. */
  datatype StreamEvent =
    | MessageStart
    | BlockStart(index: int, kind: BlockKind, text: string)
    | TextDelta(index: int, text: string)
    | InputDelta(index: int, json: string)
    | BlockStop(index: int, startsSubagent: bool)
    | OtherEvent
    | Broken

  datatype Decoded =
    | NotJson
    | Stream(event: StreamEvent)
    | Notice
    | Assistant(message: Message)
    | Result(sessionId: string, body: string)
    | OtherLine

  /** A blank line is not JSON. */
  ghost predicate BlankIsNotJson(decode: string -> Decoded) {
    forall s: string :: Trim(s) == "" ==> decode(s) == NotJson
  }

  // --- The parser ---

  datatype ParseState = ParseState(
    tokensIn: nat, tokensOut: nat, lastTurnTokensIn: nat,
    exitedPlanMode: bool, inPlanMode: bool,
    planTextParts: seq<string>, allTextParts: seq<string>, toolsUsed: set<string>,
    sessionId: Option<string>, resultMsg: Option<string>)

  const FRESH := ParseState(0, 0, 0, false, false, [], [], {}, None, None)

  function TurnTokensIn(u: Usage): nat {
    u.input + u.cacheRead + u.cacheCreation
  }

  function CountUsage(p: ParseState, u: Option<Usage>): ParseState {
    if u.None? then p
    else p.(tokensIn := p.tokensIn + TurnTokensIn(u.value),
            tokensOut := p.tokensOut + u.value.output,
            lastTurnTokensIn := u.value.input)
  }

  function TakeBlock(p: ParseState, b: Block): ParseState {
    match b
    case ToolUse(name, _) =>
      p.(toolsUsed := if name == "" then p.toolsUsed else p.toolsUsed + {name},
         inPlanMode := if name == "EnterPlanMode" then true
                       else if name == "ExitPlanMode" then false else p.inPlanMode,
         exitedPlanMode := p.exitedPlanMode || name == "ExitPlanMode")
    case TextBlock(text) =>
      if text == "" then p
      else p.(allTextParts := p.allTextParts + [text],
              planTextParts := if p.inPlanMode then p.planTextParts + [text] else p.planTextParts)
    case OtherBlock => p
  }

  function TakeBlocks(p: ParseState, blocks: seq<Block>): ParseState {
    if blocks == [] then p
    else TakeBlock(TakeBlocks(p, blocks[..|blocks| - 1]), blocks[|blocks| - 1])
  }

  function ParseDecoded(p: ParseState, d: Decoded): ParseState {
    match d
    case Assistant(m) => TakeBlocks(CountUsage(p, m.usage), m.content)
    case Result(id, body) =>
      p.(resultMsg := Some(body), sessionId := if id == "" then p.sessionId else Some(id))
    case _ => p
  }

  function ParseLines(decode: string -> Decoded, lines: seq<string>): ParseState {
    if lines == [] then FRESH
    else ParseDecoded(ParseLines(decode, Init(lines)), decode(Last(lines)))
  }

  function ParseText(decode: string -> Decoded, text: string): ParseState {
    ParseLines(decode, Split(text, '\n'))
  }

  method ParseBlocks(start: ParseState, blocks: seq<Block>) returns (p: ParseState)
    ensures p == TakeBlocks(start, blocks)
  {
    p := start;
    for i := 0 to |blocks|
      invariant p == TakeBlocks(start, blocks[..i])
    {
      assert blocks[..i + 1][..i] == blocks[..i];
      match blocks[i] {
        case ToolUse(name, _) =>
          if name != "" { p := p.(toolsUsed := p.toolsUsed + {name}); }
          if name == "EnterPlanMode" { p := p.(inPlanMode := true); }
          if name == "ExitPlanMode" { p := p.(exitedPlanMode := true, inPlanMode := false); }
        case TextBlock(text) =>
          if text != "" {
            p := p.(allTextParts := p.allTextParts + [text]);
            if p.inPlanMode {
              p := p.(planTextParts := p.planTextParts + [text]);
            }
          }
        case OtherBlock =>
      }
    }
    assert blocks[..|blocks|] == blocks;
  }

  lemma {:induction false} ParseLinesSnoc(decode: string -> Decoded, before: seq<string>, line: string)
    ensures ParseLines(decode, before + [line]) == ParseDecoded(ParseLines(decode, before), decode(line))
  {
  }

  method ParseLine(start: ParseState, d: Decoded) returns (p: ParseState)
    ensures p == ParseDecoded(start, d)
  {
    p := start;
    match d {
      case Assistant(m) =>
        if m.usage.Some? {
          var u := m.usage.value;
          p := p.(tokensIn := p.tokensIn + TurnTokensIn(u));
          p := p.(tokensOut := p.tokensOut + u.output);
          p := p.(lastTurnTokensIn := u.input);
        }
        p := ParseBlocks(p, m.content);
      case Result(id, body) =>
        p := p.(resultMsg := Some(body));
        if id != "" { p := p.(sessionId := Some(id)); }
      case _ =>
    }
  }

  /** The loop of `parseClaudeJsonOutput`; empty lines are skipped before decoding. */
  method ParseClaudeJsonOutput(decode: string -> Decoded, output: string) returns (p: ParseState)
    requires BlankIsNotJson(decode)
    ensures p == ParseText(decode, output)
  {
    var lines := Split(output, '\n');
    p := FRESH;
    for i := 0 to |lines|
      invariant p == ParseLines(decode, lines[..i])
    {
      assert lines[..i + 1] == lines[..i] + [lines[i]];
      ParseLinesSnoc(decode, lines[..i], lines[i]);
      if lines[i] == "" {
        assert Trim("") == "";
      } else {
        p := ParseLine(p, decode(lines[i]));
      }
    }
    assert lines[..|lines|] == lines;
  }

  // --- Which lines the streamer keeps ---

  /** The progress code of an assistant line throws after the line has been kept. */
  predicate Unreadable(m: Message) {
    exists i | 0 <= i < |m.content| :: m.content[i].ToolUse? && !m.content[i].readable
  }

  predicate StreamSeen(decode: string -> Decoded, before: seq<string>) {
    exists i | 0 <= i < |before| :: Trim(before[i]) != "" && decode(before[i]).Stream?
  }

  /** How many copies of a line reach the output. Only before the first stream event does the
      streamer look inside assistant messages, and there an unreadable one is kept twice. */
  function Copies(decode: string -> Decoded, before: seq<string>, line: string): nat {
    if Trim(line) == "" then 0
    else
      match decode(line)
      case Stream(e) => if e.Broken? then 1 else 0
      case Notice => 0
      case Assistant(m) => if !StreamSeen(decode, before) && Unreadable(m) then 2 else 1
      case _ => 1
  }

  function Repeat(line: string, n: nat): (r: seq<string>)
    ensures |r| == n && forall i | 0 <= i < n :: r[i] == line
  {
    if n == 0 then [] else [line] + Repeat(line, n - 1)
  }

  function KeptLines(decode: string -> Decoded, lines: seq<string>): seq<string> {
    if lines == [] then []
    else KeptLines(decode, Init(lines)) + Repeat(Last(lines), Copies(decode, Init(lines), Last(lines)))
  }

  // --- The streamer ---

  datatype ActiveBlock = ActiveBlock(kind: BlockKind, text: string, inputJson: string)

  datatype Emission = Emission(textDelta: string, textSoFar: string)

  datatype StreamState = StreamState(
    outputLines: seq<string>, hasStreamEvents: bool, turnCount: nat,
    fullResponseText: string, pendingTextDelta: string, emissions: seq<Emission>,
    activeBlocks: map<int, ActiveBlock>, activeSubagents: set<int>)

  const START := StreamState([], false, 0, "", "", [], map[], {})

  function Emit(s: StreamState): StreamState {
    s.(emissions := s.emissions + [Emission(s.pendingTextDelta, s.fullResponseText)], pendingTextDelta := "")
  }

  /** `late` says that at least 150 ms have passed since the last emission. */
  function MaybeEmit(s: StreamState, late: bool): StreamState {
    if |s.pendingTextDelta| >= 1 || late then Emit(s) else s
  }

  function AddText(s: StreamState, text: string): StreamState {
    s.(fullResponseText := s.fullResponseText + text, pendingTextDelta := s.pendingTextDelta + text)
  }

  function OnEvent(s: StreamState, e: StreamEvent, late: bool): StreamState {
    match e
    case MessageStart =>
      var t := if s.turnCount >= 1 && s.fullResponseText != "" then AddText(s, "\n\n") else s;
      t.(turnCount := t.turnCount + 1, activeBlocks := map[], activeSubagents := {})
    case BlockStart(idx, kind, text) =>
      s.(activeBlocks := s.activeBlocks[idx := ActiveBlock(kind, text, "")])
    case TextDelta(idx, text) =>
      if idx !in s.activeBlocks then s
      else
        var b := s.activeBlocks[idx];
        MaybeEmit(AddText(s, text), late).(activeBlocks := s.activeBlocks[idx := b.(text := b.text + text)])
    case InputDelta(idx, json) =>
      if idx !in s.activeBlocks then s
      else
        var b := s.activeBlocks[idx];
        s.(activeBlocks := s.activeBlocks[idx := b.(inputJson := b.inputJson + json)])
    case BlockStop(idx, startsSubagent) =>
      if idx !in s.activeBlocks then s
      else
        var b := s.activeBlocks[idx];
        if b.kind.ToolKind? && b.inputJson != "" then
          (if startsSubagent then s.(activeSubagents := s.activeSubagents + {idx}) else s)
        else if b.kind.TextKind? && Trim(b.text) != "" && s.pendingTextDelta != "" then Emit(s)
        else s
    case OtherEvent => s
    case Broken => s
  }

  function Keep(s: StreamState, line: string): StreamState {
    s.(outputLines := s.outputLines + [line])
  }

  function OnLine(decode: string -> Decoded, s: StreamState, line: string, late: bool): StreamState {
    if Trim(line) == "" then s
    else
      match decode(line)
      case Stream(e) =>
        var t := OnEvent(s.(hasStreamEvents := true), e, late);
        if e.Broken? then Keep(t, line) else t
      case Notice => s
      case Assistant(m) =>
        if s.hasStreamEvents then Keep(s, line)
        else
          var t := Keep(s, line).(turnCount := s.turnCount + (if m.usage.Some? then 1 else 0));
          if Unreadable(m) then Keep(t, line) else t
      case _ => Keep(s, line)
  }

  function StreamLines(decode: string -> Decoded, late: nat -> bool, lines: seq<string>): StreamState {
    FoldLines((s, line, k) => OnLine(decode, s, line, late(k)), START, lines)
  }

  /** The text handed on: the kept lines and, unless it is blank, the unterminated last line. */
  function Output(decode: string -> Decoded, late: nat -> bool, text: string): string {
    var s := StreamLines(decode, late, Lines(text));
    Join(if Trim(Rest(text)) != "" then s.outputLines + [Rest(text)] else s.outputLines, "\n")
  }

  /** Reads the tool inputs of an assistant message for a progress line, as far as it can. */
  method ReadDetails(blocks: seq<Block>) returns (threw: bool)
    ensures threw <==> exists i | 0 <= i < |blocks| :: blocks[i].ToolUse? && !blocks[i].readable
  {
    for i := 0 to |blocks|
      invariant forall k | 0 <= k < i :: !blocks[k].ToolUse? || blocks[k].readable
    {
      if blocks[i].ToolUse? && !blocks[i].readable { return true; }
    }
    threw := false;
  }

  /** The progress callback with the pending text, if there is any or 150 ms have passed. */
  method MaybeEmitTextProgress(s: StreamState, late: bool) returns (t: StreamState)
    ensures t == MaybeEmit(s, late)
  {
    t := s;
    if |t.pendingTextDelta| >= 1 || late {
      t := t.(emissions := t.emissions + [Emission(t.pendingTextDelta, t.fullResponseText)]);
      t := t.(pendingTextDelta := "");
    }
  }

  /** One stream event, as far as text, blocks, turns and subagents go. */
  method HandleEvent(s: StreamState, e: StreamEvent, late: bool) returns (t: StreamState)
    ensures t == OnEvent(s, e, late)
  {
    t := s;
    match e {
      case MessageStart =>
        t := t.(activeSubagents := {});
        if t.turnCount >= 1 && |t.fullResponseText| > 0 {
          t := t.(fullResponseText := t.fullResponseText + "\n\n");
          t := t.(pendingTextDelta := t.pendingTextDelta + "\n\n");
        }
        t := t.(turnCount := t.turnCount + 1);
        t := t.(activeBlocks := map[]);
      case BlockStart(idx, kind, text) =>
        t := t.(activeBlocks := t.activeBlocks[idx := ActiveBlock(kind, text, "")]);
      case TextDelta(idx, text) =>
        if idx in t.activeBlocks {
          var block := t.activeBlocks[idx];
          t := t.(activeBlocks := t.activeBlocks[idx := block.(text := block.text + text)]);
          t := t.(fullResponseText := t.fullResponseText + text);
          t := t.(pendingTextDelta := t.pendingTextDelta + text);
          t := MaybeEmitTextProgress(t, late);
        }
      case InputDelta(idx, json) =>
        if idx in t.activeBlocks {
          var block := t.activeBlocks[idx];
          t := t.(activeBlocks := t.activeBlocks[idx := block.(inputJson := block.inputJson + json)]);
        }
      case BlockStop(idx, startsSubagent) =>
        if idx in t.activeBlocks {
          var block := t.activeBlocks[idx];
          if block.kind.ToolKind? && block.inputJson != "" {
            if startsSubagent { t := t.(activeSubagents := t.activeSubagents + {idx}); }
          } else if block.kind.TextKind? && Trim(block.text) != "" {
            if t.pendingTextDelta != "" {
              t := t.(emissions := t.emissions + [Emission(t.pendingTextDelta, t.fullResponseText)]);
              t := t.(pendingTextDelta := "");
            }
          }
        }
      case OtherEvent =>
      case Broken =>
    }
  }

  method HandleLine(decode: string -> Decoded, s: StreamState, line: string, late: bool) returns (t: StreamState)
    ensures t == OnLine(decode, s, line, late)
  {
    t := s;
    if Trim(line) == "" { return; }
    match decode(line) {
      case Stream(e) =>
        t := t.(hasStreamEvents := true);
        t := HandleEvent(t, e, late);
        if e.Broken? { t := t.(outputLines := t.outputLines + [line]); }
      case Notice =>
      case Assistant(m) =>
        t := t.(outputLines := t.outputLines + [line]);
        if !t.hasStreamEvents {
          if m.usage.Some? { t := t.(turnCount := t.turnCount + 1); }
          var threw := ReadDetails(m.content);
          if threw { t := t.(outputLines := t.outputLines + [line]); }
        }
      case _ =>
        t := t.(outputLines := t.outputLines + [line]);
    }
  }

  /** `streamCLIOutput` on a stream that does not stall. */
  method StreamCLIOutput(decode: string -> Decoded, late: nat -> bool, chunks: seq<string>)
    returns (output: string, s: StreamState)
    ensures s == StreamLines(decode, late, Lines(Concat(chunks)))
    ensures output == Output(decode, late, Concat(chunks))
  {
    var buffer := "";
    s := START;
    var count := 0;
    for i := 0 to |chunks|
      invariant buffer == Rest(Concat(chunks[..i]))
      invariant s == StreamLines(decode, late, Lines(Concat(chunks[..i])))
      invariant count == |Lines(Concat(chunks[..i]))|
    {
      ghost var seen := Concat(chunks[..i]);
      FeedChunk(seen, chunks[i]);
      ConcatOneMore(chunks, i);
      var parts := Split(buffer + chunks[i], '\n');
      buffer := parts[|parts| - 1];
      parts := parts[..|parts| - 1];
      s := HandleLines(decode, late, Lines(seen), s, count, parts);
      count := count + |parts|;
    }
    assert chunks[..|chunks|] == chunks;
    var outputLines := s.outputLines;
    if Trim(buffer) != "" { outputLines := outputLines + [buffer]; }
    output := Join(outputLines, "\n");
  }

  method HandleLines(decode: string -> Decoded, late: nat -> bool, ghost earlier: seq<string>,
                     before: StreamState, count: nat, parts: seq<string>)
    returns (s: StreamState)
    requires before == StreamLines(decode, late, earlier) && count == |earlier|
    ensures s == StreamLines(decode, late, earlier + parts)
  {
    s := before;
    assert earlier + parts[..0] == earlier;
    for j := 0 to |parts|
      invariant s == StreamLines(decode, late, earlier + parts[..j])
    {
      FoldOneMore((s, line, k) => OnLine(decode, s, line, late(k)), START, earlier, parts, j);
      s := HandleLine(decode, s, parts[j], late(count + j));
    }
    assert earlier + parts[..|parts|] == earlier + parts;
  }

  // --- The streamer keeps exactly `KeptLines` ---

  lemma {:induction false} EventKeepsOutput(s: StreamState, e: StreamEvent, late: bool)
    ensures OnEvent(s, e, late).outputLines == s.outputLines
    ensures OnEvent(s, e, late).hasStreamEvents == s.hasStreamEvents
  {
  }

  lemma {:induction false} LineKeeps(decode: string -> Decoded, s: StreamState, before: seq<string>, line: string,
      late: bool)
    requires s.hasStreamEvents == StreamSeen(decode, before)
    ensures OnLine(decode, s, line, late).outputLines == s.outputLines + Repeat(line, Copies(decode, before, line))
    ensures OnLine(decode, s, line, late).hasStreamEvents == StreamSeen(decode, before + [line])
  {
    StreamSeenSnoc(decode, before, line);
    assert Repeat(line, 0) == [] && Repeat(line, 1) == [line] && Repeat(line, 2) == [line] + [line];
    if decode(line).Stream? {
      EventKeepsOutput(s.(hasStreamEvents := true), decode(line).event, late);
    }
  }

  lemma {:induction false} StreamSeenSnoc(decode: string -> Decoded, before: seq<string>, line: string)
    ensures StreamSeen(decode, before + [line]) <==>
            StreamSeen(decode, before) || (Trim(line) != "" && decode(line).Stream?)
  {
    var all := before + [line];
    if StreamSeen(decode, before) {
      var i :| 0 <= i < |before| && Trim(before[i]) != "" && decode(before[i]).Stream?;
      assert all[i] == before[i];
    }
    assert all[|before|] == line;
  }

  /** The streamer keeps the declared number of copies of every line, in order. */
  lemma {:induction false} KeepsExactly(decode: string -> Decoded, late: nat -> bool, lines: seq<string>)
    ensures StreamLines(decode, late, lines).outputLines == KeptLines(decode, lines)
    ensures StreamLines(decode, late, lines).hasStreamEvents == StreamSeen(decode, lines)
  {
    if lines != [] {
      KeepsExactly(decode, late, Init(lines));
      LineKeeps(decode, StreamLines(decode, late, Init(lines)), Init(lines), Last(lines), late(|lines| - 1));
      assert lines == Init(lines) + [Last(lines)];
    }
  }

  // --- Parsing the filtered text is parsing the whole text ---

  /** The raw lines, with every line that the streamer keeps twice standing twice. */
  function Doubled(decode: string -> Decoded, lines: seq<string>): seq<string> {
    if lines == [] then []
    else
      Doubled(decode, Init(lines)) +
      Repeat(Last(lines), if Copies(decode, Init(lines), Last(lines)) == 2 then 2 else 1)
  }

  /** Line `i` is an unreadable assistant message and no stream event precedes it. */
  predicate TwiceAt(decode: string -> Decoded, lines: seq<string>, i: nat)
    requires i < |lines|
  {
    Copies(decode, lines[..i], lines[i]) == 2
  }

  ghost predicate NoneDoubled(decode: string -> Decoded, lines: seq<string>) {
    forall i | 0 <= i < |lines| :: !TwiceAt(decode, lines, i)
  }

  lemma {:induction false} ParseRepeat(decode: string -> Decoded, before: seq<string>, line: string)
    ensures ParseLines(decode, before + Repeat(line, 0)) == ParseLines(decode, before)
    ensures ParseLines(decode, before + Repeat(line, 1)) == ParseDecoded(ParseLines(decode, before), decode(line))
    ensures ParseLines(decode, before + Repeat(line, 2)) ==
            ParseDecoded(ParseDecoded(ParseLines(decode, before), decode(line)), decode(line))
  {
    assert before + Repeat(line, 0) == before;
    assert before + Repeat(line, 1) == before + [line];
    assert before + Repeat(line, 2) == before + [line] + [line];
    ParseLinesSnoc(decode, before, line);
    ParseLinesSnoc(decode, before + [line], line);
  }

  lemma {:induction false} CopiesRange(decode: string -> Decoded, before: seq<string>, line: string)
    requires BlankIsNotJson(decode)
    ensures Copies(decode, before, line) <= 2
    ensures Copies(decode, before, line) == 0 ==> forall p :: ParseDecoded(p, decode(line)) == p
  {
  }

  lemma {:induction false} KeptLinesParse(decode: string -> Decoded, lines: seq<string>)
    requires BlankIsNotJson(decode)
    ensures ParseLines(decode, KeptLines(decode, lines)) == ParseLines(decode, Doubled(decode, lines))
  {
    if lines != [] {
      var before, line := Init(lines), Last(lines);
      KeptLinesParse(decode, before);
      CopiesRange(decode, before, line);
      ParseRepeat(decode, KeptLines(decode, before), line);
      ParseRepeat(decode, Doubled(decode, before), line);
    }
  }

  lemma {:induction false} KeptWithoutNewline(decode: string -> Decoded, lines: seq<string>)
    requires Without(lines, '\n')
    ensures Without(KeptLines(decode, lines), '\n')
  {
    if lines != [] {
      KeptWithoutNewline(decode, Init(lines));
    }
  }

  /** Re-reading the lines that were joined gives the same lines back, as far as the parser sees. */
  lemma {:induction false} JoinedLinesParse(decode: string -> Decoded, lines: seq<string>)
    requires BlankIsNotJson(decode) && Without(lines, '\n')
    ensures ParseText(decode, Join(lines, "\n")) == ParseLines(decode, lines)
  {
    if lines == [] {
      assert Trim("") == "";
      ParseLinesSnoc(decode, [], "");
      assert Split("", '\n') == [] + [""];
    } else {
      SplitJoin(lines, '\n');
    }
  }

  lemma {:induction false} WithRestParse(decode: string -> Decoded, kept: seq<string>, doubled: seq<string>,
      rest: string)
    requires BlankIsNotJson(decode) && Without(kept, '\n') && '\n' !in rest
    requires ParseLines(decode, kept) == ParseLines(decode, doubled)
    ensures ParseText(decode, Join(kept + [rest], "\n")) == ParseLines(decode, doubled + [rest])
  {
    JoinedLinesParse(decode, kept + [rest]);
    ParseLinesSnoc(decode, kept, rest);
    ParseLinesSnoc(decode, doubled, rest);
  }

  lemma {:induction false} BlankRestParse(decode: string -> Decoded, kept: seq<string>, doubled: seq<string>,
      rest: string)
    requires BlankIsNotJson(decode) && Without(kept, '\n') && Trim(rest) == ""
    requires ParseLines(decode, kept) == ParseLines(decode, doubled)
    ensures ParseText(decode, Join(kept, "\n")) == ParseLines(decode, doubled + [rest])
  {
    JoinedLinesParse(decode, kept);
    ParseLinesSnoc(decode, doubled, rest);
  }

  /** For every text: parsing what the streamer hands on is parsing the raw text with the doubled
      lines standing twice. */
  lemma {:induction false} OutputParse(decode: string -> Decoded, late: nat -> bool, text: string)
    requires BlankIsNotJson(decode)
    ensures ParseText(decode, Output(decode, late, text)) ==
            ParseLines(decode, Doubled(decode, Lines(text)) + [Rest(text)])
  {
    var lines, rest := Lines(text), Rest(text);
    KeepsExactly(decode, late, lines);
    KeptLinesParse(decode, lines);
    SplitFacts(text, '\n');
    KeptWithoutNewline(decode, lines);
    if Trim(rest) != "" {
      WithRestParse(decode, KeptLines(decode, lines), Doubled(decode, lines), rest);
    } else {
      BlankRestParse(decode, KeptLines(decode, lines), Doubled(decode, lines), rest);
    }
  }

  // --- Exactly when the parse survives ---

  /** The non-empty text blocks. */
  function Texts(blocks: seq<Block>): nat {
    if blocks == [] then 0
    else
      var b := blocks[|blocks| - 1];
      Texts(blocks[..|blocks| - 1]) + if b.TextBlock? && b.text != "" then 1 else 0
  }

  /** What of a line the parser adds up: tokens in, tokens out and texts. */
  function LineWeight(decode: string -> Decoded, line: string): nat {
    match decode(line)
    case Assistant(m) =>
      (if m.usage.Some? then TurnTokensIn(m.usage.value) + m.usage.value.output else 0) + Texts(m.content)
    case _ => 0
  }

  function WeightOf(decode: string -> Decoded, lines: seq<string>): nat {
    if lines == [] then 0 else WeightOf(decode, Init(lines)) + LineWeight(decode, Last(lines))
  }

  function Weight(p: ParseState): nat {
    p.tokensIn + p.tokensOut + |p.allTextParts|
  }

  lemma {:induction false} BlocksWeigh(p: ParseState, blocks: seq<Block>)
    ensures Weight(TakeBlocks(p, blocks)) == Weight(p) + Texts(blocks)
  {
    if blocks != [] {
      BlocksWeigh(p, blocks[..|blocks| - 1]);
    }
  }

  lemma {:induction false} LineWeighs(decode: string -> Decoded, p: ParseState, line: string)
    ensures Weight(ParseDecoded(p, decode(line))) == Weight(p) + LineWeight(decode, line)
  {
    var d := decode(line);
    if d.Assistant? {
      BlocksWeigh(CountUsage(p, d.message.usage), d.message.content);
    }
  }

  /** Tokens and texts are summed over the lines: nothing is lost and nothing counted twice. */
  lemma {:induction false} WeightsAreSummed(decode: string -> Decoded, lines: seq<string>)
    ensures Weight(ParseLines(decode, lines)) == WeightOf(decode, lines)
  {
    if lines != [] {
      WeightsAreSummed(decode, Init(lines));
      LineWeighs(decode, ParseLines(decode, Init(lines)), Last(lines));
    }
  }

  lemma {:induction false} WeightSnoc(decode: string -> Decoded, before: seq<string>, line: string)
    ensures WeightOf(decode, before + [line]) == WeightOf(decode, before) + LineWeight(decode, line)
  {
  }

  lemma {:induction false} DoubledWeight(decode: string -> Decoded, lines: seq<string>)
    ensures WeightOf(decode, Doubled(decode, lines)) >= WeightOf(decode, lines)
    ensures WeightOf(decode, Doubled(decode, lines)) == WeightOf(decode, lines) <==> DoublesWeightless(decode, lines)
  {
    if lines != [] {
      var before, line := Init(lines), Last(lines);
      DoubledWeight(decode, before);
      var ds := Doubled(decode, before);
      assert Repeat(line, 1) == [line] && ds + Repeat(line, 2) == ds + [line] + [line];
      WeightSnoc(decode, ds, line);
      WeightSnoc(decode, ds + [line], line);
      WeightlessInit(decode, lines);
    }
  }

  /** Every line that is kept twice reports no tokens and carries no text. */
  ghost predicate DoublesWeightless(decode: string -> Decoded, lines: seq<string>) {
    forall i | 0 <= i < |lines| && TwiceAt(decode, lines, i) :: LineWeight(decode, lines[i]) == 0
  }

  lemma {:induction false} WeightlessInit(decode: string -> Decoded, lines: seq<string>)
    requires lines != []
    ensures DoublesWeightless(decode, lines) <==>
            DoublesWeightless(decode, Init(lines))
            && (Copies(decode, Init(lines), Last(lines)) == 2 ==> LineWeight(decode, Last(lines)) == 0)
  {
    var before := Init(lines);
    assert TwiceAt(decode, lines, |before|) <==> Copies(decode, before, Last(lines)) == 2;
    forall i | 0 <= i < |before| ensures TwiceAt(decode, before, i) <==> TwiceAt(decode, lines, i) {
      assert before[..i] == lines[..i];
    }
  }

  /** What blocks without text do: collect tool names and move in and out of plan mode. */
  function ToolNames(blocks: seq<Block>): set<string> {
    if blocks == [] then {}
    else
      var b := blocks[|blocks| - 1];
      ToolNames(blocks[..|blocks| - 1]) + if b.ToolUse? && b.name != "" then {b.name} else {}
  }

  function PlanModeAfter(blocks: seq<Block>, before: bool): bool {
    if blocks == [] then before
    else
      var b := blocks[|blocks| - 1];
      if b.ToolUse? && b.name == "EnterPlanMode" then true
      else if b.ToolUse? && b.name == "ExitPlanMode" then false
      else PlanModeAfter(blocks[..|blocks| - 1], before)
  }

  function Exits(blocks: seq<Block>): bool {
    blocks != [] &&
    (Exits(blocks[..|blocks| - 1])
     || (blocks[|blocks| - 1].ToolUse? && blocks[|blocks| - 1].name == "ExitPlanMode"))
  }

  function AfterTools(p: ParseState, blocks: seq<Block>): ParseState {
    p.(toolsUsed := p.toolsUsed + ToolNames(blocks),
       inPlanMode := PlanModeAfter(blocks, p.inPlanMode),
       exitedPlanMode := p.exitedPlanMode || Exits(blocks))
  }

  lemma {:induction false} TextlessBlocks(p: ParseState, blocks: seq<Block>)
    requires Texts(blocks) == 0
    ensures TakeBlocks(p, blocks) == AfterTools(p, blocks)
  {
    if blocks == [] {
      assert p.toolsUsed + ToolNames(blocks) == p.toolsUsed;
    } else {
      var before := blocks[..|blocks| - 1];
      TextlessBlocks(p, before);
      assert p.toolsUsed + ToolNames(before) + {} == p.toolsUsed + ToolNames(before);
    }
  }

  lemma {:induction false} PlanModeTwice(blocks: seq<Block>, before: bool)
    ensures PlanModeAfter(blocks, PlanModeAfter(blocks, before)) == PlanModeAfter(blocks, before)
  {
    if blocks != [] {
      PlanModeTwice(blocks[..|blocks| - 1], before);
    }
  }

  lemma {:induction false} WeightlessTwice(decode: string -> Decoded, p: ParseState, line: string)
    requires LineWeight(decode, line) == 0
    ensures var d := decode(line); ParseDecoded(ParseDecoded(p, d), d) == ParseDecoded(p, d)
  {
    var d := decode(line);
    if d.Assistant? {
      var blocks := d.message.content;
      var q := CountUsage(p, d.message.usage);
      TextlessBlocks(q, blocks);
      TextlessBlocks(CountUsage(AfterTools(q, blocks), d.message.usage), blocks);
      PlanModeTwice(blocks, q.inPlanMode);
      assert q.toolsUsed + ToolNames(blocks) + ToolNames(blocks) == q.toolsUsed + ToolNames(blocks);
    }
  }

  lemma {:induction false} WeightlessDoubles(decode: string -> Decoded, lines: seq<string>)
    requires DoublesWeightless(decode, lines)
    ensures ParseLines(decode, Doubled(decode, lines)) == ParseLines(decode, lines)
  {
    if lines != [] {
      var before, line := Init(lines), Last(lines);
      WeightlessInit(decode, lines);
      WeightlessDoubles(decode, before);
      ParseRepeat(decode, Doubled(decode, before), line);
      if Copies(decode, before, line) == 2 {
        WeightlessTwice(decode, ParseLines(decode, before), line);
      }
    }
  }

  /** Parsing the filtered output gives the result of parsing the raw text exactly when every line that
      is kept twice reports no tokens and carries no text. */
  lemma {:induction false} FilterPreservesIff(decode: string -> Decoded, late: nat -> bool, text: string)
    requires BlankIsNotJson(decode)
    ensures ParseText(decode, Output(decode, late, text)) == ParseText(decode, text) <==>
            DoublesWeightless(decode, Lines(text))
  {
    var lines, rest := Lines(text), Rest(text);
    OutputParse(decode, late, text);
    SplitIsLinesAndRest(text);
    ParseLinesSnoc(decode, Doubled(decode, lines), rest);
    ParseLinesSnoc(decode, lines, rest);
    WeightsAreSummed(decode, Doubled(decode, lines) + [rest]);
    WeightsAreSummed(decode, lines + [rest]);
    WeightSnoc(decode, Doubled(decode, lines), rest);
    WeightSnoc(decode, lines, rest);
    DoubledWeight(decode, lines);
    if DoublesWeightless(decode, lines) {
      WeightlessDoubles(decode, lines);
    }
  }

  /** In particular, dropping the stream, system and rate-limit lines changes nothing the parser
      computes if no unreadable assistant line comes before the first stream event. */
  lemma {:induction false} FilterPreservesParse(decode: string -> Decoded, late: nat -> bool, text: string)
    requires BlankIsNotJson(decode) && NoneDoubled(decode, Lines(text))
    ensures ParseText(decode, Output(decode, late, text)) == ParseText(decode, text)
  {
    FilterPreservesIff(decode, late, text);
  }

  function OddLine(line: string): Decoded {
    if line == "x" then Assistant(Message(Some(Usage(1, 0, 0, 0)), [ToolUse("Bash", false)])) else NotJson
  }

  lemma {:induction false} OneOddLine()
    ensures Split("x\n", '\n') == ["x", ""] && Lines("x\n") == ["x"] && Rest("x\n") == ""
    ensures Doubled(OddLine, ["x"]) == ["x", "x"]
  {
    assert "x\n" == "x" + (['\n'] + "");
    SplitAtSep("x", "", '\n');
    TrimOfTrimmed("x");
    assert OddLine("x").message.content[0].ToolUse?;
    assert Unreadable(OddLine("x").message);
    assert Init(["x"]) == [];
    assert Repeat("x", 2) == ["x", "x"];
  }

  lemma {:induction false} OddTokens(p: ParseState)
    ensures ParseDecoded(p, OddLine("x")).tokensIn == p.tokensIn + 1
    ensures ParseDecoded(p, OddLine("")) == p
  {
    var blocks := [ToolUse("Bash", false)];
    assert blocks[..0] == [];
    assert TakeBlocks(CountUsage(p, Some(Usage(1, 0, 0, 0))), blocks).tokensIn == p.tokensIn + 1;
  }

  lemma {:induction false} OddTotals()
    ensures ParseLines(OddLine, ["x", ""]).tokensIn == 1
    ensures ParseLines(OddLine, ["x", "x"]).tokensIn == 2 && ParseLines(OddLine, ["x", "x", ""]).tokensIn == 2
  {
    OddTokens(FRESH);
    OddTokens(ParseLines(OddLine, ["x"]));
    OddTokens(ParseLines(OddLine, ["x", "x"]));
    ParseLinesSnoc(OddLine, [], "x");
    ParseLinesSnoc(OddLine, ["x"], "x");
    ParseLinesSnoc(OddLine, ["x"], "");
    ParseLinesSnoc(OddLine, ["x", "x"], "");
  }

  /** One unreadable tool input and no stream events: its tokens are counted twice. */
  lemma {:induction false} TokensCountedTwice(late: nat -> bool)
    ensures ParseText(OddLine, "x\n").tokensIn == 1
    ensures ParseText(OddLine, Output(OddLine, late, "x\n")).tokensIn == 2
  {
    OneOddLine();
    forall s: string | Trim(s) == "" ensures OddLine(s) == NotJson {
      TrimOfTrimmed("x");
    }
    OutputParse(OddLine, late, "x\n");
    OddTotals();
  }

  // --- Text reported while streaming ---

  function DeltaTexts(es: seq<Emission>): seq<string> {
    seq(|es|, i requires 0 <= i < |es| => es[i].textDelta)
  }

  ghost predicate TextConserved(s: StreamState) {
    && Concat(DeltaTexts(s.emissions)) + s.pendingTextDelta == s.fullResponseText
    && (forall i | 0 <= i < |s.emissions| ::
          s.emissions[i].textSoFar == Concat(DeltaTexts(s.emissions[..i + 1])))
    && (forall c | c in s.pendingTextDelta :: c == '\n')
  }

  lemma {:induction false} EmitConserves(s: StreamState)
    requires Concat(DeltaTexts(s.emissions)) + s.pendingTextDelta == s.fullResponseText
    requires forall i | 0 <= i < |s.emissions| ::
               s.emissions[i].textSoFar == Concat(DeltaTexts(s.emissions[..i + 1]))
    ensures TextConserved(Emit(s))
  {
    var es := s.emissions + [Emission(s.pendingTextDelta, s.fullResponseText)];
    assert DeltaTexts(es) == DeltaTexts(s.emissions) + [s.pendingTextDelta];
    ConcatSnoc(DeltaTexts(s.emissions), s.pendingTextDelta);
    forall i | 0 <= i < |es| ensures es[i].textSoFar == Concat(DeltaTexts(es[..i + 1])) {
      if i < |s.emissions| {
        assert es[..i + 1] == s.emissions[..i + 1];
      } else {
        assert es[..i + 1] == es;
      }
    }
  }

  lemma {:induction false} DeltaConserves(s: StreamState, text: string, late: bool)
    requires TextConserved(s)
    ensures TextConserved(MaybeEmit(AddText(s, text), late))
  {
    var t := AddText(s, text);
    EmitConserves(t);
    if |t.pendingTextDelta| < 1 && !late {
      assert text == "" && t.fullResponseText == s.fullResponseText;
    }
  }

  lemma {:induction false} EventConserves(s: StreamState, e: StreamEvent, late: bool)
    requires TextConserved(s)
    ensures TextConserved(OnEvent(s, e, late))
  {
    if e.TextDelta? {
      DeltaConserves(s, e.text, late);
    } else if e.BlockStop? {
      EmitConserves(s);
    }
  }

  lemma {:induction false} LineConserves(decode: string -> Decoded, s: StreamState, line: string, late: bool)
    requires TextConserved(s)
    ensures TextConserved(OnLine(decode, s, line, late))
  {
    if decode(line).Stream? {
      EventConserves(s.(hasStreamEvents := true), decode(line).event, late);
    }
  }

  /** After every line, the deltas handed to the channel and the delta still held back make up the
      full text; every emission's text is the sum of the deltas up to it; and only paragraph breaks
      are ever held back. */
  lemma {:induction false} NoTextWithheld(decode: string -> Decoded, late: nat -> bool, lines: seq<string>)
    ensures TextConserved(StreamLines(decode, late, lines))
  {
    if lines == [] {
      assert DeltaTexts([]) == [];
    } else {
      NoTextWithheld(decode, late, Init(lines));
      LineConserves(decode, StreamLines(decode, late, Init(lines)), Last(lines), late(|lines| - 1));
    }
  }

  // --- What the full text is ---

  /** What a line means for the text: a stream event, an assistant message that counts as a turn
      because no stream event has been seen yet, or nothing. */
  datatype Item = Event(event: StreamEvent) | PlainTurn | Nothing

  function ItemOf(decode: string -> Decoded, before: seq<string>, line: string): Item {
    if Trim(line) == "" then Nothing
    else
      match decode(line)
      case Stream(e) => Event(e)
      case Assistant(m) => if m.usage.Some? && !StreamSeen(decode, before) then PlainTurn else Nothing
      case _ => Nothing
  }

  function Items(decode: string -> Decoded, lines: seq<string>): seq<Item> {
    if lines == [] then []
    else Items(decode, Init(lines)) + [ItemOf(decode, Init(lines), Last(lines))]
  }

  function Turns(items: seq<Item>): nat {
    if items == [] then 0
    else
      var last := items[|items| - 1];
      Turns(items[..|items| - 1]) + (if last == PlainTurn || last == Event(MessageStart) then 1 else 0)
  }

  /** A content block that has started since the last message start. */
  predicate BlockOpen(items: seq<Item>, idx: int) {
    items != [] &&
    match items[|items| - 1]
    case Event(MessageStart) => false
    case Event(BlockStart(i, _, _)) => i == idx || BlockOpen(items[..|items| - 1], idx)
    case _ => BlockOpen(items[..|items| - 1], idx)
  }

  /** The text deltas of open blocks, with a paragraph break where a later turn begins. */
  function FullText(items: seq<Item>): string {
    if items == [] then ""
    else
      var before := items[..|items| - 1];
      match items[|items| - 1]
      case Event(MessageStart) =>
        if Turns(before) >= 1 && FullText(before) != "" then FullText(before) + "\n\n" else FullText(before)
      case Event(TextDelta(idx, delta)) =>
        if BlockOpen(before, idx) then FullText(before) + delta else FullText(before)
      case _ => FullText(before)
  }

  ghost predicate Reflects(items: seq<Item>, s: StreamState) {
    && s.fullResponseText == FullText(items)
    && s.turnCount == Turns(items)
    && forall idx :: idx in s.activeBlocks <==> BlockOpen(items, idx)
  }

  lemma {:induction false} EventReflects(items: seq<Item>, e: StreamEvent, s: StreamState, late: bool)
    requires Reflects(items, s)
    ensures Reflects(items + [Event(e)], OnEvent(s, e, late))
  {
  }

  /** Text, turn count and block keys after a line that is no stream event. */
  lemma {:induction false} PlainLineEffects(decode: string -> Decoded, before: seq<string>, line: string,
      s: StreamState, late: bool)
    requires s.hasStreamEvents == StreamSeen(decode, before) && !ItemOf(decode, before, line).Event?
    ensures var t := OnLine(decode, s, line, late);
            && t.fullResponseText == s.fullResponseText && t.activeBlocks == s.activeBlocks
            && t.turnCount == s.turnCount + (if ItemOf(decode, before, line).PlainTurn? then 1 else 0)
  {
  }

  lemma {:induction false} LineReflects(decode: string -> Decoded, before: seq<string>, line: string,
      s: StreamState, late: bool)
    requires Reflects(Items(decode, before), s) && s.hasStreamEvents == StreamSeen(decode, before)
    ensures Reflects(Items(decode, before) + [ItemOf(decode, before, line)], OnLine(decode, s, line, late))
  {
    var items, item := Items(decode, before), ItemOf(decode, before, line);
    if item.Event? {
      EventReflects(items, item.event, s.(hasStreamEvents := true), late);
    } else {
      PlainLineEffects(decode, before, line, s, late);
      assert (items + [item])[..|items|] == items;
    }
  }

  /** The streamed text is exactly the declared one, and so is the number of turns. */
  lemma {:induction false} StreamedTextIsFullText(decode: string -> Decoded, late: nat -> bool, lines: seq<string>)
    ensures Reflects(Items(decode, lines), StreamLines(decode, late, lines))
  {
    if lines != [] {
      StreamedTextIsFullText(decode, late, Init(lines));
      KeepsExactly(decode, late, Init(lines));
      LineReflects(decode, Init(lines), Last(lines), StreamLines(decode, late, Init(lines)), late(|lines| - 1));
    }
  }
}
