/** `streamCodexOutput` of `src/agents/invoke-cli.ts` and `parseCodexJsonOutput` of
    `src/agents/output-parsers.ts`: two independent sets of totals over the same lines. */
module CodexOutput {
  import opened Text

  datatype Usage = Usage(input: nat, cachedInput: nat, output: nat)

  datatype Phase = Started | Updated | Completed

  /** An absent text is empty; `id` is `item.id ?? "cmd-<turn>"` without the fallback. */
  datatype Item = Command(id: Option<string>) | AgentMessage(text: string) | OtherItem

  datatype Event =
    | NotJson
    | TurnStarted
    | TurnCompleted(usage: Option<Usage>)
    | ItemEvent(phase: Phase, item: Option<Item>)
    | ErrorEvent(message: Option<string>)
    | OtherEvent

  ghost predicate BlankIsNotJson(decode: string -> Event) {
    forall s: string :: Trim(s) == "" ==> decode(s) == NotJson
  }

  // --- The parser ---

  datatype ParseState = ParseState(tokensIn: nat, tokensOut: nat, turnCount: nat, textParts: seq<string>,
                                   toolsUsed: set<string>, hasError: bool, errorMessage: string)

  const FRESH := ParseState(0, 0, 0, [], {}, false, "")

  function ParseEvent(p: ParseState, e: Event): ParseState {
    match e
    case TurnCompleted(Some(u)) =>
      p.(turnCount := p.turnCount + 1,
         tokensIn := p.tokensIn + (u.input + u.cachedInput),
         tokensOut := p.tokensOut + u.output)
    case ItemEvent(_, Some(Command(_))) => p.(toolsUsed := p.toolsUsed + {"command_execution"})
    case ItemEvent(Completed, Some(AgentMessage(text))) =>
      if text == "" then p else p.(textParts := p.textParts + [text])
    case ErrorEvent(m) =>
      p.(hasError := true, errorMessage := if m.Some? then m.value else "unknown error")
    case _ => p
  }

  function ParseLines(decode: string -> Event, lines: seq<string>): ParseState {
    FoldLines((p, line, _) => ParseEvent(p, decode(line)), FRESH, lines)
  }

  function ParseText(decode: string -> Event, text: string): ParseState {
    ParseLines(decode, Split(text, '\n'))
  }

  method ParseLine(start: ParseState, parsed: Event) returns (p: ParseState)
    ensures p == ParseEvent(start, parsed)
  {
    p := start;
    if parsed.TurnCompleted? && parsed.usage.Some? {
      var u := parsed.usage.value;
      p := p.(turnCount := p.turnCount + 1);
      p := p.(tokensIn := p.tokensIn + (u.input + u.cachedInput));
      p := p.(tokensOut := p.tokensOut + u.output);
      return;
    }
    if parsed.ItemEvent? && parsed.item.Some? {
      var item := parsed.item.value;
      if item.Command? {
        p := p.(toolsUsed := p.toolsUsed + {"command_execution"});
      } else if item.AgentMessage? && parsed.phase.Completed? && item.text != "" {
        p := p.(textParts := p.textParts + [item.text]);
      }
      return;
    }
    if parsed.ErrorEvent? {
      p := p.(hasError := true);
      p := p.(errorMessage := if parsed.message.Some? then parsed.message.value else "unknown error");
    }
  }

  /** The loop of `parseCodexJsonOutput`; empty lines are skipped before decoding. */
  method ParseCodexJsonOutput(decode: string -> Event, output: string) returns (p: ParseState)
    requires BlankIsNotJson(decode)
    ensures p == ParseText(decode, output)
  {
    var lines := Split(output, '\n');
    p := FRESH;
    for i := 0 to |lines|
      invariant p == ParseLines(decode, lines[..i])
    {
      FoldSnoc((p, line, _) => ParseEvent(p, decode(line)), FRESH, lines[..i], lines[i]);
      assert lines[..i + 1] == lines[..i] + [lines[i]];
      if lines[i] == "" {
        assert Trim("") == "";
      } else {
        p := ParseLine(p, decode(lines[i]));
      }
    }
    assert lines[..|lines|] == lines;
  }

  // --- The streamer ---

  datatype Progress = Progress(textDelta: string, textSoFar: string)

  datatype StreamState = StreamState(outputLines: seq<string>, turnCount: nat, tokensIn: nat, tokensOut: nat,
                                     fullResponseText: string, progress: seq<Progress>, activeCommands: set<string>)

  const START := StreamState([], 0, 0, 0, "", [], {})

  function CommandId(s: StreamState, id: Option<string>): string {
    if id.Some? then id.value else "cmd-" + Decimal(s.turnCount)
  }

  function OnEvent(s: StreamState, e: Event): StreamState {
    match e
    case TurnStarted => s.(turnCount := s.turnCount + 1)
    case TurnCompleted(Some(u)) =>
      s.(tokensIn := s.tokensIn + (u.input + u.cachedInput), tokensOut := s.tokensOut + u.output)
    case ItemEvent(Started, Some(Command(id))) =>
      s.(activeCommands := s.activeCommands + {CommandId(s, id)})
    case ItemEvent(Completed, Some(Command(id))) =>
      s.(activeCommands := s.activeCommands - {CommandId(s, id)})
    case ItemEvent(Completed, Some(AgentMessage(text))) =>
      if text == "" then s
      else
        var full := (if |s.fullResponseText| > 0 then s.fullResponseText + "\n\n" else s.fullResponseText) + text;
        s.(fullResponseText := full,
           progress := s.progress + [Progress(if |full| == |text| then text else "\n\n" + text, full)])
    case _ => s
  }

  function OnLine(decode: string -> Event, s: StreamState, line: string): StreamState {
    if Trim(line) == "" then s
    else OnEvent(s.(outputLines := s.outputLines + [line]), decode(line))
  }

  function StreamLines(decode: string -> Event, lines: seq<string>): StreamState {
    FoldLines((s, line, _) => OnLine(decode, s, line), START, lines)
  }

  /** The text handed on: all lines but the blank ones, the unterminated last one trimmed. */
  function Output(decode: string -> Event, text: string): string {
    var rest := Trim(Rest(text));
    Join(StreamLines(decode, Lines(text)).outputLines + (if rest != "" then [rest] else []), "\n")
  }

  method HandleLine(decode: string -> Event, s: StreamState, line: string) returns (t: StreamState)
    ensures t == OnLine(decode, s, line)
  {
    t := s;
    if Trim(line) == "" { return; }
    t := t.(outputLines := t.outputLines + [line]);
    var parsed := decode(line);
    if parsed.TurnStarted? {
      t := t.(turnCount := t.turnCount + 1);
      return;
    }
    if parsed.TurnCompleted? && parsed.usage.Some? {
      var u := parsed.usage.value;
      t := t.(tokensIn := t.tokensIn + (u.input + u.cachedInput));
      t := t.(tokensOut := t.tokensOut + u.output);
      return;
    }
    if parsed.ItemEvent? && parsed.item.Some? {
      var item := parsed.item.value;
      if item.Command? {
        var commandId := CommandId(t, item.id);
        if parsed.phase.Started? {
          t := t.(activeCommands := t.activeCommands + {commandId});
          return;
        }
        if parsed.phase.Updated? { return; }
        t := t.(activeCommands := t.activeCommands - {commandId});
        return;
      }
      if item.AgentMessage? && parsed.phase.Completed? && item.text != "" {
        if |t.fullResponseText| > 0 {
          t := t.(fullResponseText := t.fullResponseText + "\n\n");
        }
        t := t.(fullResponseText := t.fullResponseText + item.text);
        var delta := if |t.fullResponseText| == |item.text| then item.text else "\n\n" + item.text;
        t := t.(progress := t.progress + [Progress(delta, t.fullResponseText)]);
      }
    }
  }

  /** `streamCodexOutput` on a stream that does not stall. */
  method StreamCodexOutput(decode: string -> Event, chunks: seq<string>) returns (output: string, s: StreamState)
    ensures s == StreamLines(decode, Lines(Concat(chunks)))
    ensures output == Output(decode, Concat(chunks))
  {
    var buffer := "";
    s := START;
    for i := 0 to |chunks|
      invariant buffer == Rest(Concat(chunks[..i]))
      invariant s == StreamLines(decode, Lines(Concat(chunks[..i])))
    {
      ghost var seen := Concat(chunks[..i]);
      FeedChunk(seen, chunks[i]);
      ConcatOneMore(chunks, i);
      var parts := Split(buffer + chunks[i], '\n');
      buffer := parts[|parts| - 1];
      parts := parts[..|parts| - 1];
      s := HandleLines(decode, Lines(seen), s, parts);
    }
    assert chunks[..|chunks|] == chunks;
    var outputLines := s.outputLines;
    if Trim(buffer) != "" { outputLines := outputLines + [Trim(buffer)]; }
    output := Join(outputLines, "\n");
    assert s.outputLines + [] == s.outputLines;
  }

  method HandleLines(decode: string -> Event, ghost earlier: seq<string>, before: StreamState, parts: seq<string>)
    returns (s: StreamState)
    requires before == StreamLines(decode, earlier)
    ensures s == StreamLines(decode, earlier + parts)
  {
    s := before;
    assert earlier + parts[..0] == earlier;
    for j := 0 to |parts|
      invariant s == StreamLines(decode, earlier + parts[..j])
    {
      FoldOneMore((s, line, _) => OnLine(decode, s, line), START, earlier, parts, j);
      s := HandleLine(decode, s, parts[j]);
    }
    assert earlier + parts[..|parts|] == earlier + parts;
  }

  // --- The two sets of totals agree ---

  function DeltaTexts(ps: seq<Progress>): seq<string> {
    seq(|ps|, i requires 0 <= i < |ps| => ps[i].textDelta)
  }

  ghost predicate Agree(s: StreamState, p: ParseState) {
    && s.tokensIn == p.tokensIn && s.tokensOut == p.tokensOut
    && s.fullResponseText == Join(p.textParts, "\n\n")
    && (s.fullResponseText == "" <==> p.textParts == [])
    && Concat(DeltaTexts(s.progress)) == s.fullResponseText
    && |s.progress| == |p.textParts|
    && (forall i | 0 <= i < |s.progress| :: SumsUp(s.progress, i))
  }

  /** The text reported with a delta is the sum of the deltas up to it. */
  ghost predicate SumsUp(ps: seq<Progress>, i: nat)
    requires i < |ps|
  {
    ps[i].textSoFar == Concat(DeltaTexts(ps[..i + 1]))
  }

  lemma {:induction false} OneMoreSumsUp(ps: seq<Progress>, last: Progress)
    requires forall i | 0 <= i < |ps| :: SumsUp(ps, i)
    requires last.textSoFar == Concat(DeltaTexts(ps)) + last.textDelta
    ensures forall i | 0 <= i < |ps| + 1 :: SumsUp(ps + [last], i)
    ensures Concat(DeltaTexts(ps + [last])) == last.textSoFar
  {
    var qs := ps + [last];
    assert DeltaTexts(qs) == DeltaTexts(ps) + [last.textDelta];
    ConcatSnoc(DeltaTexts(ps), last.textDelta);
    forall i | 0 <= i < |qs| ensures SumsUp(qs, i) {
      if i < |ps| {
        assert SumsUp(ps, i) && qs[..i + 1] == ps[..i + 1];
      } else {
        assert qs[..i + 1] == qs;
      }
    }
  }

  lemma {:induction false} MessageAgrees(s: StreamState, p: ParseState, text: string)
    requires Agree(s, p) && text != ""
    ensures var e := ItemEvent(Completed, Some(AgentMessage(text)));
            Agree(OnEvent(s, e), ParseEvent(p, e))
  {
    var e := ItemEvent(Completed, Some(AgentMessage(text)));
    var t := OnEvent(s, e);
    JoinSnoc(p.textParts, text, "\n\n");
    var last := t.progress[|s.progress|];
    assert last.textDelta == if s.fullResponseText == "" then text else "\n\n" + text;
    assert s.fullResponseText + "\n\n" + text == s.fullResponseText + ("\n\n" + text);
    OneMoreSumsUp(s.progress, last);
  }

  lemma {:induction false} EventAgrees(s: StreamState, p: ParseState, e: Event)
    requires Agree(s, p)
    ensures Agree(OnEvent(s, e), ParseEvent(p, e))
  {
    match e
    case ItemEvent(Completed, Some(AgentMessage(text))) =>
      if text != "" {
        MessageAgrees(s, p, text);
      }
    case _ =>
  }

  /** For every sequence of lines, the live token totals, text and text deltas are those the parser
      computes from the same lines. */
  lemma {:induction false} LiveTotalsAgree(decode: string -> Event, lines: seq<string>)
    requires BlankIsNotJson(decode)
    ensures Agree(StreamLines(decode, lines), ParseLines(decode, lines))
  {
    if lines == [] {
      assert DeltaTexts([]) == [];
    } else {
      LiveTotalsAgree(decode, Init(lines));
      var s, p, e := StreamLines(decode, Init(lines)), ParseLines(decode, Init(lines)), decode(Last(lines));
      EventAgrees(s.(outputLines := s.outputLines + [Last(lines)]), p, e);
    }
  }

  lemma {:induction false} EventKeepsOutput(s: StreamState, e: Event)
    ensures OnEvent(s, e).outputLines == s.outputLines
  {
  }

  lemma {:induction false} KeptLinesParse(decode: string -> Event, lines: seq<string>)
    requires BlankIsNotJson(decode) && Without(lines, '\n')
    ensures var kept := StreamLines(decode, lines).outputLines;
            ParseLines(decode, kept) == ParseLines(decode, lines) && Without(kept, '\n')
  {
    if lines != [] {
      var before, line := Init(lines), Last(lines);
      KeptLinesParse(decode, before);
      var s := StreamLines(decode, before);
      EventKeepsOutput(s.(outputLines := s.outputLines + [line]), decode(line));
      FoldSnoc((p, line, _) => ParseEvent(p, decode(line)), FRESH, s.outputLines, line);
    }
  }

  lemma {:induction false} JoinedLinesParse(decode: string -> Event, lines: seq<string>)
    requires BlankIsNotJson(decode) && Without(lines, '\n')
    ensures ParseText(decode, Join(lines, "\n")) == ParseLines(decode, lines)
  {
    if lines == [] {
      assert Trim("") == "";
      FoldSnoc((p, line, _) => ParseEvent(p, decode(line)), FRESH, [], "");
      assert Split("", '\n') == [] + [""];
    } else {
      SplitJoin(lines, '\n');
    }
  }

  /** What the parser later reads: the terminated lines and the trimmed unterminated one. */
  lemma {:induction false} OutputParse(decode: string -> Event, text: string)
    requires BlankIsNotJson(decode)
    ensures ParseText(decode, Output(decode, text)) ==
            ParseEvent(ParseLines(decode, Lines(text)), decode(Trim(Rest(text))))
  {
    var lines, rest := Lines(text), Trim(Rest(text));
    var kept := StreamLines(decode, lines).outputLines;
    SplitFacts(text, '\n');
    KeptLinesParse(decode, lines);
    TrimWithout(Rest(text), '\n');
    var tail := if rest != "" then [rest] else [];
    JoinedLinesParse(decode, kept + tail);
    FoldSnoc((p, line, _) => ParseEvent(p, decode(line)), FRESH, kept, rest);
    assert kept + [] == kept;
    assert Trim("") == "";
  }

  /** An event that adds neither tokens nor text. */
  predicate AddsNothing(e: Event) {
    match e
    case TurnCompleted(Some(u)) => u.input + u.cachedInput == 0 && u.output == 0
    case ItemEvent(Completed, Some(AgentMessage(text))) => text == ""
    case _ => true
  }

  /** The live totals are those of the output exactly when the unterminated last line, trimmed, adds
      neither tokens nor text. */
  lemma {:induction false} LiveTotalsAgreeIff(decode: string -> Event, text: string)
    requires BlankIsNotJson(decode)
    ensures Agree(StreamLines(decode, Lines(text)), ParseText(decode, Output(decode, text))) <==>
            AddsNothing(decode(Trim(Rest(text))))
  {
    OutputParse(decode, text);
    LiveTotalsAgree(decode, Lines(text));
  }

  /** In particular, for every stream that ends in a newline: what the parser later reads from the output
      is what it would read from the raw text, and the live totals are the parsed ones. */
  lemma {:induction false} TerminatedStreamAgrees(decode: string -> Event, text: string)
    requires BlankIsNotJson(decode) && Rest(text) == ""
    ensures ParseText(decode, Output(decode, text)) == ParseText(decode, text)
    ensures Agree(StreamLines(decode, Lines(text)), ParseText(decode, Output(decode, text)))
  {
    OutputParse(decode, text);
    assert Trim("") == "";
    LiveTotalsAgreeIff(decode, text);
    SplitIsLinesAndRest(text);
    FoldSnoc((p, line, _) => ParseEvent(p, decode(line)), FRESH, Lines(text), "");
  }
}
