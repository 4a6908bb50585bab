/** The tool execution loop of `invokeNativeAPI` in `src/agents/invoke-native-api.ts`. What the model
    replies and what the tools return is an arbitrary `World`. The results of one turn come in the
    order of its calls; that `parallelWithLimit` delivers them so is proved in `ParallelLimit`. */
module ToolLoop {
  import opened Text

  datatype Role = System | User | Assistant | Tool

  datatype ToolCall = ToolCall(id: string, name: string, arguments: string)

  datatype Message = Message(role: Role, content: Option<string>, toolCalls: seq<ToolCall>, toolCallId: Option<string>)

  datatype Reply =
    | Reply(content: Option<string>, toolCalls: seq<ToolCall>, promptTokens: nat, completionTokens: nat)
    | NoChoices
    | RequestFails

  /** An MCP call that times out rejects; every other failure becomes an error text. */
  datatype ToolOutcome = Output(content: string) | Rejects

  /** The reply of each turn, the outcome of call `i` of a turn under an output limit, and whether
      cancellation has been requested when a turn begins. */
  datatype World = World(reply: nat -> Reply, tool: (nat, nat, nat) -> ToolOutcome, aborted: nat -> bool)

  /** `clean` strips a trailing input request from the final text. */
  datatype Config = Config(maxTurns: nat, needsPlanning: bool, guidance: string, clean: string -> string)

  const MAX_CONSECUTIVE_TOOL_FAILURES := 3
  const REMINDER := "[harness] Planning step required: use todo_write to create your task list before making changes."

  function ProgressiveOutputLimit(turnCount: nat): nat {
    if turnCount < 10 then 8000 else if turnCount < 20 then 4000 else 2000
  }

  // --- One turn ---

  function UserMessage(text: string): Message {
    Message(User, Some(text), [], None)
  }

  function ToolMessage(id: string, content: string): Message {
    Message(Tool, Some(content), [], Some(id))
  }

  predicate IsError(content: string) {
    "Error:" <= content
  }

  predicate PlanningMissing(c: Config, turn: nat, calls: seq<ToolCall>) {
    turn == 0 && c.needsPlanning && forall i | 0 <= i < |calls| :: calls[i].name != "todo_write"
  }

  datatype Status = Running | Answered(text: string) | GaveUp | Threw

  /** The state of the loop: the messages each completed turn appended, those a turn had appended when
      one of its tool calls rejected, and the counters. `history` records which completed turns failed
      entirely and `limits` the output limit of every turn. */
  datatype Progress = Progress(status: Status, blocks: seq<seq<Message>>, dangling: seq<Message>,
                               turnCount: nat, toolsUsed: seq<string>,
                               failures: nat, modelCalls: nat, totalIn: nat, totalOut: nat,
                               history: seq<bool>, limits: seq<nat>)

  const START := Progress(Running, [], [], 0, [], 0, 0, 0, 0, [], [])

  /** The results of the calls of one turn, or nothing if one of them rejects. */
  function Results(w: World, turn: nat, n: nat, limit: nat): Option<seq<string>> {
    if n == 0 then Some([])
    else
      match (Results(w, turn, n - 1, limit), w.tool(turn, n - 1, limit))
      case (Some(rs), Output(content)) => Some(rs + [content])
      case _ => None
  }

  function ToolMessages(calls: seq<ToolCall>, results: seq<string>): seq<Message>
    requires |calls| == |results|
  {
    seq(|calls|, i requires 0 <= i < |calls| => ToolMessage(calls[i].id, results[i]))
  }

  function Names(calls: seq<ToolCall>): seq<string> {
    seq(|calls|, i requires 0 <= i < |calls| => calls[i].name)
  }

  /** What a turn appends before its tools run. */
  function Opening(c: Config, turn: nat, r: Reply): seq<Message>
    requires r.Reply?
  {
    [Message(Assistant, r.content, r.toolCalls, None)]
    + (if PlanningMissing(c, turn, r.toolCalls) then [UserMessage(REMINDER)] else [])
  }

  function Closing(c: Config, last: bool): seq<Message> {
    if last then [] else [UserMessage(c.guidance)]
  }

  function Block(c: Config, turn: nat, r: Reply, results: seq<string>, last: bool): seq<Message>
    requires r.Reply? && |results| == |r.toolCalls|
  {
    Opening(c, turn, r) + ToolMessages(r.toolCalls, results) + Closing(c, last)
  }

  predicate AllErrors(results: seq<string>) {
    forall i | 0 <= i < |results| :: IsError(results[i])
  }

  /** A turn whose calls have all returned. */
  function FinishTurn(c: Config, turn: nat, p: Progress, r: Reply, results: seq<string>, limit: nat): Progress
    requires r.Reply? && |results| == |r.toolCalls|
  {
    var failures := if AllErrors(results) then p.failures + 1 else 0;
    var last := failures >= MAX_CONSECUTIVE_TOOL_FAILURES;
    p.(status := if last then GaveUp else Running,
       blocks := p.blocks + [Block(c, turn, r, results, last)],
       turnCount := if last then p.turnCount else p.turnCount + |results|,
       toolsUsed := if last then p.toolsUsed else p.toolsUsed + Names(r.toolCalls),
       failures := failures,
       history := p.history + [AllErrors(results)],
       limits := p.limits + [limit])
  }

  lemma {:induction false} ResultsLength(w: World, turn: nat, n: nat, limit: nat)
    ensures Results(w, turn, n, limit).Some? ==> |Results(w, turn, n, limit).value| == n
  {
    if n > 0 {
      ResultsLength(w, turn, n - 1, limit);
    }
  }

  function Turn(c: Config, w: World, turn: nat, p: Progress): Progress {
    if w.aborted(turn) then p.(status := Threw)
    else
      var q := p.(modelCalls := p.modelCalls + 1);
      match w.reply(turn)
      case RequestFails => q.(status := Threw)
      case NoChoices => q.(status := Threw)
      case Reply(content, calls, tokensIn, tokensOut) =>
        var t := q.(totalIn := q.totalIn + tokensIn, totalOut := q.totalOut + tokensOut);
        if calls == [] then t.(status := Answered(c.clean(if content.Some? then content.value else "")))
        else
          var limit := ProgressiveOutputLimit(t.turnCount);
          ResultsLength(w, turn, |calls|, limit);
          match Results(w, turn, |calls|, limit)
          case None => t.(status := Threw, dangling := Opening(c, turn, w.reply(turn)))
          case Some(results) => FinishTurn(c, turn, t, w.reply(turn), results, limit)
  }

  /** The loop after its first `k` turns; once it has stopped it stays as it is. */
  function Turns(c: Config, w: World, k: nat): Progress {
    if k == 0 then START else Advance(c, w, k - 1, Turns(c, w, k - 1))
  }

  function Advance(c: Config, w: World, turn: nat, p: Progress): Progress {
    if p.status.Running? then Turn(c, w, turn, p) else p
  }

  function Flatten(blocks: seq<seq<Message>>): seq<Message> {
    if blocks == [] then [] else Flatten(blocks[..|blocks| - 1]) + blocks[|blocks| - 1]
  }

  /** Everything the loop has appended. */
  function Appended(p: Progress): seq<Message> {
    Flatten(p.blocks) + p.dangling
  }

  // --- The loop ---

  method RunTools(w: World, turn: nat, calls: seq<ToolCall>, limit: nat) returns (results: Option<seq<string>>)
    ensures results == Results(w, turn, |calls|, limit)
    ensures results.Some? ==> |results.value| == |calls|
  {
    results := Some([]);
    for i := 0 to |calls|
      invariant results == Results(w, turn, i, limit)
      invariant results.Some? ==> |results.value| == i
    {
      if results.Some? {
        var outcome := w.tool(turn, i, limit);
        results := if outcome.Output? then Some(results.value + [outcome.content]) else None;
      }
    }
  }

  method PushToolResults(messages: seq<Message>, calls: seq<ToolCall>, results: seq<string>) returns (r: seq<Message>)
    requires |calls| == |results|
    ensures r == messages + ToolMessages(calls, results)
  {
    r := messages;
    for i := 0 to |results|
      invariant r == messages + ToolMessages(calls, results)[..i]
    {
      r := r + [ToolMessage(calls[i].id, results[i])];
    }
    assert ToolMessages(calls, results)[..|results|] == ToolMessages(calls, results);
  }

  method CheckPlanning(c: Config, turn: nat, calls: seq<ToolCall>) returns (missing: bool)
    ensures missing == PlanningMissing(c, turn, calls)
  {
    missing := turn == 0 && c.needsPlanning;
    for i := 0 to |calls|
      invariant missing == (turn == 0 && c.needsPlanning && forall k | 0 <= k < i :: calls[k].name != "todo_write")
    {
      if calls[i].name == "todo_write" { missing := false; }
    }
  }

  method EveryError(results: seq<string>) returns (all: bool)
    ensures all == AllErrors(results)
  {
    for i := 0 to |results|
      invariant forall k | 0 <= k < i :: IsError(results[k])
    {
      if !IsError(results[i]) { return false; }
    }
    all := true;
  }

  /** The body of the loop after a reply with tool calls has arrived. */
  method ToolTurn(c: Config, w: World, turn: nat, p: Progress, messages: seq<Message>, r: Reply)
    returns (q: Progress, out: seq<Message>)
    requires r == w.reply(turn) && r.Reply? && r.toolCalls != [] && p.status.Running?
    ensures var limit := ProgressiveOutputLimit(p.turnCount);
            match Results(w, turn, |r.toolCalls|, limit)
            case None =>
              && q == p.(status := Threw, dangling := Opening(c, turn, r))
              && out == messages + q.dangling
            case Some(results) =>
              && |results| == |r.toolCalls|
              && q == FinishTurn(c, turn, p, r, results, limit)
              && out == messages + Block(c, turn, r, results, q.status.GaveUp?)
  {
    out := messages + [Message(Assistant, r.content, r.toolCalls, None)];
    var missing := CheckPlanning(c, turn, r.toolCalls);
    if missing { out := out + [UserMessage(REMINDER)]; }
    assert out == messages + Opening(c, turn, r);
    var limit := ProgressiveOutputLimit(p.turnCount);
    var results := RunTools(w, turn, r.toolCalls, limit);
    if results.None? {
      q := p.(status := Threw, dangling := Opening(c, turn, r));
      return;
    }
    q, out := TakeResults(c, turn, p, out, r, results.value, limit);
    var tools, closing := ToolMessages(r.toolCalls, results.value), Closing(c, q.status.GaveUp?);
    Reassociate(messages, Opening(c, turn, r), tools, closing);
  }

  lemma {:induction false} Reassociate(a: seq<Message>, b: seq<Message>, c: seq<Message>, d: seq<Message>)
    ensures a + b + c + d == a + (b + c + d)
  {
  }

  /** The part of the loop body that follows `await parallelWithLimit`. */
  method TakeResults(c: Config, turn: nat, p: Progress, messages: seq<Message>, r: Reply,
                     results: seq<string>, limit: nat)
    returns (q: Progress, out: seq<Message>)
    requires r.Reply? && |results| == |r.toolCalls| && p.status.Running?
    ensures q == FinishTurn(c, turn, p, r, results, limit)
    ensures out == messages + ToolMessages(r.toolCalls, results) + Closing(c, q.status.GaveUp?)
  {
    var allFailed := EveryError(results);
    var failures := p.failures;
    out := PushToolResults(messages, r.toolCalls, results);
    if allFailed {
      failures := failures + 1;
      if failures >= MAX_CONSECUTIVE_TOOL_FAILURES {
        q := p.(status := GaveUp, blocks := p.blocks + [Block(c, turn, r, results, true)], failures := failures,
                history := p.history + [allFailed], limits := p.limits + [limit]);
        assert out + [] == out;
        return;
      }
    } else {
      failures := 0;
    }
    q := p.(turnCount := p.turnCount + |results|, toolsUsed := p.toolsUsed + Names(r.toolCalls),
            blocks := p.blocks + [Block(c, turn, r, results, false)], failures := failures,
            history := p.history + [allFailed], limits := p.limits + [limit]);
    out := out + [UserMessage(c.guidance)];
  }

  /** The messages a turn has pushed are those it added to the record, however it ended. */
  ghost predicate Pushed(p: Progress, q: Progress, messages: seq<Message>, out: seq<Message>) {
    || (q.blocks == p.blocks && out == messages + q.dangling)
    || (q.dangling == [] && exists b :: q.blocks == p.blocks + [b] && out == messages + b)
  }

  method RunTurn(c: Config, w: World, turn: nat, p: Progress, messages: seq<Message>)
    returns (q: Progress, out: seq<Message>)
    requires p.status.Running? && p.dangling == []
    ensures q == Turn(c, w, turn, p)
    ensures Pushed(p, q, messages, out)
  {
    q, out := p, messages;
    assert messages + [] == messages;
    if w.aborted(turn) {
      q := q.(status := Threw);
      return;
    }
    q := q.(modelCalls := q.modelCalls + 1);
    match w.reply(turn) {
      case RequestFails => q := q.(status := Threw);
      case NoChoices => q := q.(status := Threw);
      case Reply(content, calls, tokensIn, tokensOut) =>
        q := q.(totalIn := q.totalIn + tokensIn, totalOut := q.totalOut + tokensOut);
        if calls == [] {
          q := q.(status := Answered(c.clean(if content.Some? then content.value else "")));
        } else {
          q, out := ToolTurn(c, w, turn, q, messages, w.reply(turn));
        }
    }
  }

  /** The loop and the messages it leaves behind, whether it returns or throws. */
  method InvokeNativeAPI(c: Config, w: World, initial: seq<Message>) returns (p: Progress, messages: seq<Message>)
    ensures p == Turns(c, w, c.maxTurns)
    ensures messages == initial + Appended(p)
  {
    p, messages := START, initial;
    assert initial + ([] + []) == initial;
    var turn := 0;
    while turn < c.maxTurns && p.status.Running?
      invariant turn <= c.maxTurns
      invariant p == Turns(c, w, turn) && (p.status.Running? ==> p.dangling == [])
      invariant messages == initial + Appended(p)
      decreases c.maxTurns - turn
    {
      ghost var before, pushed := p, messages;
      p, messages := RunTurn(c, w, turn, p, messages);
      PushedAppends(before, p, initial, pushed, messages);
      RunningLeavesNothing(c, w, turn, before);
      turn := turn + 1;
    }
    StoppedStays(c, w, turn, c.maxTurns);
  }

  lemma {:induction false} RunningLeavesNothing(c: Config, w: World, turn: nat, p: Progress)
    requires p.dangling == []
    ensures Turn(c, w, turn, p).status.Running? ==> Turn(c, w, turn, p).dangling == []
  {
  }

  lemma {:induction false} PushedAppends(
      p: Progress, q: Progress, initial: seq<Message>, messages: seq<Message>, out: seq<Message>)
    requires Pushed(p, q, messages, out) && p.dangling == [] && messages == initial + Appended(p)
    ensures out == initial + Appended(q)
  {
    assert Appended(p) == Flatten(p.blocks);
    if q.blocks == p.blocks && out == messages + q.dangling {
      assert initial + Flatten(p.blocks) + q.dangling == initial + (Flatten(p.blocks) + q.dangling);
    } else {
      var b :| q.blocks == p.blocks + [b] && out == messages + b;
      FlattenSnoc(p.blocks, b);
      assert Appended(q) == Flatten(p.blocks) + b;
      assert initial + Flatten(p.blocks) + b == initial + (Flatten(p.blocks) + b);
    }
  }

  lemma {:induction false} FlattenSnoc(blocks: seq<seq<Message>>, b: seq<Message>)
    ensures Flatten(blocks + [b]) == Flatten(blocks) + b
  {
  }

  lemma {:induction false} StoppedStays(c: Config, w: World, i: nat, k: nat)
    requires i <= k && (i == k || !Turns(c, w, i).status.Running?)
    ensures Turns(c, w, k) == Turns(c, w, i)
    decreases k - i
  {
    if i < k {
      StoppedStays(c, w, i, k - 1);
    }
  }

  // --- What one turn does ---

  predicate CallRejects(w: World, turn: nat, n: nat, limit: nat) {
    exists i | 0 <= i < n :: w.tool(turn, i, limit).Rejects?
  }

  lemma {:induction false} ResultsMissing(w: World, turn: nat, n: nat, limit: nat)
    ensures Results(w, turn, n, limit).None? <==> CallRejects(w, turn, n, limit)
  {
    if n > 0 {
      ResultsMissing(w, turn, n - 1, limit);
      if CallRejects(w, turn, n - 1, limit) {
        var i :| 0 <= i < n - 1 && w.tool(turn, i, limit).Rejects?;
        assert CallRejects(w, turn, n, limit);
      }
    }
  }

  /** The model asks for tools on this turn. */
  predicate AsksForTools(w: World, turn: nat, p: Progress) {
    p.status.Running? && !w.aborted(turn) && w.reply(turn).Reply? && w.reply(turn).toolCalls != []
  }

  /** It does, and one of the calls rejects. */
  predicate TurnRejects(w: World, turn: nat, p: Progress) {
    AsksForTools(w, turn, p)
    && CallRejects(w, turn, |w.reply(turn).toolCalls|, ProgressiveOutputLimit(p.turnCount))
  }

  predicate TurnCompletes(w: World, turn: nat, p: Progress) {
    AsksForTools(w, turn, p)
    && !CallRejects(w, turn, |w.reply(turn).toolCalls|, ProgressiveOutputLimit(p.turnCount))
  }

  /** The progress once the reply with tool calls has been counted. */
  function Counted(w: World, turn: nat, p: Progress): Progress
    requires AsksForTools(w, turn, p)
  {
    p.(modelCalls := p.modelCalls + 1, totalIn := p.totalIn + w.reply(turn).promptTokens,
       totalOut := p.totalOut + w.reply(turn).completionTokens)
  }

  lemma {:induction false} CompletedTurn(c: Config, w: World, turn: nat, p: Progress, q: Progress)
    returns (results: seq<string>)
    requires TurnCompletes(w, turn, p) && q == Advance(c, w, turn, p)
    ensures |results| == |w.reply(turn).toolCalls|
    ensures q == FinishTurn(c, turn, Counted(w, turn, p), w.reply(turn), results, ProgressiveOutputLimit(p.turnCount))
  {
    var n, limit := |w.reply(turn).toolCalls|, ProgressiveOutputLimit(p.turnCount);
    ResultsMissing(w, turn, n, limit);
    ResultsLength(w, turn, n, limit);
    results := Results(w, turn, n, limit).value;
  }

  /** Any other turn ends the loop, unless it had ended before, and completes no block. */
  lemma {:induction false} OtherTurn(c: Config, w: World, turn: nat, p: Progress, q: Progress)
    requires !TurnCompletes(w, turn, p) && q == Advance(c, w, turn, p)
    ensures q.blocks == p.blocks && q.history == p.history && q.limits == p.limits
    ensures q.turnCount == p.turnCount && q.toolsUsed == p.toolsUsed && q.failures == p.failures
    ensures if p.status.Running? then !q.status.Running? && !q.status.GaveUp? else q == p
    ensures p.modelCalls <= q.modelCalls <= p.modelCalls + if p.status.Running? then 1 else 0
    ensures q.dangling == if TurnRejects(w, turn, p) then Opening(c, turn, w.reply(turn)) else p.dangling
  {
    if AsksForTools(w, turn, p) {
      ResultsMissing(w, turn, |w.reply(turn).toolCalls|, ProgressiveOutputLimit(p.turnCount));
    }
  }

  // --- Shape ---

  /** The number of all-failed turns at the end of a history. */
  function TrailingFailures(history: seq<bool>): nat {
    if history == [] || !history[|history| - 1] then 0
    else 1 + TrailingFailures(history[..|history| - 1])
  }

  /** An assistant message with its calls, at most one reminder, on turn 0 only and only when planning
      was required and skipped; then one result per call, with the same ids in the same order; then
      the guidance, unless the loop gave up. */
  predicate AnswersCall(m: Message, call: ToolCall) {
    m.role == Tool && m.toolCallId == Some(call.id)
  }

  ghost predicate WellFormedBlock(c: Config, turn: nat, b: seq<Message>, last: bool) {
    b != [] && b[0].role == Assistant && b[0].toolCalls != [] &&
    var calls := b[0].toolCalls;
    var from := if PlanningMissing(c, turn, calls) then 2 else 1;
    && |b| == from + |calls| + (if last then 0 else 1)
    && (from == 2 ==> b[1] == UserMessage(REMINDER))
    && (forall i | 0 <= i < |calls| :: AnswersCall(b[from + i], calls[i]))
    && (!last ==> b[|b| - 1] == UserMessage(c.guidance))
  }

  lemma {:induction false} Concatenated<T>(a: seq<T>, b: seq<T>, c: seq<T>, all: seq<T>)
    requires all == a + b + c
    ensures |all| == |a| + |b| + |c|
    ensures forall i | 0 <= i < |a| :: all[i] == a[i]
    ensures forall i | 0 <= i < |b| :: all[|a| + i] == b[i]
    ensures c != [] ==> all[|a| + |b|] == c[0]
  {
  }

  lemma {:induction false} PiecesAreWellFormed(c: Config, turn: nat, opening: seq<Message>, tools: seq<Message>,
      closing: seq<Message>, last: bool, b: seq<Message>)
    requires |b| == |opening| + |tools| + |closing|
    requires forall i | 0 <= i < |opening| :: b[i] == opening[i]
    requires forall i | 0 <= i < |tools| :: b[|opening| + i] == tools[i]
    requires closing != [] ==> b[|opening| + |tools|] == closing[0]
    requires opening != [] && opening[0].role == Assistant && opening[0].toolCalls != []
    requires |opening| == if PlanningMissing(c, turn, opening[0].toolCalls) then 2 else 1
    requires |opening| == 2 ==> opening[1] == UserMessage(REMINDER)
    requires |tools| == |opening[0].toolCalls|
    requires forall i | 0 <= i < |tools| :: AnswersCall(tools[i], opening[0].toolCalls[i])
    requires closing == if last then [] else [UserMessage(c.guidance)]
    ensures WellFormedBlock(c, turn, b, last)
  {
    assert b[0] == opening[0];
    forall i | 0 <= i < |tools| ensures AnswersCall(b[|opening| + i], opening[0].toolCalls[i]) {
    }
  }

  lemma {:induction false} BlockIsWellFormed(c: Config, turn: nat, r: Reply, results: seq<string>, last: bool)
    requires r.Reply? && r.toolCalls != [] && |results| == |r.toolCalls|
    ensures WellFormedBlock(c, turn, Block(c, turn, r, results, last), last)
  {
    var opening, tools, closing := Opening(c, turn, r), ToolMessages(r.toolCalls, results), Closing(c, last);
    var b := Block(c, turn, r, results, last);
    Concatenated(opening, tools, closing, b);
    PiecesAreWellFormed(c, turn, opening, tools, closing, last, b);
  }

  /** Every completed turn appended a well-formed block. */
  ghost predicate BlocksWellFormed(c: Config, p: Progress) {
    forall i | 0 <= i < |p.blocks| ::
      WellFormedBlock(c, i, p.blocks[i], p.status.GaveUp? && i == |p.blocks| - 1)
  }

  /** The failure counter is the trailing streak of failed turns, and the loop has given up exactly if
      the streak is 3, which it was not before. */
  ghost predicate StreakCounted(p: Progress) {
    && p.failures == TrailingFailures(p.history) <= 3
    && (p.status.GaveUp? <==> p.failures == 3)
    && (forall i | 0 <= i < |p.history| :: TrailingFailures(p.history[..i]) < 3)
  }

  ghost predicate LoopInv(c: Config, p: Progress) {
    && |p.blocks| == |p.history| == |p.limits|
    && p.turnCount == |p.toolsUsed|
    && StreakCounted(p)
    && BlocksWellFormed(c, p)
  }

  lemma {:induction false} PrefixOf(before: seq<bool>, failed: bool, history: seq<bool>, i: nat)
    requires history == before + [failed] && i <= |before|
    ensures history[..i] == before[..i] && before[..|before|] == before
  {
  }

  lemma {:induction false} OneMoreTurn(before: seq<bool>, failed: bool, history: seq<bool>)
    requires history == before + [failed]
    ensures TrailingFailures(history) == if failed then 1 + TrailingFailures(before) else 0
  {
    PrefixOf(before, failed, history, |before|);
  }

  lemma {:induction false} StreakGrows(p: Progress, q: Progress, failed: bool)
    requires StreakCounted(p) && p.failures < 3 && q.history == p.history + [failed]
    requires q.failures == (if failed then p.failures + 1 else 0) && (q.status.GaveUp? <==> q.failures >= 3)
    ensures StreakCounted(q)
  {
    OneMoreTurn(p.history, failed, q.history);
    forall i | 0 <= i < |q.history| ensures TrailingFailures(q.history[..i]) < 3 {
      PrefixOf(p.history, failed, q.history, i);
    }
  }

  lemma {:induction false} BlockAdded(c: Config, p: Progress, q: Progress, b: seq<Message>)
    requires BlocksWellFormed(c, p) && !p.status.GaveUp? && q.blocks == p.blocks + [b]
    requires WellFormedBlock(c, |p.blocks|, b, q.status.GaveUp?)
    ensures BlocksWellFormed(c, q)
  {
    forall i | 0 <= i < |q.blocks| ensures WellFormedBlock(c, i, q.blocks[i], q.status.GaveUp? && i == |q.blocks| - 1) {
      if i < |p.blocks| {
        assert q.blocks[i] == p.blocks[i];
      }
    }
  }

  lemma {:induction false} AdvanceKeepsShape(c: Config, w: World, turn: nat, p: Progress, q: Progress)
    requires LoopInv(c, p) && (p.status.Running? ==> |p.blocks| == turn) && q == Advance(c, w, turn, p)
    ensures LoopInv(c, q) && (q.status.Running? ==> |q.blocks| == turn + 1)
  {
    if TurnCompletes(w, turn, p) {
      var results := CompletedTurn(c, w, turn, p, q);
      StreakGrows(p, q, AllErrors(results));
      BlockIsWellFormed(c, turn, w.reply(turn), results, q.status.GaveUp?);
      BlockAdded(c, p, q, Block(c, turn, w.reply(turn), results, q.status.GaveUp?));
    } else {
      OtherTurn(c, w, turn, p, q);
    }
  }

  /** After any number of turns: every completed turn appended a well-formed block; the number of
      tool turns is the number of tools used; the failure counter is the trailing streak of turns
      that failed entirely; and the loop gave up exactly when that streak first reached 3. */
  lemma {:induction false} LoopKeepsShape(c: Config, w: World, k: nat)
    ensures LoopInv(c, Turns(c, w, k))
    ensures Turns(c, w, k).status.Running? ==> |Turns(c, w, k).blocks| == k
  {
    if k > 0 {
      LoopKeepsShape(c, w, k - 1);
      AdvanceKeepsShape(c, w, k - 1, Turns(c, w, k - 1), Turns(c, w, k));
    }
  }

  // --- Bounds ---

  ghost predicate CallsCounted(p: Progress, k: nat) {
    |p.blocks| <= p.modelCalls <= k && (p.status.Running? ==> |p.blocks| == p.modelCalls == k)
  }

  lemma {:induction false} AdvanceCounts(c: Config, w: World, turn: nat, p: Progress, q: Progress)
    requires CallsCounted(p, turn) && q == Advance(c, w, turn, p)
    ensures CallsCounted(q, turn + 1)
  {
    if TurnCompletes(w, turn, p) {
      var results := CompletedTurn(c, w, turn, p, q);
    } else {
      OtherTurn(c, w, turn, p, q);
    }
  }

  /** The model is called at most once per turn, so at most `maxTurns` times, and once per completed
      turn at least. */
  lemma {:induction false} ModelCallsBounded(c: Config, w: World, k: nat)
    ensures CallsCounted(Turns(c, w, k), k)
  {
    if k > 0 {
      ModelCallsBounded(c, w, k - 1);
      AdvanceCounts(c, w, k - 1, Turns(c, w, k - 1), Turns(c, w, k));
    }
  }

  ghost predicate LimitsFall(p: Progress) {
    && (forall i, j | 0 <= i <= j < |p.limits| :: p.limits[i] >= p.limits[j])
    && (forall i | 0 <= i < |p.limits| :: p.limits[i] >= ProgressiveOutputLimit(p.turnCount))
  }

  lemma {:induction false} OneMoreLimit(p: Progress, q: Progress)
    requires LimitsFall(p) && q.turnCount >= p.turnCount
    requires q.limits == p.limits || q.limits == p.limits + [ProgressiveOutputLimit(p.turnCount)]
    ensures LimitsFall(q)
  {
    assert ProgressiveOutputLimit(q.turnCount) <= ProgressiveOutputLimit(p.turnCount);
  }

  lemma {:induction false} AdvanceLimits(c: Config, w: World, turn: nat, p: Progress, q: Progress)
    requires LimitsFall(p) && q == Advance(c, w, turn, p)
    ensures LimitsFall(q)
  {
    if TurnCompletes(w, turn, p) {
      var results := CompletedTurn(c, w, turn, p, q);
    } else {
      OtherTurn(c, w, turn, p, q);
    }
    OneMoreLimit(p, q);
  }

  /** The output limit of a turn is never above that of an earlier turn. */
  lemma {:induction false} LimitsNeverIncrease(c: Config, w: World, k: nat) returns (p: Progress)
    ensures p == Turns(c, w, k) && LimitsFall(p)
  {
    p := START;
    if k > 0 {
      var before := LimitsNeverIncrease(c, w, k - 1);
      p := Advance(c, w, k - 1, before);
      AdvanceLimits(c, w, k - 1, before, p);
    }
  }

  // --- Tool calls and their results ---

  /** What a function reads off each message, in order. */
  function Collect(read: Message -> seq<string>, messages: seq<Message>): seq<string> {
    if messages == [] then [] else Collect(read, messages[..|messages| - 1]) + read(messages[|messages| - 1])
  }

  function Ids(calls: seq<ToolCall>): seq<string> {
    seq(|calls|, i requires 0 <= i < |calls| => calls[i].id)
  }

  function AnswerOf(m: Message): seq<string> {
    if m.role == Tool && m.toolCallId.Some? then [m.toolCallId.value] else []
  }

  function RequestOf(m: Message): seq<string> {
    Ids(m.toolCalls)
  }

  function Answers(messages: seq<Message>): seq<string> {
    Collect(AnswerOf, messages)
  }

  function Requests(messages: seq<Message>): seq<string> {
    Collect(RequestOf, messages)
  }

  lemma {:induction false} CollectAppend(read: Message -> seq<string>, a: seq<Message>, b: seq<Message>)
    ensures Collect(read, a + b) == Collect(read, a) + Collect(read, b)
  {
    if b == [] {
      assert a + b == a;
    } else {
      var front, last := b[..|b| - 1], b[|b| - 1];
      CollectAppend(read, a, front);
      assert (a + b)[..|a + b| - 1] == a + front;
      var first, middle := Collect(read, a), Collect(read, front);
      assert first + middle + read(last) == first + (middle + read(last));
    }
  }

  lemma {:induction false} CollectOne(read: Message -> seq<string>, m: Message)
    ensures Collect(read, [m]) == read(m)
  {
    assert [m][..0] == [];
  }

  lemma {:induction false} CollectNothing(read: Message -> seq<string>, messages: seq<Message>)
    requires forall i | 0 <= i < |messages| :: read(messages[i]) == []
    ensures Collect(read, messages) == []
  {
    if messages != [] {
      CollectNothing(read, messages[..|messages| - 1]);
    }
  }

  lemma {:induction false} OpeningAsks(c: Config, turn: nat, r: Reply)
    requires r.Reply?
    ensures Answers(Opening(c, turn, r)) == [] && Requests(Opening(c, turn, r)) == Ids(r.toolCalls)
  {
    var a := Message(Assistant, r.content, r.toolCalls, None);
    var reminder := if PlanningMissing(c, turn, r.toolCalls) then [UserMessage(REMINDER)] else [];
    CollectNothing(AnswerOf, Opening(c, turn, r));
    CollectAppend(RequestOf, [a], reminder);
    CollectOne(RequestOf, a);
    CollectNothing(RequestOf, reminder);
    assert Ids(r.toolCalls) + [] == Ids(r.toolCalls);
  }

  lemma {:induction false} ToolMessagesAnswer(calls: seq<ToolCall>, results: seq<string>)
    requires |calls| == |results|
    ensures Answers(ToolMessages(calls, results)) == Ids(calls)
  {
    if calls != [] {
      var n := |calls| - 1;
      ToolMessagesAnswer(calls[..n], results[..n]);
      assert ToolMessages(calls, results)[..n] == ToolMessages(calls[..n], results[..n]);
      assert Ids(calls) == Ids(calls[..n]) + [calls[n].id];
    }
  }

  lemma {:induction false} CollectThree(read: Message -> seq<string>, a: seq<Message>, b: seq<Message>, c: seq<Message>)
    ensures Collect(read, a + b + c) == Collect(read, a) + Collect(read, b) + Collect(read, c)
  {
    CollectAppend(read, a + b, c);
    CollectAppend(read, a, b);
  }

  /** One block answers its own calls, in order, and nothing else. */
  lemma {:induction false} BlockAnswersItself(c: Config, turn: nat, r: Reply, results: seq<string>, last: bool)
    requires r.Reply? && |results| == |r.toolCalls|
    ensures Answers(Block(c, turn, r, results, last)) == Ids(r.toolCalls)
    ensures Requests(Block(c, turn, r, results, last)) == Ids(r.toolCalls)
  {
    OpeningAsks(c, turn, r);
    ToolMessagesAnswer(r.toolCalls, results);
    PiecesAnswer(Opening(c, turn, r), ToolMessages(r.toolCalls, results), Closing(c, last), Ids(r.toolCalls));
  }

  lemma {:induction false} PiecesAnswer(opening: seq<Message>, tools: seq<Message>, closing: seq<Message>,
      ids: seq<string>)
    requires Answers(opening) == [] && Requests(opening) == ids && Answers(tools) == ids
    requires forall i | 0 <= i < |tools| :: RequestOf(tools[i]) == []
    requires forall i | 0 <= i < |closing| :: RequestOf(closing[i]) == [] && AnswerOf(closing[i]) == []
    ensures Answers(opening + tools + closing) == Requests(opening + tools + closing) == ids
  {
    CollectThree(AnswerOf, opening, tools, closing);
    CollectThree(RequestOf, opening, tools, closing);
    CollectNothing(RequestOf, tools);
    CollectNothing(AnswerOf, closing);
    CollectNothing(RequestOf, closing);
  }

  /** The tool results among the messages of the completed turns answer exactly their calls, in order. */
  ghost predicate Balanced(blocks: seq<seq<Message>>) {
    Answers(Flatten(blocks)) == Requests(Flatten(blocks))
  }

  lemma {:induction false} BlockBalances(blocks: seq<seq<Message>>, b: seq<Message>)
    requires Balanced(blocks) && Answers(b) == Requests(b)
    ensures Balanced(blocks + [b])
  {
    FlattenSnoc(blocks, b);
    CollectAppend(AnswerOf, Flatten(blocks), b);
    CollectAppend(RequestOf, Flatten(blocks), b);
  }

  lemma {:induction false} AdvanceAnswers(c: Config, w: World, turn: nat, p: Progress, q: Progress)
    requires Balanced(p.blocks) && q == Advance(c, w, turn, p)
    ensures Balanced(q.blocks)
  {
    if TurnCompletes(w, turn, p) {
      var results := CompletedTurn(c, w, turn, p, q);
      BlockAnswersItself(c, turn, w.reply(turn), results, q.status.GaveUp?);
      BlockBalances(p.blocks, Block(c, turn, w.reply(turn), results, q.status.GaveUp?));
    } else {
      OtherTurn(c, w, turn, p, q);
    }
  }

  /** Over all completed turns, every tool call has its result. */
  lemma {:induction false} CompletedTurnsAnswer(c: Config, w: World, k: nat) returns (p: Progress)
    ensures p == Turns(c, w, k) && Balanced(p.blocks)
  {
    p := START;
    if k > 0 {
      var before := CompletedTurnsAnswer(c, w, k - 1);
      p := Advance(c, w, k - 1, before);
      AdvanceAnswers(c, w, k - 1, before, p);
    }
  }

  /** One of the first `k` turns ended because a tool call rejected. */
  predicate SomeTurnRejects(c: Config, w: World, k: nat) {
    k > 0 && (SomeTurnRejects(c, w, k - 1) || TurnRejects(w, k - 1, Turns(c, w, k - 1)))
  }

  /** What is left unanswered: the calls of the turn that rejected, and none of them has a result. */
  ghost predicate LeftOpen(rejected: bool, p: Progress) {
    if rejected then Answers(p.dangling) == [] && Requests(p.dangling) != [] && p.status.Threw?
    else p.dangling == []
  }

  lemma {:induction false} AdvanceLeavesOpen(
      c: Config, w: World, turn: nat, p: Progress, q: Progress, rejected: bool)
    requires LeftOpen(rejected, p) && q == Advance(c, w, turn, p)
    ensures LeftOpen(rejected || TurnRejects(w, turn, p), q)
  {
    if TurnCompletes(w, turn, p) {
      var results := CompletedTurn(c, w, turn, p, q);
    } else {
      OtherTurn(c, w, turn, p, q);
      if TurnRejects(w, turn, p) {
        ResultsMissing(w, turn, |w.reply(turn).toolCalls|, ProgressiveOutputLimit(p.turnCount));
        OpeningAsks(c, turn, w.reply(turn));
        assert |Ids(w.reply(turn).toolCalls)| == |w.reply(turn).toolCalls|;
      }
    }
  }

  lemma {:induction false} OpenExactlyAfterRejection(c: Config, w: World, k: nat)
    ensures LeftOpen(SomeTurnRejects(c, w, k), Turns(c, w, k))
  {
    if k > 0 {
      OpenExactlyAfterRejection(c, w, k - 1);
      AdvanceLeavesOpen(c, w, k - 1, Turns(c, w, k - 1), Turns(c, w, k), SomeTurnRejects(c, w, k - 1));
    }
  }

  /** Over everything the loop appends, however it ends, every tool call has its result exactly if no
      tool call rejected. */
  lemma {:induction false} EveryCallAnsweredIff(c: Config, w: World, k: nat)
    ensures var messages := Appended(Turns(c, w, k));
            Answers(messages) == Requests(messages) <==> !SomeTurnRejects(c, w, k)
  {
    var p := CompletedTurnsAnswer(c, w, k);
    OpenExactlyAfterRejection(c, w, k);
    CollectAppend(AnswerOf, Flatten(p.blocks), p.dangling);
    CollectAppend(RequestOf, Flatten(p.blocks), p.dangling);
    assert |Answers(Appended(p))| == |Answers(Flatten(p.blocks))| + |Answers(p.dangling)|;
    assert |Requests(Appended(p))| == |Requests(Flatten(p.blocks))| + |Requests(p.dangling)|;
  }

  /** One MCP call that times out: its assistant message is left without a result. */
  lemma {:induction false} RejectedCallUnanswered(guidance: string, clean: string -> string)
    ensures var call := ToolCall("a", "mcp__files__read", "{}");
            var w := World(turn => Reply(None, [call], 0, 0), (turn, i, limit) => Rejects, turn => false);
            var p := Turns(Config(1, false, guidance, clean), w, 1);
            p.status.Threw? && Requests(Appended(p)) == ["a"] && Answers(Appended(p)) == []
  {
    var call := ToolCall("a", "mcp__files__read", "{}");
    var w := World(turn => Reply(None, [call], 0, 0), (turn, i, limit) => Rejects, turn => false);
    var c := Config(1, false, guidance, clean);
    var p := Turns(c, w, 1);
    assert w.tool(0, 0, 8000).Rejects?;
    assert TurnRejects(w, 0, START);
    assert Turns(c, w, 0) == START && p == Advance(c, w, 0, START);
    OtherTurn(c, w, 0, START, p);
    OpeningAsks(c, 0, w.reply(0));
    assert Ids([call]) == ["a"];
    assert Appended(p) == p.dangling;
  }
}
