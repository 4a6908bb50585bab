/** The stall watchdog of `streamCLIOutput` and `streamCodexOutput` in `src/agents/invoke-cli.ts`, with
    the timeouts of `src/agents/stall-timeout.ts`. Times are in milliseconds. */
module Watchdog {
  import opened Text
  import ClaudeOutput
  import CodexOutput

  // --- Timeouts ---

  const DEFAULT_STALL_TIMEOUT_MS := 1200000
  const DEFAULT_STARTUP_GRACE_MS := 1200000
  const MIN_STALL_TIMEOUT_MS := 60000
  const HEARTBEAT_MS := 30000
  const MAX_ELAPSED_MS := 3600000

  predicate AllDigits(s: string) {
    forall i | 0 <= i < |s| :: '0' <= s[i] <= '9'
  }

  /** `Number.parseInt` of digits */
  function Number(s: string): nat
    requires AllDigits(s)
  {
    if s == "" then 0 else Number(s[..|s| - 1]) * 10 + (s[|s| - 1] as int - '0' as int)
  }

  function ParsePositiveInteger(value: Option<string>): Option<nat> {
    if value.None? then None
    else
      var trimmed := Trim(value.value);
      if trimmed == "" || !AllDigits(trimmed) || Number(trimmed) == 0 then None else Some(Number(trimmed))
  }

  function Max(a: nat, b: nat): nat {
    if a > b then a else b
  }

  function StallTimeoutMs(configured: Option<string>): nat {
    var parsed := ParsePositiveInteger(configured);
    if parsed.None? then DEFAULT_STALL_TIMEOUT_MS else Max(parsed.value, MIN_STALL_TIMEOUT_MS)
  }

  function StartupGraceMs(configured: Option<string>): nat {
    Max(DEFAULT_STARTUP_GRACE_MS, StallTimeoutMs(configured))
  }

  lemma {:induction false} NumberOfDecimal(n: nat)
    ensures AllDigits(Decimal(n)) && Number(Decimal(n)) == n && Decimal(n) != ""
  {
    if n >= 10 {
      NumberOfDecimal(n / 10);
      assert Decimal(n)[..|Decimal(n)| - 1] == Decimal(n / 10);
    } else {
      assert Decimal(n)[..0] == "";
    }
  }

  /** A configured number of milliseconds is honoured from one minute up. */
  lemma {:induction false} ConfiguredTimeout(n: nat)
    requires n > 0
    ensures StallTimeoutMs(Some(Decimal(n))) == Max(n, MIN_STALL_TIMEOUT_MS)
  {
    NumberOfDecimal(n);
    TrimOfTrimmed(Decimal(n));
  }

  // --- The watchdog ---

  /** What a line does: nothing that counts as progress, or progress, after which so many subagents
      (or, for Codex, commands) are running. */
  datatype Effect = Quiet | Progress(startsTurn: bool, running: nat)

  datatype Event = Tick(at: nat) | Line(at: nat, effect: Effect)

  /** Codex has no ceiling. */
  datatype Limits = Limits(stall: nat, grace: nat, ceiling: Option<nat>)

  function ClaudeLimits(configured: Option<string>): Limits {
    Limits(StallTimeoutMs(configured), StartupGraceMs(configured), Some(MAX_ELAPSED_MS))
  }

  function CodexLimits(configured: Option<string>): Limits {
    Limits(StallTimeoutMs(configured), StartupGraceMs(configured), None)
  }

  lemma {:induction false} TimeoutBounds(configured: Option<string>, l: Limits)
    requires l == ClaudeLimits(configured) || l == CodexLimits(configured)
    ensures MIN_STALL_TIMEOUT_MS <= l.stall <= l.grace && DEFAULT_STARTUP_GRACE_MS <= l.grace
  {
  }

  /** `begun` is when the process was started, `lastProgress` at first when reading began. */
  datatype State = State(begun: nat, lastProgress: nat, turns: nat, running: nat, aborted: Option<nat>)

  function Timeout(l: Limits, s: State): nat {
    if s.turns > 0 then l.stall else l.grace
  }

  predicate OverCeiling(l: Limits, s: State, now: nat) {
    l.ceiling.Some? && now - s.begun >= l.ceiling.value
  }

  predicate Stalled(l: Limits, s: State, now: nat) {
    s.running == 0 && now - s.lastProgress >= Timeout(l, s)
  }

  predicate Due(l: Limits, s: State, now: nat) {
    OverCeiling(l, s, now) || Stalled(l, s, now)
  }

  function Next(l: Limits, s: State, e: Event): State {
    if s.aborted.Some? then s
    else
      match e
      case Tick(at) => if Due(l, s, at) then s.(aborted := Some(at)) else s
      case Line(at, Quiet) => s
      case Line(at, Progress(startsTurn, running)) =>
        s.(lastProgress := at, turns := if startsTurn then s.turns + 1 else s.turns, running := running)
  }

  function After(l: Limits, begun: nat, reading: nat, events: seq<Event>): State {
    if events == [] then State(begun, reading, 0, 0, None)
    else Next(l, After(l, begun, reading, events[..|events| - 1]), events[|events| - 1])
  }

  // --- When it aborts ---

  /** An abort happens at a heartbeat at which the ceiling or the timeout has been reached. */
  lemma {:induction false} AbortsOnlyWhenDue(l: Limits, begun: nat, reading: nat, events: seq<Event>) returns (k: nat)
    requires After(l, begun, reading, events).aborted.Some?
    ensures k < |events| && events[k] == Tick(After(l, begun, reading, events).aborted.value)
    ensures After(l, begun, reading, events[..k]).aborted.None?
    ensures Due(l, After(l, begun, reading, events[..k]), events[k].at)
  {
    var before := events[..|events| - 1];
    if After(l, begun, reading, before).aborted.Some? {
      k := AbortsOnlyWhenDue(l, begun, reading, before);
      assert before[..k] == events[..k];
    } else {
      k := |before|;
    }
  }

  function LastTick(reading: nat, events: seq<Event>): nat {
    if events == [] then reading
    else if events[|events| - 1].Tick? then events[|events| - 1].at
    else LastTick(reading, events[..|events| - 1])
  }

  /** The heartbeat timer keeps its period: nothing happens later than one period after a tick without
      another tick in between. */
  predicate Timely(reading: nat, events: seq<Event>) {
    events != [] ==>
      var before := events[..|events| - 1];
      Timely(reading, before) && events[|events| - 1].at <= LastTick(reading, before) + HEARTBEAT_MS
  }

  predicate NoProgress(events: seq<Event>) {
    forall i | 0 <= i < |events| :: events[i].Line? ==> events[i].effect.Quiet?
  }

  lemma {:induction false} WaitingToAbort(l: Limits, begun: nat, reading: nat, before: seq<Event>,
      after: seq<Event>, due: nat)
    requires After(l, begun, reading, before).aborted.None? && Due(l, After(l, begun, reading, before), due)
    requires LastTick(reading, before) <= due && NoProgress(after) && Timely(reading, before + after)
    ensures var s := After(l, begun, reading, before + after);
            if s.aborted.Some? then s.aborted.value <= due + HEARTBEAT_MS
            else s == After(l, begun, reading, before) && LastTick(reading, before + after) <= due
  {
    if after == [] {
      assert before + after == before;
    } else {
      var shorter, e := after[..|after| - 1], after[|after| - 1];
      assert (before + after)[..|before + after| - 1] == before + shorter;
      assert (before + after)[|before + after| - 1] == e;
      WaitingToAbort(l, begun, reading, before, shorter, due);
    }
  }

  /** Once the ceiling or the timeout has been reached and no progress is made, the watchdog aborts
      within one heartbeat period. */
  lemma {:induction false} AbortsWithinOnePeriod(
      l: Limits, begun: nat, reading: nat, before: seq<Event>, after: seq<Event>, due: nat)
    requires After(l, begun, reading, before).aborted.None? && Due(l, After(l, begun, reading, before), due)
    requires LastTick(reading, before) <= due && NoProgress(after) && Timely(reading, before + after)
    requires after != [] && after[|after| - 1].at > due + HEARTBEAT_MS
    ensures var s := After(l, begun, reading, before + after);
            s.aborted.Some? && s.aborted.value <= due + HEARTBEAT_MS
  {
    var shorter := after[..|after| - 1];
    assert (before + after)[..|before + after| - 1] == before + shorter;
    WaitingToAbort(l, begun, reading, before, shorter, due);
  }

  /** When progress was last made, read off the events alone. */
  function LastProgress(reading: nat, events: seq<Event>): nat {
    if events == [] then reading
    else
      var e := events[|events| - 1];
      if e.Line? && e.effect.Progress? then e.at else LastProgress(reading, events[..|events| - 1])
  }

  lemma {:induction false} ProgressIsNoted(l: Limits, begun: nat, reading: nat, events: seq<Event>)
    requires After(l, begun, reading, events).aborted.None?
    ensures After(l, begun, reading, events).lastProgress == LastProgress(reading, events)
    ensures After(l, begun, reading, events).begun == begun
  {
    if events != [] {
      ProgressIsNoted(l, begun, reading, events[..|events| - 1]);
    }
  }

  predicate IsProgress(e: Event) {
    e.Line? && e.effect.Progress?
  }

  function LastTime(reading: nat, events: seq<Event>): nat {
    if events == [] then reading else events[|events| - 1].at
  }

  /** Events come in the order of their times. */
  predicate Ordered(reading: nat, events: seq<Event>) {
    events != [] ==>
      var before, e := events[..|events| - 1], events[|events| - 1];
      Ordered(reading, before) && LastTime(reading, before) <= e.at
  }

  /** Every line of progress comes less than `stall` after the one before it. */
  predicate ShortGaps(reading: nat, events: seq<Event>, stall: nat) {
    events != [] ==>
      var before, e := events[..|events| - 1], events[|events| - 1];
      ShortGaps(reading, before, stall) && (IsProgress(e) ==> e.at < LastProgress(reading, before) + stall)
  }

  lemma {:induction false} TicksFallInGaps(reading: nat, events: seq<Event>, stall: nat, k: nat)
    requires Ordered(reading, events) && ShortGaps(reading, events, stall)
    requires LastTime(reading, events) < LastProgress(reading, events) + stall
    requires k < |events| && events[k].Tick?
    ensures events[k].at < LastProgress(reading, events[..k]) + stall
  {
    var before := events[..|events| - 1];
    if k < |before| {
      TicksFallInGaps(reading, before, stall, k);
      assert before[..k] == events[..k];
    }
  }

  /** A stream whose lines of progress are less than the timeout apart, and that has not been silent for
      longer since, has not been aborted before the ceiling. */
  lemma {:induction false} LivelyRunsToTheCeiling(l: Limits, begun: nat, reading: nat, events: seq<Event>)
    requires Ordered(reading, events) && ShortGaps(reading, events, l.stall) && l.stall <= l.grace
    requires LastTime(reading, events) < LastProgress(reading, events) + l.stall
    ensures var s := After(l, begun, reading, events);
            s.aborted.Some? ==> l.ceiling.Some? && s.aborted.value - begun >= l.ceiling.value
  {
    if After(l, begun, reading, events).aborted.Some? {
      var k := AbortsOnlyWhenDue(l, begun, reading, events);
      ProgressIsNoted(l, begun, reading, events[..k]);
      TicksFallInGaps(reading, events, l.stall, k);
    }
  }

  /** How many subagents run after some events, read off the events alone. */
  function RunningAfter(events: seq<Event>): nat {
    if events == [] then 0
    else
      var e := events[|events| - 1];
      if IsProgress(e) then e.effect.running else RunningAfter(events[..|events| - 1])
  }

  lemma {:induction false} RunningIsNoted(l: Limits, begun: nat, reading: nat, events: seq<Event>)
    requires After(l, begun, reading, events).aborted.None?
    ensures After(l, begun, reading, events).running == RunningAfter(events)
  {
    if events != [] {
      RunningIsNoted(l, begun, reading, events[..|events| - 1]);
    }
  }

  predicate TickOverCeiling(l: Limits, begun: nat, e: Event) {
    e.Tick? && l.ceiling.Some? && e.at - begun >= l.ceiling.value
  }

  predicate BusyAtEveryTick(events: seq<Event>) {
    forall k | 0 <= k < |events| && events[k].Tick? :: RunningAfter(events[..k]) > 0
  }

  /** While at every heartbeat some subagent is running, silence never aborts: the stream is aborted
      exactly when a heartbeat comes after the ceiling. */
  lemma {:induction false} RunningSubagentsAreWaitedFor(l: Limits, begun: nat, reading: nat, events: seq<Event>)
    requires BusyAtEveryTick(events)
    ensures After(l, begun, reading, events).aborted.Some? <==>
            exists k | 0 <= k < |events| :: TickOverCeiling(l, begun, events[k])
  {
    if events != [] {
      var n := |events| - 1;
      var before, s := events[..n], After(l, begun, reading, events[..n]);
      forall k | 0 <= k < n && before[k].Tick? ensures RunningAfter(before[..k]) > 0 {
        assert before[..k] == events[..k];
      }
      RunningSubagentsAreWaitedFor(l, begun, reading, before);
      if s.aborted.None? {
        RunningIsNoted(l, begun, reading, before);
        ProgressIsNoted(l, begun, reading, before);
      } else {
        var k :| 0 <= k < n && TickOverCeiling(l, begun, before[k]);
        assert TickOverCeiling(l, begun, events[k]);
      }
      if After(l, begun, reading, events).aborted.None? {
        forall k | 0 <= k < |events| ensures !TickOverCeiling(l, begun, events[k]) {
          assert k < n ==> !TickOverCeiling(l, begun, before[k]);
        }
      }
    }
  }

  // --- What the lines of the two agents do ---

  /** A beat of the timer, or a line. */
  datatype Arrival = Beat(at: nat) | Arrives(at: nat, line: string)

  function LinesOf(arrivals: seq<Arrival>): seq<string> {
    if arrivals == [] then []
    else
      var last := arrivals[|arrivals| - 1];
      LinesOf(arrivals[..|arrivals| - 1]) + if last.Arrives? then [last.line] else []
  }

  /** Stream events and assistant messages are progress; the streamer's own turn counter and set of
      subagents say the rest. */
  function ClaudeEffect(decode: string -> ClaudeOutput.Decoded, before: ClaudeOutput.StreamState, line: string,
      after: ClaudeOutput.StreamState): Effect
  {
    if Trim(line) != "" && (decode(line).Stream? || decode(line).Assistant?) then
      Progress(after.turnCount > before.turnCount, |after.activeSubagents|)
    else Quiet
  }

  function ClaudeEvents(decode: string -> ClaudeOutput.Decoded, late: nat -> bool, arrivals: seq<Arrival>): seq<Event> {
    if arrivals == [] then []
    else
      var earlier, last := arrivals[..|arrivals| - 1], arrivals[|arrivals| - 1];
      var before := ClaudeOutput.StreamLines(decode, late, LinesOf(earlier));
      var after := ClaudeOutput.StreamLines(decode, late, LinesOf(arrivals));
      ClaudeEvents(decode, late, earlier) +
      [if last.Beat? then Tick(last.at) else Line(last.at, ClaudeEffect(decode, before, last.line, after))]
  }

  lemma {:induction false} ClaudeLineFollows(l: Limits, s: State, at: nat,
      decode: string -> ClaudeOutput.Decoded, u: ClaudeOutput.StreamState, line: string, late: bool)
    requires s.aborted.None? ==> s.turns == u.turnCount && s.running == |u.activeSubagents|
    ensures var t := ClaudeOutput.OnLine(decode, u, line, late);
            var r := Next(l, s, Line(at, ClaudeEffect(decode, u, line, t)));
            r.aborted.None? ==> r.turns == t.turnCount && r.running == |t.activeSubagents|
  {
  }

  /** Until it aborts, the watchdog of a Claude stream counts the turns and running subagents of the streamer. */
  lemma {:induction false} ClaudeWatchFollows(l: Limits, begun: nat, reading: nat,
      decode: string -> ClaudeOutput.Decoded, late: nat -> bool, arrivals: seq<Arrival>)
    ensures var s := After(l, begun, reading, ClaudeEvents(decode, late, arrivals));
            var t := ClaudeOutput.StreamLines(decode, late, LinesOf(arrivals));
            s.aborted.None? ==> s.turns == t.turnCount && s.running == |t.activeSubagents|
  {
    if arrivals != [] {
      var earlier, last := arrivals[..|arrivals| - 1], arrivals[|arrivals| - 1];
      ClaudeWatchFollows(l, begun, reading, decode, late, earlier);
      var events := ClaudeEvents(decode, late, arrivals);
      assert events[..|events| - 1] == ClaudeEvents(decode, late, earlier);
      if last.Arrives? {
        var lines := LinesOf(earlier);
        FoldSnoc((s, line, k) => ClaudeOutput.OnLine(decode, s, line, late(k)), ClaudeOutput.START, lines, last.line);
        ClaudeLineFollows(l, After(l, begun, reading, ClaudeEvents(decode, late, earlier)), last.at,
                          decode, ClaudeOutput.StreamLines(decode, late, lines), last.line, late(|lines|));
      } else {
        assert LinesOf(arrivals) == LinesOf(earlier);
      }
    }
  }

  /** Turns, usage, commands and messages with text are progress. */
  function CodexEffect(decode: string -> CodexOutput.Event, before: CodexOutput.StreamState, line: string,
      after: CodexOutput.StreamState): Effect
  {
    if Trim(line) == "" then Quiet
    else
      var progress := Progress(after.turnCount > before.turnCount, |after.activeCommands|);
      match decode(line)
      case TurnStarted => progress
      case TurnCompleted(Some(_)) => progress
      case ItemEvent(_, Some(Command(_))) => progress
      case ItemEvent(Completed, Some(AgentMessage(text))) => if text != "" then progress else Quiet
      case _ => Quiet
  }

  function CodexEvents(decode: string -> CodexOutput.Event, arrivals: seq<Arrival>): seq<Event> {
    if arrivals == [] then []
    else
      var earlier, last := arrivals[..|arrivals| - 1], arrivals[|arrivals| - 1];
      var before := CodexOutput.StreamLines(decode, LinesOf(earlier));
      var after := CodexOutput.StreamLines(decode, LinesOf(arrivals));
      CodexEvents(decode, earlier) +
      [if last.Beat? then Tick(last.at) else Line(last.at, CodexEffect(decode, before, last.line, after))]
  }

  lemma {:induction false} CodexLineFollows(l: Limits, s: State, at: nat,
      decode: string -> CodexOutput.Event, u: CodexOutput.StreamState, line: string)
    requires s.aborted.None? ==> s.turns == u.turnCount && s.running == |u.activeCommands|
    ensures var t := CodexOutput.OnLine(decode, u, line);
            var r := Next(l, s, Line(at, CodexEffect(decode, u, line, t)));
            r.aborted.None? ==> r.turns == t.turnCount && r.running == |t.activeCommands|
  {
  }

  /** Until it aborts, the watchdog of a Codex stream counts the turns and running commands of the streamer. */
  lemma {:induction false} CodexWatchFollows(l: Limits, begun: nat, reading: nat,
      decode: string -> CodexOutput.Event, arrivals: seq<Arrival>)
    ensures var s := After(l, begun, reading, CodexEvents(decode, arrivals));
            var t := CodexOutput.StreamLines(decode, LinesOf(arrivals));
            s.aborted.None? ==> s.turns == t.turnCount && s.running == |t.activeCommands|
  {
    if arrivals != [] {
      var earlier, last := arrivals[..|arrivals| - 1], arrivals[|arrivals| - 1];
      CodexWatchFollows(l, begun, reading, decode, earlier);
      var events := CodexEvents(decode, arrivals);
      assert events[..|events| - 1] == CodexEvents(decode, earlier);
      if last.Arrives? {
        var lines := LinesOf(earlier);
        FoldSnoc((s, line, _) => CodexOutput.OnLine(decode, s, line), CodexOutput.START, lines, last.line);
        CodexLineFollows(l, After(l, begun, reading, CodexEvents(decode, earlier)), last.at,
                         decode, CodexOutput.StreamLines(decode, lines), last.line);
      } else {
        assert LinesOf(arrivals) == LinesOf(earlier);
      }
    }
  }

  /** The variables the heartbeat callback and the reading loop share. */
  class StreamWatch {
    const limits: Limits
    const startTime: nat
    var lastMeaningfulEventTime: nat
    var turnCount: nat
    /** how many subagents or commands are running */
    var active: nat
    var stalled: bool
    ghost var abortedAt: nat

    ghost function Snapshot(): State
      reads this
    {
      State(startTime, lastMeaningfulEventTime, turnCount, active, if stalled then Some(abortedAt) else None)
    }

    constructor (limits: Limits, startTime: nat, now: nat)
      ensures this.limits == limits && Snapshot() == After(limits, startTime, now, [])
    {
      this.limits, this.startTime := limits, startTime;
      lastMeaningfulEventTime, turnCount, active, stalled, abortedAt := now, 0, 0, false, 0;
    }

    /** The callback, which no longer runs once the reader has been cancelled. */
    method Heartbeat(now: nat)
      requires !stalled
      modifies `stalled, `abortedAt
      ensures Snapshot() == Next(limits, old(Snapshot()), Tick(now))
    {
      if limits.ceiling.Some? && now - startTime >= limits.ceiling.value {
        stalled, abortedAt := true, now;
        return;
      }
      var effectiveTimeout := if turnCount > 0 then limits.stall else limits.grace;
      if active == 0 && now - lastMeaningfulEventTime >= effectiveTimeout {
        stalled, abortedAt := true, now;
      }
    }

    method HandleLine(now: nat, effect: Effect)
      requires !stalled
      modifies `lastMeaningfulEventTime, `turnCount, `active
      ensures Snapshot() == Next(limits, old(Snapshot()), Line(now, effect))
    {
      if effect.Progress? {
        lastMeaningfulEventTime := now;
        if effect.startsTurn {
          turnCount := turnCount + 1;
        }
        active := effect.running;
      }
    }
  }
}
