# Model of the NyxHive agent runtime

A Dafny model of the parts of NyxHive where order, interleaving or exact text matters, with proofs
about all inputs and all runs. `dafny verify dfyconfig.toml` checks everything.

| file | component |
|---|---|
| `MessageStreaming.dfy` | the live-preview protocol: appends, a re-armable timer, one asynchronous start, a serialised chain of updates, and finalize |
| `ApiStream.dfy` | the incremental reader of a chat-completion event stream and the assembler of interleaved tool-call fragments |
| `ClaudeOutput.dfy`, `CodexOutput.dfy` | the NDJSON streamers of the two command-line agents and the parsers that re-read what they hand on |
| `Watchdog.dfy` | the heartbeat that aborts a stalled stream |
| `InvokeRetry.dfy` | the retry recursion around an agent process, and the wait for a session to be released |
| `ParallelLimit.dfy` | the bounded worker pool for tool calls |
| `ToolLoop.dfy` | the tool loop of the native agent and the message history it grows |
| `NativeSession.dfy` | compression, saving and loading of stored sessions |
| `Registry.dfy` | the agent registry: a map and a table written side by side, rebuilt at boot |
| `ActorMentions.dfy` | mention tags: the pass that reports them and the pass that removes them |
| `AppleScript.dfy` | the escaping printer for AppleScript expressions, with an evaluator |
| `MessageSender.dfy` | the serial iMessage sender and its memory of what was sent |
| `PathContainment.dfy` | the lexical path checks for tools |
| `Text.dfy` | string operations the others share |

Asynchronous code is modelled by its atomic steps, the stretches between two awaits. A function `Next`
specifies every step, a class performs the same steps on its fields and is proved equal to it, and the
theorems quantify over all sequences of steps, so over every interleaving the event loop could choose.
Loops over lines, fragments, rows and matches are methods with invariants, proved equal to declared
folds; the theorems are about the folds.

JSON decoding, the file system, clocks, processes and the model itself are parameters: functions from
text to decoded values, outcomes chosen freely, or times passed in. Every theorem holds for all of them.
Where an assumption is needed it is a named predicate: `Registry.Lossless` (decoding a JSON list gives
back what was encoded), `PathContainment.GivesNormal` (the file system answers with normalised paths),
`ClaudeOutput.BlankIsNotJson` (blank text does not decode) and its Codex twin; runs of the streaming
protocol start with a clock above 0, and `UpdateKeepsFloorIff` and `FloorEscaped` use that the empty model
name has the tier of unknown models (`src/defaults.ts:186-188`).

Claims that turned out false of the code are kept as concrete runs or inputs, next to the exact condition:

- `onStart` is called again when it throws before returning a promise (`OnStartCalledTwice`,
  `OnStartCalledOnce`);
- a tool call that rejects leaves its assistant message without results (`RejectedCallUnanswered`,
  `EveryCallAnsweredIff`);
- an assistant line whose tool input cannot be shown is kept twice (`TokensCountedTwice`,
  `FilterPreservesIff`);
- an update that blanks the model escapes the tier floor (`FloorEscaped`, `UpdateKeepsFloorIff`);
- a file whose name begins with two dots counts as outside its directory (`DottedNameRefused`,
  `ContainedIff`).

Likewise the branch at `src/agents/invoke-cli.ts:1351-1353`, for a session neither released nor owned after
the wait, is never taken (`BusySessionKept`, `ReleasedMeansFree`).

## Model

| member | source | states |
|---|---|---|
| `MessageStreaming.UpdatesNeverOverlap` | src/channels/message-streaming.ts:81-92 | In every interleaving at most one `onUpdate` call is in flight |
| `MessageStreaming.OnStartCalledOnce` | src/channels/message-streaming.ts:94-108 | `onStart` is called once for every attempt (a non-empty append before the first `finalize`, or a link that begins) up to the first that returns a promise; so at most once exactly when there is at most one attempt or the first one returns a promise |
| `MessageStreaming.StartedStaysStarted` | src/channels/message-streaming.ts:94-107 | Once `onStart` has returned a promise it is never called again |
| `MessageStreaming.OnStartCalledTwice` | src/channels/message-streaming.ts:96-97 | The unconditional claim fails: a run in which an `onStart` that throws is called twice |
| `MessageStreaming.NothingAfterFinalize` | src/channels/message-streaming.ts:27-68 | After `finalize` is called no text, preview call or link is added any more and no timer is armed |
| `MessageStreaming.QuietWhenFinalizeReturns` | src/channels/message-streaming.ts:57-65 | When `finalize` returns no `onUpdate` is in flight, and none is ever made again |
| `MessageStreaming.PreviewsExtend` | src/channels/message-streaming.ts:47-87 | Every preview is a prefix of the appended text, cut at `maxPreviewChars`, goes to the started message and extends the preview before it |
| `MessageStreaming.BufferIsAppendedText` | src/channels/message-streaming.ts:26-28 | The text is the concatenation of the chunks appended before the first `finalize` |
| `MessageStreaming.FinalizedByCall` | src/channels/message-streaming.ts:57-58 | The manager is closed exactly when `finalize` has been called |
| `MessageStreaming.NoTextForgotten` | src/channels/message-streaming.ts:26-92 | Once started, with no timer armed and no link waiting, the last preview shows the whole text |
| `MessageStreaming.PendingTextHasDeadline` | src/channels/message-streaming.ts:31-78 | While text is pending a flush is armed, at most `updateIntervalMs` after the first pending append |
| `MessageStreaming.DeadlineNeverLater` | src/channels/message-streaming.ts:67-79 | No later append or other step moves an armed deadline later |
| `MessageStreaming.FullBufferFlushesAtOnce` | src/channels/message-streaming.ts:31-34 | The append that fills `forceFlushChars` makes the flush due at that moment, and it stays due until it happens |
| `MessageStreaming.ChainStepsBounded` | src/channels/message-streaming.ts:57-92 | After `finalize` has been called the chain takes at most three more steps per link |
| `MessageStreaming.ChainNeverStuck` | src/channels/message-streaming.ts:57-92 | While a link has not settled and the start is not in flight, some link can step; once all have settled, every pending `finalize` can return |
| `MessageStreaming.InvHolds` | src/channels/message-streaming.ts:11-109 | The invariants of the whole object hold in every reachable state |
| `MessageStreaming.MessageStreamManager.constructor` | src/channels/message-streaming.ts:11-24 | The fresh manager is the initial state of the protocol |
| `MessageStreaming.MessageStreamManager.Append` | src/channels/message-streaming.ts:26-37 | The step on the fields is the step of the protocol |
| `MessageStreaming.MessageStreamManager.ScheduleFlush` | src/channels/message-streaming.ts:67-79 | Re-arms the timer only for an earlier deadline, and never once closed |
| `MessageStreaming.MessageStreamManager.FireTimer` | src/channels/message-streaming.ts:73-83 | Clears the pending count and adds one link to the chain |
| `MessageStreaming.MessageStreamManager.EnsureStarted` | src/channels/message-streaming.ts:94-108 | Calls `onStart` only while there is neither a message nor a promise |
| `MessageStreaming.MessageStreamManager.SettleStart` | src/channels/message-streaming.ts:97-105 | The message is set exactly when the start promise is fulfilled |
| `MessageStreaming.MessageStreamManager.BeginJob` | src/channels/message-streaming.ts:83-84 | A link that begins awaits the start, or ends if `onStart` throws |
| `MessageStreaming.MessageStreamManager.ResumeJob` | src/channels/message-streaming.ts:84-87 | Calls `onUpdate` with the current preview unless there is no message or the manager is closed |
| `MessageStreaming.MessageStreamManager.SettleUpdate` | src/channels/message-streaming.ts:87-91 | The link ends whether `onUpdate` succeeds or fails |
| `MessageStreaming.MessageStreamManager.GetPreviewText` | src/channels/message-streaming.ts:47-55 | The preview is a prefix of the text, never longer than `maxPreviewChars`, marked truncated exactly when the text is longer, and the whole text otherwise |
| `MessageStreaming.MessageStreamManager.Finalize` | src/channels/message-streaming.ts:57-63 | Closes, disarms the timer and waits for the chain of this moment |
| `MessageStreaming.MessageStreamManager.FinishFinalize` | src/channels/message-streaming.ts:63-64 | Returns the started message, if any, and the full text |
| `ApiStream.CallAPIStream` | src/agents/invoke-native-api.ts:228-325 | For every way of cutting the stream into chunks, response and text deltas are those declared for the uncut text |
| `ApiStream.ReadChunk` | src/agents/invoke-native-api.ts:243-299 | One decoded text more: carried-over text, totals and end are those of all text so far |
| `ApiStream.ReadLines` | src/agents/invoke-native-api.ts:247-299 | Exactly the lines up to the first `[DONE]` or throwing payload are taken |
| `ApiStream.ReadLine` | src/agents/invoke-native-api.ts:248-298 | One line: skipped, end marker, throwing payload or chunk |
| `ApiStream.AddChunk` | src/agents/invoke-native-api.ts:259-298 | The running totals are the declared summary of all chunks so far |
| `ApiStream.AddFragments` | src/agents/invoke-native-api.ts:282-295 | The call map is the declared one after the fragments of a chunk |
| `ApiStream.AddFragment` | src/agents/invoke-native-api.ts:285-293 | One fragment extends the entry of its own index and no other |
| `ApiStream.ChunkingIrrelevant` | src/agents/invoke-native-api.ts:239-251 | Two ways of cutting one text, one of them possibly with an unterminated last line more, give the same result and deltas |
| `ApiStream.ConsumeStops` | src/agents/invoke-native-api.ts:250-250 | Nothing after the end marker has any effect |
| `ApiStream.InterleavingIrrelevant` | src/agents/invoke-native-api.ts:281-295 | Fragment sequences that agree index by index assemble to the same calls, however interleaved |
| `ApiStream.SortedByIndex` | src/agents/invoke-native-api.ts:303-311 | The calls are listed by strictly ascending index, each index once |
| `ApiStream.DeltasAreTheText` | src/agents/invoke-native-api.ts:275-279 | No delta is empty and the content is the concatenation of the deltas, `null` if that is empty |
| `ClaudeOutput.ParseClaudeJsonOutput` | src/agents/output-parsers.ts:114-165 | The loop computes the declared fold over the lines of the text |
| `ClaudeOutput.ParseLine` | src/agents/output-parsers.ts:128-164 | One line adds its usage, tools, plan mode, text or result |
| `ClaudeOutput.ParseBlocks` | src/agents/output-parsers.ts:142-156 | The blocks of one message, in order |
| `ClaudeOutput.WeightsAreSummed` | src/agents/output-parsers.ts:116-155 | Tokens in, tokens out and number of texts together are summed over the lines: nothing is lost and nothing counted twice |
| `ClaudeOutput.StreamCLIOutput` | src/agents/invoke-cli.ts:1699-2019 | For every chunking, state and output are those declared for the lines of the whole text |
| `ClaudeOutput.HandleLines` | src/agents/invoke-cli.ts:1704-1997 | The lines of one chunk extend the state by exactly these lines |
| `ClaudeOutput.HandleLine` | src/agents/invoke-cli.ts:1705-1996 | One line: stream event, notice, assistant message, other or invalid |
| `ClaudeOutput.HandleEvent` | src/agents/invoke-cli.ts:1715-1931 | One stream event: block texts, turns, running subagents and emissions |
| `ClaudeOutput.MaybeEmitTextProgress` | src/agents/invoke-cli.ts:1594-1610 | Hands on the pending text if there is any, or if 150 ms have passed |
| `ClaudeOutput.ReadDetails` | src/agents/invoke-cli.ts:1960-1975 | Reading tool inputs for the progress line throws exactly when one of them cannot be sliced |
| `ClaudeOutput.KeepsExactly` | src/agents/invoke-cli.ts:1928-1995 | Which lines are kept, how often, and in what order |
| `ClaudeOutput.OutputParse` | src/agents/invoke-cli.ts:1928-2019 | For every text, parsing the filtered output is parsing the raw text with the lines that are kept twice standing twice |
| `ClaudeOutput.FilterPreservesIff` | src/agents/invoke-cli.ts:1928-2019 | Parsing the filtered output gives the whole result of parsing the raw text exactly when every line that is kept twice reports no tokens and carries no text |
| `ClaudeOutput.FilterPreservesParse` | src/agents/invoke-cli.ts:1928-2019 | In particular whenever no unreadable assistant line precedes the first stream event |
| `ClaudeOutput.TokensCountedTwice` | src/agents/invoke-cli.ts:1941-1995 | A text whose input tokens are counted twice |
| `ClaudeOutput.NoTextWithheld` | src/agents/invoke-cli.ts:1594-1610 | After every line the emitted deltas and the pending delta make up the full text, each emission carries the text so far, and only paragraph breaks are held back |
| `ClaudeOutput.StreamedTextIsFullText` | src/agents/invoke-cli.ts:1742-1811 | Streamed text and turn count are those declared by the sequence of events |
| `CodexOutput.ParseCodexJsonOutput` | src/agents/output-parsers.ts:337-374 | The loop computes the declared fold over the lines of the text |
| `CodexOutput.ParseLine` | src/agents/output-parsers.ts:348-373 | One line adds a turn, a tool, a text part or an error |
| `CodexOutput.StreamCodexOutput` | src/agents/invoke-cli.ts:2107-2248 | For every chunking, state and output are those declared for the lines of the whole text |
| `CodexOutput.HandleLines` | src/agents/invoke-cli.ts:2116-2234 | The lines of one chunk extend the state by exactly these lines |
| `CodexOutput.HandleLine` | src/agents/invoke-cli.ts:2117-2233 | Keeps every line that is not blank and updates the live totals |
| `CodexOutput.LiveTotalsAgree` | src/agents/invoke-cli.ts:2141-2229 | For every sequence of lines, live token totals, text and deltas equal what the parser computes from the same lines, and every delta's running text is the sum of the deltas up to it |
| `CodexOutput.OutputParse` | src/agents/invoke-cli.ts:2118-2248 | What the parser reads from the output: the terminated lines and the trimmed unterminated one |
| `CodexOutput.LiveTotalsAgreeIff` | src/agents/invoke-cli.ts:2107-2248 | For every text, live totals and deltas agree with what the output parses to exactly when the trimmed unterminated last line adds neither tokens nor text |
| `CodexOutput.TerminatedStreamAgrees` | src/agents/invoke-cli.ts:2107-2248 | For a stream ending in a newline, the output parses to what the raw text parses to, and the live totals are the parsed ones |
| `Watchdog.ConfiguredTimeout` | src/agents/stall-timeout.ts:5-17 | A configured number of milliseconds is read back from its digits and honoured from one minute up |
| `Watchdog.TimeoutBounds` | src/agents/stall-timeout.ts:13-21 | Every timeout is at least a minute, and the startup grace is at least the timeout and at least 20 minutes |
| `Watchdog.AbortsOnlyWhenDue` | src/agents/invoke-cli.ts:1641-1692 | An abort happens at a heartbeat at which the ceiling is reached, or no subagent runs and the silence has reached the timeout |
| `Watchdog.AbortsWithinOnePeriod` | src/agents/invoke-cli.ts:1641-1692 | Once due and without progress, it aborts within one heartbeat period |
| `Watchdog.LivelyRunsToTheCeiling` | src/agents/invoke-cli.ts:1683-1692 | If lines of progress are less than the timeout apart and the silence since the last is shorter, there is no abort before the ceiling, and none at all for Codex, which has no ceiling |
| `Watchdog.RunningSubagentsAreWaitedFor` | src/agents/invoke-cli.ts:1641-1692 | In every run in which some subagent is running at each heartbeat, the stream is aborted exactly when a heartbeat comes after the ceiling |
| `Watchdog.ClaudeWatchFollows` | src/agents/invoke-cli.ts:1714-1937 | Until it aborts, the watchdog of a Claude stream counts the turns and running subagents of the streamer that reads the same lines |
| `Watchdog.CodexWatchFollows` | src/agents/invoke-cli.ts:2117-2233 | Until it aborts, the watchdog of a Codex stream counts the turns and running commands of the streamer that reads the same lines |
| `Watchdog.ProgressIsNoted` | src/agents/invoke-cli.ts:1633-1638 | The recorded time is that of the last line that counts as progress |
| `Watchdog.StreamWatch.constructor` | src/agents/invoke-cli.ts:1633-1640 | The watch starts with silence counted from the beginning of reading |
| `Watchdog.StreamWatch.Heartbeat` | src/agents/invoke-cli.ts:1641-1692 | The callback aborts by the ceiling first, then by the timeout of the current turn |
| `Watchdog.StreamWatch.HandleLine` | src/agents/invoke-cli.ts:1714-1937 | Progress resets the silence and updates turn and running subagents; what a line does is derived from the decoded line by `ClaudeEffect` and `CodexEffect` |
| `InvokeRetry.WaitForClaudeSessionRelease` | src/agents/invoke-cli.ts:254-280 | The loop returns what the declared sequence of looks at the owners yields; the loop test and the waited time read the clock separately |
| `InvokeRetry.ReleasedMeansFree` | src/agents/invoke-cli.ts:262-279 | Released exactly when no owner is left, and exactly when a look within the timeout finds none; otherwise the timeout has been waited for in full |
| `InvokeRetry.RetryUsesOneChance` | src/agents/invoke-cli.ts:1302-1496 | Every retry lowers the measure by exactly one; a dropped session, a used busy retry and a used-up flag never come back |
| `InvokeRetry.SpawnsBounded` | src/agents/invoke-cli.ts:1302-1496 | For every sequence of outcomes the recursion ends, spawns at most `Bound` processes, and a dropped session never returns |
| `InvokeRetry.BoundAttained` | src/agents/invoke-cli.ts:1302-1496 | For every CLI and all options there are outcomes that spawn exactly `Bound` processes |
| `InvokeRetry.AtMostSeven` | src/agents/invoke-cli.ts:1302-1496 | From a caller's options at most 7 processes are spawned, 7 happens, and only with Codex and a session to resume |
| `InvokeRetry.BusySessionKept` | src/agents/invoke-cli.ts:1304-1358 | A busy session is resumed again until the third retry is used, whatever the wait finds: the branch for a session neither released nor owned is dead |
| `ParallelLimit.StartsAndConcurrency` | src/agents/invoke-native-api.ts:434-443 | At every step the jobs started are the first ones, once each and in order; at most `min(limit, n)` are in flight; no worker idles while jobs are left, until a rejection |
| `ParallelLimit.RunsTerminate` | src/agents/invoke-native-api.ts:436-441 | Every step settles one more job, so a run has at most `n` steps |
| `ParallelLimit.RunsProgress` | src/agents/invoke-native-api.ts:436-444 | Until all jobs have settled or one has rejected, some worker still waits for a job |
| `ParallelLimit.ResultsInOrder` | src/agents/invoke-native-api.ts:433-445 | When all jobs resolve, the results are those of the sequential map, in order |
| `ParallelLimit.LimitZeroRunsNothing` | src/agents/invoke-native-api.ts:443-444 | With limit 0 nothing runs and every result, of any type, is missing |
| `ParallelLimit.InvHolds` | src/agents/invoke-native-api.ts:429-446 | The invariants of the pool hold in every reachable state |
| `ParallelLimit.WorkerPool.constructor` | src/agents/invoke-native-api.ts:433-443 | Creates `min(limit, n)` workers, each at its first job |
| `ParallelLimit.WorkerPool.TakeJob` | src/agents/invoke-native-api.ts:437-439 | Takes the next index off the shared counter, or finishes |
| `ParallelLimit.WorkerPool.Settle` | src/agents/invoke-native-api.ts:439-439 | Stores the result at the index taken before the await |
| `ToolLoop.InvokeNativeAPI` | src/agents/invoke-native-api.ts:722-933 | However the loop ends, the messages are the initial ones, the blocks of the completed turns, and what a turn that ended by a rejected tool call had pushed |
| `ToolLoop.RunTurn` | src/agents/invoke-native-api.ts:722-932 | One turn extends the messages by one block, or ends the loop, leaving at most the opening of its block |
| `ToolLoop.ToolTurn` | src/agents/invoke-native-api.ts:819-932 | A turn with tool calls pushes the assistant message, reminder, results and guidance in this order; if a tool call rejects, the assistant message and reminder only |
| `ToolLoop.TakeResults` | src/agents/invoke-native-api.ts:883-932 | Failure streak, give-up, counters and pushed results after the tools have finished |
| `ToolLoop.RunTools` | src/agents/invoke-native-api.ts:844-881 | One result per call, or the rejection |
| `ToolLoop.PushToolResults` | src/agents/invoke-native-api.ts:892-928 | One tool message per call, with its id, in the order of the calls |
| `ToolLoop.CheckPlanning` | src/agents/invoke-native-api.ts:828-839 | The reminder is due exactly on turn 0 of a planning run whose calls include no `todo_write` |
| `ToolLoop.EveryError` | src/agents/invoke-native-api.ts:885-885 | True exactly when every result is an error |
| `ToolLoop.LoopKeepsShape` | src/agents/invoke-native-api.ts:722-933 | After any number of turns every block is an assistant message with its calls, at most one reminder (turn 0 only), one result per call with the same ids in the same order; turn count equals tools used; the failure counter is the trailing streak of failed turns, and the loop gives up exactly when it first reaches 3 |
| `ToolLoop.ModelCallsBounded` | src/agents/invoke-native-api.ts:722-749 | The model is called once per turn, at most `maxTurns` times |
| `ToolLoop.LimitsNeverIncrease` | src/agents/invoke-native-api.ts:401-405 | The output limit never increases during an invocation |
| `ToolLoop.BlockIsWellFormed` | src/agents/invoke-native-api.ts:819-932 | A single block has the promised shape |
| `ToolLoop.BlockAnswersItself` | src/agents/invoke-native-api.ts:819-928 | A block answers its own calls, in order, and nothing else |
| `ToolLoop.CompletedTurnsAnswer` | src/agents/invoke-native-api.ts:819-932 | Over all completed turns, the tool results answer exactly the tool calls, in order |
| `ToolLoop.EveryCallAnsweredIff` | src/agents/invoke-native-api.ts:722-933 | Over everything the loop appends, however it ends, the tool results answer exactly the tool calls if and only if no tool call rejected |
| `ToolLoop.RejectedCallUnanswered` | src/agents/invoke-native-api.ts:820-881 | The unconditional claim fails: one MCP call that times out leaves its assistant message without a result |
| `ToolLoop.StoppedStays` | src/agents/invoke-native-api.ts:757-895 | A loop that has ended stays as it is |
| `NativeSession.GuardsNeverFire` | src/agents/native-session.ts:78-162 | The guard on a short middle and the cap of 100 never have an effect; the compressed history has at most 50 messages; compression is idempotent |
| `NativeSession.SummaryNamesTools` | src/agents/native-session.ts:87-98 | The summary names every tool of the condensed part, each once, and no other |
| `NativeSession.RoundsKeepHistory` | src/agents/native-session.ts:128-180 | After any rounds of load, extend and save, at any times and with failing writes, the file holds the history of its conversation, condensed at most once, or nothing usable |
| `NativeSession.StoredMeansWindow` | src/agents/native-session.ts:78-110 | At most 50 messages, the first 4 and the last 20 ever sent (all while the history is short), at most one generated message, behind the first 4 |
| `NativeSession.EarlierToolsForgotten` | src/agents/native-session.ts:87-103 | A second compression condenses the first summary and forgets the tools it named |
| `NativeSession.SessionStore.LoadNativeSession` | src/agents/native-session.ts:128-143 | Missing, unreadable and expired sessions are absent; any other is returned as stored |
| `NativeSession.SessionStore.SaveNativeSession` | src/agents/native-session.ts:148-180 | Writes the trimmed history with the creation time of the existing session; a failed write leaves the file as it was |
| `Registry.RestartRebuildsMap` | src/agents/registry.ts:322-688 | After boot and any calls, loading the table again gives the same agents as are in memory, equal on every field except `updated_at` |
| `Registry.EncodeDecode` | src/agents/registry.ts:343-380 | Columns written by an insert are read back as the same profile |
| `Registry.ChangesAgree` | src/agents/registry.ts:560-577 | Updating columns and updating fields agree for every partial update |
| `Registry.InvocationDiverges` | src/agents/registry.ts:631-668 | `updated_at` is left out for a reason: an invocation writes it to the table only |
| `Registry.EnabledAfterBoot` | src/agents/registry.ts:187-311 | A row is enabled after boot exactly when it is configured and new, created by the configuration or already enabled, or an enabled system row |
| `Registry.BootKeepsHistory` | src/agents/registry.ts:193-311 | Boot removes no row and changes no statistics, creator or creation time |
| `Registry.BootTwice` | src/agents/registry.ts:187-311 | Booting again with one configuration changes nothing but `updated_at` |
| `Registry.ReboundSeedsAlike` | src/agents/registry.ts:222-226 | Boot writes soul bounds into the configuration it was given; booting any table with the configuration so changed seeds it alike |
| `Registry.ConfigAgentsStayEnabled` | src/agents/registry.ts:596-611 | From any state, no calls remove an agent or change its creator or creation time, and an enabled configured agent stays enabled |
| `Registry.ActiveCountBounded` | src/agents/registry.ts:439-627 | From any state, the number of enabled agents never exceeds 20 or the number at the beginning, whichever is more |
| `Registry.StatisticsAddUp` | src/agents/registry.ts:631-688 | From any state, every integer statistic of an agent grows by exactly what the calls for it recorded |
| `Registry.DirectoriesMerged` | src/agents/registry.ts:470-472 | The allowed directories are those of all three sources, each once, and no others |
| `Registry.UpdateKeepsFloorIff` | src/agents/registry.ts:538-560 | An accepted update keeps the tier floor exactly when it does not blank the model of a role that has one |
| `Registry.FloorEscaped` | src/agents/registry.ts:538-560 | The unconditional claim fails: an accepted update that blanks the model of a coder leaves it below its floor |
| `Registry.FloorHolds` | src/agents/registry.ts:534-560 | An agent on its floor stays on it over any calls that do not blank its own model, whatever happens to other agents |
| `Registry.AgentRegistry.constructor` | src/agents/registry.ts:159-174 | A new registry has seeded the table and loaded it |
| `Registry.AgentRegistry.SeedFromConfig` | src/agents/registry.ts:187-311 | The two loops leave the declared table and the declared configuration and do not touch the map |
| `Registry.AgentRegistry.DisableRemoved` | src/agents/registry.ts:191-198 | Disables exactly the enabled rows that are neither configured nor of the system |
| `Registry.AgentRegistry.UpsertConfigured` | src/agents/registry.ts:200-310 | Inserts missing agents, refreshes those the configuration created, leaves others alone, and writes the soul bounds into the configuration |
| `Registry.AgentRegistry.UpsertAgent` | src/agents/registry.ts:232-308 | One agent: inserted, refreshed or left alone |
| `Registry.AgentRegistry.ReloadAll` | src/agents/registry.ts:322-331 | The map holds one entry per row |
| `Registry.AgentRegistry.GetActiveCount` | src/agents/registry.ts:429-435 | The loop counts the enabled agents |
| `Registry.AgentRegistry.Create` | src/agents/registry.ts:439-532 | Refuses a bad key, a known key or a full house; otherwise writes row and entry |
| `Registry.AgentRegistry.Update` | src/agents/registry.ts:534-594 | Refuses an unknown agent or a tier below the floor; otherwise writes both sides |
| `Registry.AgentRegistry.Disable` | src/agents/registry.ts:596-611 | Refuses an unknown or configured agent; otherwise writes both sides |
| `Registry.AgentRegistry.Enable` | src/agents/registry.ts:613-627 | Refuses an unknown agent or a full house; otherwise writes both sides |
| `Registry.AgentRegistry.Record` | src/agents/registry.ts:631-688 | Statistics and delegation counters of a known agent, on both sides |
| `ActorMentions.ParseActorMentions` | src/agents/actor.ts:44-128 | Reported mentions and removed ranges are one and the same list; unknown agents are those outside code, not accepted and no action type; with no mention the response is returned as it is, otherwise what lies outside the ranges, tidied |
| `ActorMentions.MadeFacts` | src/agents/actor.ts:44-128 | That list holds exactly the tags outside code that name a remote or known agent, as whole disjoint matches in order |
| `ActorMentions.PassesAgree` | src/agents/actor.ts:90-121 | The two passes decide alike on every tag although they split the name differently |
| `ActorMentions.ParsePass` | src/agents/actor.ts:58-109 | The first loop reports exactly the accepted tags, and the unknown agents |
| `ActorMentions.Consider` | src/agents/actor.ts:60-108 | One match: in code, accepted, unknown or an action type |
| `ActorMentions.StripPass` | src/agents/actor.ts:112-122 | The replacement leaves exactly the text outside the reported ranges |
| `ActorMentions.GetCodeRanges` | src/agents/actor.ts:15-33 | Fences first, then inline spans that do not start inside a fence; testing against earlier inline spans as well makes no difference |
| `ActorMentions.AddInline` | src/agents/actor.ts:25-31 | The second loop of it |
| `ActorMentions.Exec` | src/agents/actor.ts:18-30 | Searching from a position finds the next match of the left-to-right list |
| `ActorMentions.ScanComplete` | src/agents/actor.ts:52-59 | A tag that starts outside every match found does not match at all |
| `ActorMentions.MatchesPattern` | src/agents/actor.ts:52-52 | The scanner matches up to a position exactly if some way of splitting the text into name, hint, white space and captured text satisfies the pattern and ends there, so backtracking finds nothing more |
| `ActorMentions.CapturedGreedily` | src/agents/actor.ts:52-52 | The captured text is what remains when the white space takes all it can |
| `ActorMentions.CapturedTask` | src/agents/actor.ts:52-64 | Whatever white space the pattern captures, the trimmed text of a mention is the trimmed body of its tag |
| `ActorMentions.TidyFacts` | src/agents/actor.ts:123-124 | The cleaned text has no outer white space and no two blank lines in a row |
| `ActorMentions.CollapseKeepsText` | src/agents/actor.ts:123-124 | Collapsing newlines changes no other character |
| `ActorMentions.PrintParsesBack` | src/agents/actor.ts:44-128 | Printing well-formed mentions between plain texts and parsing gives back the same agents, instances, hints, modes and texts, no unknown agents, and exactly the texts between the tags |
| `AppleScript.EscapeForAppleScript` | src/channels/imessage-send.ts:6-40 | For every text the printed expression evaluates to exactly that text, and it is the canonical one: literals hold plain characters only (no quote, no backslash) and are as long as possible |
| `AppleScript.TakeChar` | src/channels/imessage-send.ts:12-35 | The seven branches do two things: a plain character extends the pending literal, any other ends it and becomes a code |
| `AppleScript.FlushThenCode` | src/channels/imessage-send.ts:13-31 | Prints the pending literal and one code, in this order |
| `AppleScript.Flush` | src/channels/imessage-send.ts:13-13 | Prints the pending literal if there is one |
| `AppleScript.ShowEvaluates` | src/channels/imessage-send.ts:37-40 | Every canonical expression evaluates to the text it stands for |
| `AppleScript.CanonicalUnique` | src/channels/imessage-send.ts:6-40 | A text has exactly one canonical expression |
| `MessageSender.DeliversInCallOrder` | src/channels/imessage-send.ts:143-171 | In every interleaving there is at most one loop and one delivery; settled, in-progress and queued calls together are all calls in call order; each settles at most once |
| `MessageSender.NeverStranded` | src/channels/imessage-send.ts:162-171 | Waiting calls always have a loop, and without a loop every call has settled |
| `MessageSender.ThreeStepsPerCall` | src/channels/imessage-send.ts:162-171 | The loop takes exactly three steps per call, and a step is possible exactly while work is left |
| `MessageSender.FreshMeansSent` | src/channels/imessage-send.ts:108-128 | A faithful memory answers exactly whether something was sent under the key within the time |
| `MessageSender.IMessageSender.constructor` | src/channels/imessage-send.ts:101-105 | A fresh sender is idle and remembers nothing |
| `MessageSender.IMessageSender.Send` | src/channels/imessage-send.ts:143-160 | Queues the call for its target, starts the loop if none runs, and remembers text and chat |
| `MessageSender.IMessageSender.ProcessQueue` | src/channels/imessage-send.ts:162-165 | A second activation ends at once |
| `MessageSender.IMessageSender.Continue` | src/channels/imessage-send.ts:165-170 | Starts the next delivery, or ends the loop |
| `MessageSender.IMessageSender.EndDelivery` | src/channels/imessage-send.ts:148-157 | Settles the promise of the call being delivered |
| `MessageSender.IMessageSender.ResumeLoop` | src/channels/imessage-send.ts:167-168 | The pause begins when the loop resumes |
| `MessageSender.IMessageSender.EndSleep` | src/channels/imessage-send.ts:165-170 | The loop goes on after the pause |
| `MessageSender.IMessageSender.TrackSent` | src/channels/imessage-send.ts:130-141 | Both memories stay faithful, with three clock readings: for the text, for the chat and for pruning |
| `MessageSender.IMessageSender.Prune` | src/channels/imessage-send.ts:134-140 | Deletes exactly the expired texts |
| `MessageSender.IMessageSender.WasSentByUs` | src/channels/imessage-send.ts:108-117 | True exactly when a text that counts as the same was sent in the last 30 seconds |
| `MessageSender.IMessageSender.IsEchoCooldown` | src/channels/imessage-send.ts:120-128 | True exactly when something was sent to the chat in the last 5 seconds |
| `PathContainment.ContainedIff` | src/agents/tools.ts:217-220 | A path is contained exactly when the base's segments are a prefix of its segments and the next segment does not begin with two dots |
| `PathContainment.DottedNameRefused` | src/agents/tools.ts:219-219 | A file of the base itself is refused if its name begins with two dots |
| `PathContainment.RelativeLeadsThere` | src/agents/tools.ts:233-233 | For all normalised paths, resolving the relative path from one to another gives the other |
| `PathContainment.ResolveNormal` | src/agents/tools.ts:210-255 | Resolving any text leaves no empty, `.` or `..` segment |
| `PathContainment.Rebased` | src/agents/tools.ts:231-234 | A path below a base lands at the same place below the canonical form of the base |
| `PathContainment.ValidIff` | src/agents/tools.ts:245-272 | Accepted exactly when there is no null byte and the resolved path lies below the canonical form of an allowed base |
| `PathContainment.NewFileAccepted` | src/agents/tools.ts:222-272 | A path that does not exist yet below an allowed base is moved to the canonical form of the first such base and accepted |
| `PathContainment.NewFileBelowAnyBase` | src/agents/tools.ts:222-272 | So it is accepted whichever allowed base it lies below |
| `Text.FeedChunk` | src/agents/invoke-cli.ts:1702-1704 | Splitting carried-over text and chunk yields exactly the lines and the rest of the longer text |

## Left out

- Text: a `char` is a Unicode scalar value, while the program counts UTF-16 units; a cut inside a surrogate pair and the decoding of bytes split across chunks are not modelled.
- Text: lower-casing covers the ASCII letters, which is all that the places modelled look at.
- MessageStreaming.MessageStreamManager.Append: the callbacks `render` and `onError` are not modelled, nor an `onStart` that resolves to `null`, nor the unhandled rejection of the promise that `append` discards.
- ApiStream.CallAPIStream: request building, HTTP errors and the request timeout; a payload whose `choices` or `tool_calls` have the wrong shape.
- ClaudeOutput.StreamCLIOutput: what is reported about tools and subagents (activity lines, execution events, file changes), the harness signals and the log.
- ClaudeOutput.HandleLine: activity lines and execution events, as for the whole stream.
- ClaudeOutput.ParseClaudeJsonOutput: the final result built from the totals (response text, cost, plan text, input requests); the program trims the output before parsing it.
- CodexOutput.StreamCodexOutput: command events and previews.
- CodexOutput.ParseCodexJsonOutput: the final result built from the totals, and the error for a run without any response.
- Watchdog.AbortsWithinOnePeriod: the heartbeat timer is assumed to keep its period; a delayed timer delays the abort by as much.
- Watchdog.ConfiguredTimeout: numbers are unbounded; more than 308 digits, which the program treats as not configured, are not singled out.
- InvokeRetry.SpawnsBounded: what happens before a process is spawned (prompt building, capability checks, rate limits) is one free outcome of an attempt; process kill and file removal have no effect in the model.
- ParallelLimit: jobs that throw before returning a promise are rejections; what running workers do after a rejection is not looked at beyond the jobs they settle.
- ToolLoop.InvokeNativeAPI: retries and fallbacks inside one model call, tool repair, and the answer text after the loop.
- ToolLoop.EveryCallAnsweredIff: speaks of what the loop appends; a stored session may have lost one half of a pair to a compression cut.
- NativeSession.RoundsKeepHistory: the file holds no foreign edits, and no message sent has the form of a generated summary.
- Registry.StatisticsAddUp: leaves out the cost, which the program adds in floating point.
- Registry.RestartRebuildsMap: the table ignores a missing row and has no other failures; the column `consecutive_stuck` and the running-agents map are not part of this model.
- Registry: souls are given as the directories and model bounds they contribute, so soul compilation is not modelled, nor is `max_tool_turns`, which boot takes from the soul into the configuration.
- ActorMentions.ParseActorMentions: the file paths and verification hints extracted from a mention, and the other tag parsers of the file.
- AppleScript.EscapeForAppleScript: sending the expression and the checks on recipient and chat identifiers.
- MessageSender.IMessageSender.TrackSent: `Date.now()` never runs backwards.
- PathContainment.ValidIff: POSIX paths only; symbolic links are one partial function, and what a tool does with an accepted path is not modelled.
- Everything else in the repository: chat platforms, routing, prompts, scheduling, storage and the server are not part of this model.
