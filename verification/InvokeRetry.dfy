/** The retry recursion of `invokeCLI` and `waitForClaudeSessionRelease` in `src/agents/invoke-cli.ts`.
    What a subprocess does, and what its output parses to, is an arbitrary `Attempt`. */
module InvokeRetry {
  import opened Text

  // --- Waiting for a session to be released ---

  datatype Owner = Owner(pid: int, path: string)

  /** What successive looks at the sessions directory find, and what the clock says: when waiting begins,
      when the loop tests it for the `k`-th time, and when a result is returned after look `k`. */
  datatype RawWatch = RawWatch(startedAt: int, testAt: nat -> int, returnAt: nat -> int, ownersAt: nat -> seq<Owner>)

  ghost predicate Ticking(w: RawWatch) {
    && w.startedAt <= w.testAt(0)
    && forall k: nat :: w.testAt(k) + 1 <= w.testAt(k + 1) && w.testAt(k) <= w.returnAt(k)
  }

  /** The clock never runs backwards, and every sleep advances it. */
  type Watch = w: RawWatch | Ticking(w)
    witness RawWatch(0, (k: nat) => 100 * k, (k: nat) => 100 * k, (k: nat) => [])

  datatype WaitResult = WaitResult(released: bool, waitedMs: int, owners: seq<Owner>)

  predicate InTime(w: Watch, timeoutMs: int, k: nat) {
    w.testAt(k) - w.startedAt < timeoutMs
  }

  /** The result after `k` looks that all found owners. */
  function WaitFrom(w: Watch, timeoutMs: int, k: nat): WaitResult
    decreases timeoutMs - (w.testAt(k) - w.startedAt)
  {
    if !InTime(w, timeoutMs, k) then WaitResult(false, w.returnAt(k) - w.startedAt, w.ownersAt(k))
    else if w.ownersAt(k + 1) == [] then WaitResult(true, w.returnAt(k + 1) - w.startedAt, [])
    else WaitFrom(w, timeoutMs, k + 1)
  }

  function Wait(w: Watch, timeoutMs: int): WaitResult {
    if w.ownersAt(0) == [] then WaitResult(true, 0, []) else WaitFrom(w, timeoutMs, 0)
  }

  method WaitForClaudeSessionRelease(w: Watch, timeoutMs: int) returns (r: WaitResult)
    ensures r == Wait(w, timeoutMs)
  {
    var startedAt := w.startedAt;
    var owners := w.ownersAt(0);
    if owners == [] {
      return WaitResult(true, 0, []);
    }
    var k := 0;
    while w.testAt(k) - startedAt < timeoutMs
      invariant Wait(w, timeoutMs) == WaitFrom(w, timeoutMs, k)
      invariant owners == w.ownersAt(k)
      decreases timeoutMs - (w.testAt(k) - startedAt)
    {
      k := k + 1;
      owners := w.ownersAt(k);
      if owners == [] {
        return WaitResult(true, w.returnAt(k) - startedAt, []);
      }
    }
    r := WaitResult(false, w.returnAt(k) - startedAt, owners);
  }

  /** Some look no later than the first one past the timeout found no owner. */
  ghost predicate FreeInTime(w: Watch, timeoutMs: int, from: nat) {
    exists k: nat :: k >= from && w.ownersAt(k) == [] && (k == 0 || InTime(w, timeoutMs, k - 1))
  }

  lemma {:induction false} WaitFromMeaning(w: Watch, timeoutMs: int, k: nat)
    requires w.ownersAt(k) != []
    ensures WaitFrom(w, timeoutMs, k).released == FreeInTime(w, timeoutMs, k)
    ensures WaitFrom(w, timeoutMs, k).released == (WaitFrom(w, timeoutMs, k).owners == [])
    ensures !WaitFrom(w, timeoutMs, k).released ==> WaitFrom(w, timeoutMs, k).waitedMs >= timeoutMs
    decreases timeoutMs - (w.testAt(k) - w.startedAt)
  {
    if !InTime(w, timeoutMs, k) {
      forall j: nat | j >= k && w.ownersAt(j) == [] ensures j > 0 && !InTime(w, timeoutMs, j - 1) {
        TestsAdvance(w, k, j - 1);
      }
    } else if w.ownersAt(k + 1) != [] {
      WaitFromMeaning(w, timeoutMs, k + 1);
      assert forall j: nat :: j >= k && w.ownersAt(j) == [] ==> j >= k + 1;
    } else {
      assert InTime(w, timeoutMs, k + 1 - 1);
    }
  }

  lemma {:induction false} TestsAdvance(w: Watch, i: nat, j: nat)
    requires i <= j
    ensures w.testAt(i) <= w.testAt(j)
    decreases j - i
  {
    if i < j {
      TestsAdvance(w, i, j - 1);
      assert w.testAt(j - 1) + 1 <= w.testAt(j - 1 + 1);
    }
  }

  /** A session counts as released exactly when no owner is left, and that happens exactly when a
      look within the timeout finds none; otherwise the timeout has been waited for in full. */
  lemma {:induction false} ReleasedMeansFree(w: Watch, timeoutMs: int)
    ensures var r := Wait(w, timeoutMs);
            && (r.released <==> r.owners == [])
            && (r.released <==> FreeInTime(w, timeoutMs, 0))
            && (!r.released ==> r.waitedMs >= timeoutMs)
  {
    if w.ownersAt(0) != [] {
      WaitFromMeaning(w, timeoutMs, 0);
    }
  }

  // --- One invocation ---

  datatype Cli = Claude | Codex | OtherCli

  /** The options a retry changes: `sessionId` set, `_resumeBusyRetryAttempt`, `_emptyRetried` and
      `_codexActionRetried`. */
  datatype Opts = Opts(sessionHeld: bool, busyAttempt: nat, emptyRetried: bool, actionRetried: bool)

  datatype CodexParse = NoAssistantResponse | OtherError |
    Response(preflightFallback: bool, planOnly: bool, evidenceMissing: bool)

  /** Everything one call of `invokeCLI` learns from outside: whether it answers without spawning,
      whether the process times out, its exit code, whether its trimmed output is non-empty, whether
      the error names a busy session, the owners seen while waiting, and the parsed Codex output. */
  datatype Attempt = Attempt(answeredWithoutProcess: bool, timedOut: bool, exitCode: int, hasOutput: bool,
                             busyError: bool, watch: Watch, codex: CodexParse)

  datatype Decision = Return | Throw | Retry(opts: Opts)

  const BUSY_RETRY_DELAYS_MS := [500, 1_000, 2_000]

  /** `getClaudeSessionBusyRetryDelayMs` */
  function BusyRetryDelay(attempt: nat): Option<int> {
    if attempt < |BUSY_RETRY_DELAYS_MS| then Some(BUSY_RETRY_DELAYS_MS[attempt]) else None
  }

  function DropSession(o: Opts): Decision {
    Retry(o.(sessionHeld := false))
  }

  function OnFailure(o: Opts, a: Attempt): Decision {
    if !o.sessionHeld then Throw
    else
      match if a.busyError then BusyRetryDelay(o.busyAttempt) else None
      case None => DropSession(o)
      case Some(delay) =>
        var wait := Wait(a.watch, delay);
        if wait.released then Retry(o.(busyAttempt := o.busyAttempt + 1))
        else if |wait.owners| > 0 then Retry(o.(busyAttempt := o.busyAttempt + 1))
        else DropSession(o)
  }

  function OnEmptyOutput(o: Opts): Decision {
    if o.sessionHeld then DropSession(o)
    else if !o.emptyRetried then Retry(o.(emptyRetried := true))
    else Throw
  }

  function OnCodexOutput(o: Opts, parse: CodexParse): Decision {
    match parse
    case NoAssistantResponse => if !o.emptyRetried then Retry(o.(emptyRetried := true)) else Throw
    case OtherError => Throw
    case Response(preflightFallback, planOnly, evidenceMissing) =>
      if preflightFallback then Return
      else if planOnly && !o.actionRetried then Retry(o.(actionRetried := true))
      else if o.actionRetried && evidenceMissing then Throw
      else Return
  }

  function Decide(cli: Cli, o: Opts, a: Attempt): Decision {
    if a.answeredWithoutProcess then Return
    else if a.timedOut then Throw
    else if a.exitCode != 0 && !(a.exitCode in {130, 143} && a.hasOutput) then OnFailure(o, a)
    else if !a.hasOutput then OnEmptyOutput(o)
    else if cli.Codex? then OnCodexOutput(o, a.codex)
    else Return
  }

  // --- The recursion ---

  /** Busy retries left, session still held, empty retry unused, action retry unused. */
  function Measure(o: Opts): nat {
    (if o.busyAttempt < 3 then 3 - o.busyAttempt else 0) + (if o.sessionHeld then 1 else 0)
    + (if o.emptyRetried then 0 else 1) + (if o.actionRetried then 0 else 1)
  }

  /** The measure drops by exactly one with every retry; nothing that was given up comes back. */
  lemma {:induction false} RetryUsesOneChance(cli: Cli, o: Opts, a: Attempt)
    requires Decide(cli, o, a).Retry?
    ensures var p := Decide(cli, o, a).opts;
            && Measure(p) == Measure(o) - 1
            && (p.sessionHeld ==> o.sessionHeld) && p.busyAttempt >= o.busyAttempt
            && (o.emptyRetried ==> p.emptyRetried) && (o.actionRetried ==> p.actionRetried)
  {
  }

  datatype Invocation = Invocation(trail: seq<Opts>, spawns: nat, returned: bool)

  /** The whole recursion, starting with attempt `n` of `world`: the options of every call, the
      number of processes spawned, and whether the call returned or threw. */
  function Invoke(cli: Cli, o: Opts, world: nat -> Attempt, n: nat): Invocation
    decreases Measure(o)
  {
    var a := world(n);
    var spawned := if a.answeredWithoutProcess then 0 else 1;
    match Decide(cli, o, a)
    case Return => Invocation([o], spawned, true)
    case Throw => Invocation([o], spawned, false)
    case Retry(p) =>
      RetryUsesOneChance(cli, o, a);
      var rest := Invoke(cli, p, world, n + 1);
      Invocation([o] + rest.trail, spawned + rest.spawns, rest.returned)
  }

  /** The most processes a call with these options can spawn. */
  function Bound(cli: Cli, o: Opts): nat {
    1 + (if o.sessionHeld then 1 + (if o.busyAttempt < 3 then 3 - o.busyAttempt else 0) else 0)
    + (if o.emptyRetried then 0 else 1) + (if cli.Codex? && !o.actionRetried then 1 else 0)
  }

  /** For every sequence of outcomes: at most `Bound` processes; along the trail the measure falls by
      one per call and a dropped session never returns. */
  lemma {:induction false} SpawnsBounded(cli: Cli, o: Opts, world: nat -> Attempt, n: nat)
    ensures var r := Invoke(cli, o, world, n);
            && r.spawns <= |r.trail| <= Bound(cli, o)
            && r.trail[0] == o
            && (forall i | 0 <= i < |r.trail| :: Measure(r.trail[i]) == Measure(o) - i)
            && (forall i, j | 0 <= i < j < |r.trail| :: r.trail[j].sessionHeld ==> r.trail[i].sessionHeld)
    decreases Measure(o)
  {
    match Decide(cli, o, world(n))
    case Retry(p) =>
      RetryUsesOneChance(cli, o, world(n));
      SpawnsBounded(cli, p, world, n + 1);
      RetryLowersBound(cli, o, world(n));
    case _ =>
  }

  lemma {:induction false} RetryLowersBound(cli: Cli, o: Opts, a: Attempt)
    requires Decide(cli, o, a).Retry?
    ensures Bound(cli, Decide(cli, o, a).opts) < Bound(cli, o)
  {
  }

  // --- The bound is attained ---

  const NO_OWNERS: Watch := RawWatch(0, (k: nat) => 100 * k, (k: nat) => 100 * k, (k: nat) => [])

  const PLAN := Attempt(false, false, 0, true, false, NO_OWNERS, Response(false, true, false))

  function Exit(code: int, hasOutput: bool, busyError: bool): Attempt {
    PLAN.(exitCode := code, hasOutput := hasOutput, busyError := busyError)
  }

  /** An attempt that uses up one more chance, or any attempt when none is left. */
  function Worst(cli: Cli, o: Opts): Attempt {
    if o.sessionHeld then (if o.busyAttempt < 3 then Exit(1, false, true) else Exit(1, false, false))
    else if !o.emptyRetried then Exit(0, false, false)
    else PLAN
  }

  /** The opts after `k` worst attempts. */
  function After(cli: Cli, o: Opts, k: nat): Opts {
    if k == 0 then o
    else
      var p := After(cli, o, k - 1);
      match Decide(cli, p, Worst(cli, p)) case Retry(q) => q case _ => p
  }

  function WorstWorld(cli: Cli, o: Opts): nat -> Attempt {
    (k: nat) => Worst(cli, After(cli, o, k))
  }

  lemma {:induction false} WorstStep(cli: Cli, o: Opts)
    ensures match Decide(cli, o, Worst(cli, o))
            case Retry(p) => Bound(cli, p) == Bound(cli, o) - 1
            case _ => Bound(cli, o) == 1
  {
  }

  lemma {:induction false} WorstFrom(cli: Cli, o: Opts, n: nat)
    ensures Invoke(cli, After(cli, o, n), WorstWorld(cli, o), n).spawns == Bound(cli, After(cli, o, n))
    decreases Bound(cli, After(cli, o, n))
  {
    var p := After(cli, o, n);
    WorstStep(cli, p);
    assert WorstWorld(cli, o)(n) == Worst(cli, p);
    match Decide(cli, p, Worst(cli, p))
    case Retry(q) =>
      assert After(cli, o, n + 1) == q;
      WorstFrom(cli, o, n + 1);
    case _ =>
  }

  /** For every CLI and all options there are outcomes that spawn exactly `Bound` processes. */
  lemma {:induction false} BoundAttained(cli: Cli, o: Opts)
    ensures exists world: nat -> Attempt :: Invoke(cli, o, world, 0).spawns == Bound(cli, o)
  {
    WorstFrom(cli, o, 0);
    assert After(cli, o, 0) == o;
  }

  /** A caller sets at most `sessionId`: then at most 7 processes are spawned, 7 happens, and only
      with Codex and a session to resume. */
  lemma {:induction false} AtMostSeven(cli: Cli, resume: bool, world: nat -> Attempt)
    ensures var o := Opts(resume, 0, false, false);
            && Invoke(cli, o, world, 0).spawns <= 7
            && (Invoke(cli, o, world, 0).spawns == 7 ==> cli.Codex? && resume)
    ensures exists w: nat -> Attempt :: Invoke(Codex, Opts(true, 0, false, false), w, 0).spawns == 7
  {
    SpawnsBounded(cli, Opts(resume, 0, false, false), world, 0);
    BoundAttained(Codex, Opts(true, 0, false, false));
  }

  /** A busy session is kept, whatever the wait finds, until the third retry has been used: the branch
      for a session that is neither released nor owned is never taken. */
  lemma {:induction false} BusySessionKept(cli: Cli, o: Opts, a: Attempt)
    requires o.sessionHeld && a.busyError && !a.answeredWithoutProcess && !a.timedOut
    requires a.exitCode != 0 && !(a.exitCode in {130, 143} && a.hasOutput)
    ensures Decide(cli, o, a) ==
            Retry(if o.busyAttempt < 3 then o.(busyAttempt := o.busyAttempt + 1) else o.(sessionHeld := false))
  {
    if o.busyAttempt < 3 {
      ReleasedMeansFree(a.watch, BUSY_RETRY_DELAYS_MS[o.busyAttempt]);
    }
  }
}
