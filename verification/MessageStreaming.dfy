/** `src/channels/message-streaming.ts`: live previews of a message that is still being produced.

    Every stretch of code that runs without awaiting is one atomic step; the host interleaves the
    steps as it likes. `Next` is the specification of each step, the class at the end performs the
    same steps on its fields, and the lemmas are about all runs of `Next`. */
module MessageStreaming {
  import opened Text

  // --- State and events ---

  datatype Options = Options(updateIntervalMs: nat, forceFlushChars: int, maxPreviewChars: nat)

  datatype Preview = Preview(text: string, truncated: bool)

  function PreviewOf(o: Options, buffer: string): Preview {
    if |buffer| <= o.maxPreviewChars then Preview(buffer, false)
    else Preview(buffer[..o.maxPreviewChars], true)
  }

  /** The promise kept in `startPromise`. */
  datatype StartPromise<+M> = NotCalled | InFlight | Fulfilled(message: M) | Rejected

  /** One link of `updateChain`; a link begins only when the link before it is `Done`. */
  datatype JobPhase = Waiting | AwaitingStart | Updating | Done

  /** What a call of the caller's `onStart` does before it yields. */
  datatype OnStart = ReturnsPromise | Throws

  datatype Update<+M> = Update(message: M, preview: Preview)

  datatype Event<+M> =
    | Append(chunk: string, onStart: OnStart)
    | TimerFires
    | StartSettles(result: Option<M>)
    | JobBegins(job: nat, onStart: OnStart)
    | JobResumes(job: nat)
    | UpdateSettles(job: nat)
    | FinalizeCalled
    | FinalizeReturns(call: nat)
    | ClockAdvances(ms: nat)

  /** The fields of the manager, the host clock, and what the outside world has observed:
      how often `onStart` was called and threw, every `onUpdate` call in order, and for every
      `finalize` call the number of links it waits for. `pendingSince` is the time of the first
      append since the last flush and `shown` the buffer length the last preview was cut from. */
  datatype State<+M> = State(
    now: int,
    buffer: string,
    pendingChars: nat,
    timer: bool,
    nextFlushAt: int,
    start: StartPromise<M>,
    updateChain: seq<JobPhase>,
    finalized: bool,
    onStartCalls: nat,
    onStartThrows: nat,
    updates: seq<Update<M>>,
    waits: seq<nat>,
    pendingSince: int,
    shown: nat)

  function InitialState<M>(now: int): State<M> {
    State(now, "", 0, false, 0, NotCalled, [], false, 0, 0, [], [], now, 0)
  }

  // --- The steps ---

  function StartOnce<M>(s: State<M>, onStart: OnStart): State<M> {
    if !s.start.NotCalled? then s
    else if onStart.Throws? then
      s.(onStartCalls := s.onStartCalls + 1, onStartThrows := s.onStartThrows + 1)
    else
      s.(onStartCalls := s.onStartCalls + 1, start := InFlight)
  }

  function Rearm<M>(s: State<M>, delayMs: nat): State<M> {
    if s.finalized then s
    else if s.timer && s.nextFlushAt <= s.now + delayMs then s
    else s.(timer := true, nextFlushAt := s.now + delayMs)
  }

  function AppendDelay<M>(o: Options, s: State<M>): nat {
    if s.pendingChars >= o.forceFlushChars then 0
    else if s.nextFlushAt > 0 then (if s.nextFlushAt >= s.now then s.nextFlushAt - s.now else 0)
    else o.updateIntervalMs
  }

  function Accept<M>(s: State<M>, chunk: string): State<M> {
    s.(buffer := s.buffer + chunk,
       pendingChars := s.pendingChars + |chunk|,
       pendingSince := if s.pendingChars == 0 then s.now else s.pendingSince)
  }

  function AppendStep<M>(o: Options, s: State<M>, chunk: string, onStart: OnStart): State<M> {
    if s.finalized || chunk == "" then s
    else
      var t := StartOnce(Accept(s, chunk), onStart);
      Rearm(t, AppendDelay(o, t))
  }

  function TimerStep<M>(s: State<M>): State<M> {
    s.(timer := false, nextFlushAt := 0, pendingChars := 0, updateChain := s.updateChain + [Waiting])
  }

  function SetJob<M>(s: State<M>, job: nat, phase: JobPhase): State<M>
    requires job < |s.updateChain|
  {
    s.(updateChain := s.updateChain[job := phase])
  }

  function BeginStep<M>(s: State<M>, job: nat, onStart: OnStart): State<M>
    requires job < |s.updateChain|
  {
    var t := StartOnce(s, onStart);
    SetJob(t, job, if t.start.NotCalled? then Done else AwaitingStart)
  }

  function ResumeStep<M>(o: Options, s: State<M>, job: nat): State<M>
    requires job < |s.updateChain|
  {
    if s.start.Fulfilled? && !s.finalized then
      SetJob(s, job, Updating).(
        updates := s.updates + [Update(s.start.message, PreviewOf(o, s.buffer))],
        shown := |s.buffer|)
    else
      SetJob(s, job, Done)
  }

  predicate AtPhase<M>(s: State<M>, job: nat, phase: JobPhase) {
    job < |s.updateChain| && s.updateChain[job] == phase
  }

  /** When the host may perform a step. */
  predicate Enabled<M>(s: State<M>, e: Event<M>) {
    match e
    case Append(_, _) => true
    case TimerFires => s.timer && s.nextFlushAt <= s.now
    case StartSettles(_) => s.start.InFlight?
    case JobBegins(k, _) => AtPhase(s, k, Waiting) && (k == 0 || AtPhase(s, k - 1, Done))
    case JobResumes(k) => AtPhase(s, k, AwaitingStart) && (s.start.Fulfilled? || s.start.Rejected?)
    case UpdateSettles(k) => AtPhase(s, k, Updating)
    case FinalizeCalled => true
    case FinalizeReturns(c) => c < |s.waits| && (s.waits[c] == 0 || AtPhase(s, s.waits[c] - 1, Done))
    case ClockAdvances(_) => true
  }

  function Next<M>(o: Options, s: State<M>, e: Event<M>): State<M>
    requires Enabled(s, e)
  {
    match e
    case Append(chunk, onStart) => AppendStep(o, s, chunk, onStart)
    case TimerFires => TimerStep(s)
    case StartSettles(result) =>
      s.(start := match result case Some(m) => Fulfilled(m) case None => Rejected)
    case JobBegins(k, onStart) => BeginStep(s, k, onStart)
    case JobResumes(k) => ResumeStep(o, s, k)
    case UpdateSettles(k) => SetJob(s, k, Done)
    case FinalizeCalled => s.(finalized := true, timer := false, waits := s.waits + [|s.updateChain|])
    case FinalizeReturns(_) => s
    case ClockAdvances(ms) => s.(now := s.now + ms)
  }

  // --- Runs ---

  /** `states` is the run that `events` drive from a fresh manager; the clock starts above 0. */
  ghost predicate Run<M(!new)>(o: Options, events: seq<Event<M>>, states: seq<State<M>>) {
    && |states| == |events| + 1
    && states[0].now > 0 && states[0] == InitialState(states[0].now)
    && forall i | 0 <= i < |events| :: StepAt(o, events, states, i)
  }

  ghost predicate StepAt<M(!new)>(o: Options, events: seq<Event<M>>, states: seq<State<M>>, i: nat)
    requires i < |events| && i + 1 < |states|
  {
    Enabled(states[i], events[i]) && states[i + 1] == Next(o, states[i], events[i])
  }

  // --- Invariants ---

  /** Links settle in order: behind a link that is not done everything still waits. */
  ghost predicate ChainInOrder<M>(s: State<M>) {
    forall i, j | 0 <= i < j < |s.updateChain| :: s.updateChain[i].Done? || s.updateChain[j].Waiting?
  }

  ghost predicate StartCounted<M>(s: State<M>) {
    s.onStartCalls == s.onStartThrows + (if s.start.NotCalled? then 0 else 1)
  }

  ghost predicate PreviewsGrow<M>(o: Options, s: State<M>) {
    && s.shown <= |s.buffer|
    && (s.updates != [] ==> s.start.Fulfilled?)
    && (forall i | 0 <= i < |s.updates| :: ShownPreview(o, s, i))
    && (forall i, j | 0 <= i < j < |s.updates| ::
          s.updates[i].preview.text <= s.updates[j].preview.text)
    && (if s.updates == [] then s.shown == 0
        else s.updates[|s.updates| - 1].preview == PreviewOf(o, s.buffer[..s.shown]))
  }

  ghost predicate ShownPreview<M>(o: Options, s: State<M>, i: nat)
    requires i < |s.updates|
  {
    var p := s.updates[i].preview;
    && s.start == Fulfilled(s.updates[i].message)
    && p.text <= s.buffer
    && |p.text| <= o.maxPreviewChars
    && (p.truncated ==> |p.text| == o.maxPreviewChars)
  }

  /** While the manager is open, a timer is armed exactly when text is pending, and it is due
      no later than one update interval after the first pending append. */
  ghost predicate TimerArmed<M>(o: Options, s: State<M>) {
    && 0 < s.now
    && (!s.finalized ==> (s.timer <==> s.pendingChars > 0))
    && (!s.finalized && !s.timer ==> s.nextFlushAt == 0)
    && (s.timer ==> 0 < s.nextFlushAt <= s.pendingSince + o.updateIntervalMs && 0 < s.pendingSince <= s.now)
    && (s.finalized ==> !s.timer)
  }

  ghost predicate Idle<M>(s: State<M>) {
    forall i | 0 <= i < |s.updateChain| :: !s.updateChain[i].Waiting? && !s.updateChain[i].AwaitingStart?
  }

  /** Nothing is pending and no link is going to read the buffer: then it has been read in full. */
  ghost predicate AllShown<M>(s: State<M>) {
    (!s.finalized && (s.start.InFlight? || s.start.Fulfilled?) && s.pendingChars == 0 && Idle(s)) ==>
      s.shown == |s.buffer|
  }

  ghost predicate WaitsForAll<M>(s: State<M>) {
    && (s.finalized <==> s.waits != [])
    && (forall c | 0 <= c < |s.waits| :: s.waits[c] == |s.updateChain|)
  }

  /** A link awaits the start only if there is one to await. */
  ghost predicate StartAwaited<M>(s: State<M>) {
    forall k | 0 <= k < |s.updateChain| :: s.updateChain[k].AwaitingStart? ==> !s.start.NotCalled?
  }

  ghost predicate Inv<M>(o: Options, s: State<M>) {
    && ChainInOrder(s) && StartCounted(s) && PreviewsGrow(o, s)
    && TimerArmed(o, s) && AllShown(s) && WaitsForAll(s) && StartAwaited(s)
  }

  lemma {:induction false} SetInOrder<M>(s: State<M>, k: nat, phase: JobPhase, t: State<M>)
    requires ChainInOrder(s) && k < |s.updateChain| && !s.updateChain[k].Done?
    requires !s.updateChain[k].Waiting? || k == 0 || s.updateChain[k - 1].Done?
    requires t.updateChain == s.updateChain[k := phase]
    ensures ChainInOrder(t)
  {
    forall i | 0 <= i < k ensures s.updateChain[i].Done? {
      assert !s.updateChain[k].Waiting? || s.updateChain[k - 1].Done?;
    }
  }

  lemma {:induction false} ChainInOrderStep<M>(o: Options, s: State<M>, e: Event<M>, t: State<M>)
    requires ChainInOrder(s) && Enabled(s, e) && t == Next(o, s, e)
    ensures ChainInOrder(t)
  {
    match e
    case JobBegins(k, _) => SetInOrder(s, k, t.updateChain[k], t);
    case JobResumes(k) => SetInOrder(s, k, t.updateChain[k], t);
    case UpdateSettles(k) => SetInOrder(s, k, Done, t);
    case _ =>
  }

  /** A step that shows no preview and only adds to the buffer. */
  lemma {:induction false} PreviewsKept<M>(o: Options, s: State<M>, t: State<M>)
    requires PreviewsGrow(o, s) && t.updates == s.updates && t.shown == s.shown && s.buffer <= t.buffer
    requires t.start == s.start || s.updates == []
    ensures PreviewsGrow(o, t)
  {
    assert t.buffer[..t.shown] == s.buffer[..s.shown];
    forall i | 0 <= i < |t.updates| ensures ShownPreview(o, t, i) {
      assert ShownPreview(o, s, i);
    }
  }

  lemma {:induction false} PreviewsGrowStep<M>(o: Options, s: State<M>, e: Event<M>, t: State<M>)
    requires PreviewsGrow(o, s) && StartCounted(s) && Enabled(s, e) && t == Next(o, s, e)
    ensures PreviewsGrow(o, t)
  {
    if e.JobResumes? && s.start.Fulfilled? && !s.finalized {
      NewPreview(o, s, e.job);
    } else {
      PreviewsKept(o, s, t);
    }
  }

  lemma {:induction false} NewPreview<M>(o: Options, s: State<M>, job: nat)
    requires PreviewsGrow(o, s) && job < |s.updateChain| && s.start.Fulfilled? && !s.finalized
    ensures PreviewsGrow(o, ResumeStep(o, s, job))
  {
    var t := ResumeStep(o, s, job);
    assert t.buffer[..t.shown] == s.buffer;
    forall i | 0 <= i < |t.updates| ensures ShownPreview(o, t, i) {
      if i < |s.updates| {
        assert ShownPreview(o, s, i);
      }
    }
    forall i, j | 0 <= i < j < |t.updates|
      ensures t.updates[i].preview.text <= t.updates[j].preview.text
    {
      if j == |s.updates| {
        assert ShownPreview(o, s, i);
      }
    }
  }

  lemma {:induction false} IdleAfterUpdate<M>(s: State<M>, k: nat)
    requires AtPhase(s, k, Updating)
    ensures Idle(SetJob(s, k, Done)) ==> Idle(s)
  {
    var t := SetJob(s, k, Done);
    if Idle(t) {
      forall i | 0 <= i < |s.updateChain| ensures !s.updateChain[i].Waiting? && !s.updateChain[i].AwaitingStart? {
        assert i != k ==> t.updateChain[i] == s.updateChain[i];
      }
    }
  }

  lemma {:induction false} AllShownStep<M>(o: Options, s: State<M>, e: Event<M>, t: State<M>)
    requires Inv(o, s) && Enabled(s, e) && t == Next(o, s, e)
    ensures AllShown(t)
  {
    match e
    case TimerFires =>
      assert t.updateChain[|s.updateChain|].Waiting?;
    case JobBegins(k, _) =>
      if !t.start.NotCalled? {
        assert t.updateChain[k].AwaitingStart?;
      }
    case JobResumes(_) =>
    case UpdateSettles(k) =>
      IdleAfterUpdate(s, k);
    case _ =>
      assert t.updateChain == s.updateChain;
  }

  lemma {:induction false} TimerArmedStep<M>(o: Options, s: State<M>, e: Event<M>, t: State<M>)
    requires TimerArmed(o, s) && Enabled(s, e) && t == Next(o, s, e)
    ensures TimerArmed(o, t)
  {
  }

  lemma {:induction false} StartStep<M>(o: Options, s: State<M>, e: Event<M>, t: State<M>)
    requires StartCounted(s) && Enabled(s, e) && t == Next(o, s, e)
    ensures StartCounted(t)
    ensures !s.start.NotCalled? ==> !t.start.NotCalled?
  {
  }

  lemma {:induction false} AwaitedStep<M>(o: Options, s: State<M>, e: Event<M>, t: State<M>)
    requires StartAwaited(s) && Enabled(s, e) && t == Next(o, s, e)
    requires !s.start.NotCalled? ==> !t.start.NotCalled?
    ensures StartAwaited(t)
  {
  }

  lemma {:induction false} WaitsStep<M>(o: Options, s: State<M>, e: Event<M>, t: State<M>)
    requires WaitsForAll(s) && TimerArmed(o, s) && Enabled(s, e) && t == Next(o, s, e)
    ensures WaitsForAll(t)
  {
  }

  lemma {:induction false} InvStep<M>(o: Options, s: State<M>, e: Event<M>, t: State<M>)
    requires Inv(o, s) && Enabled(s, e) && t == Next(o, s, e)
    ensures Inv(o, t)
  {
    ChainInOrderStep(o, s, e, t);
    PreviewsGrowStep(o, s, e, t);
    AllShownStep(o, s, e, t);
    TimerArmedStep(o, s, e, t);
    StartStep(o, s, e, t);
    AwaitedStep(o, s, e, t);
    WaitsStep(o, s, e, t);
  }

  // --- Theorems over runs ---

  lemma {:induction false} InvHolds<M(!new)>(o: Options, events: seq<Event<M>>, states: seq<State<M>>, i: nat)
    requires Run(o, events, states) && i < |states|
    ensures Inv(o, states[i])
  {
    if i > 0 {
      InvHolds(o, events, states, i - 1);
      assert StepAt(o, events, states, i - 1);
      InvStep(o, states[i - 1], events[i - 1], states[i]);
    }
  }

  /** `onUpdate` calls never overlap. */
  lemma {:induction false} UpdatesNeverOverlap<M(!new)>(o: Options, events: seq<Event<M>>, states: seq<State<M>>,
      i: nat, j: nat, k: nat)
    requires Run(o, events, states) && i < |states|
    requires AtPhase(states[i], j, Updating) && AtPhase(states[i], k, Updating)
    ensures j == k
  {
    InvHolds(o, events, states, i);
  }

  /** What `onStart` does whenever the manager would start: at every non-empty append before the first
      `finalize`, and at the beginning of every link of the chain. */
  ghost function Attempts<M>(events: seq<Event<M>>): seq<OnStart> {
    if events == [] then []
    else
      var before, e := events[..|events| - 1], events[|events| - 1];
      Attempts(before) +
      match e
      case Append(chunk, onStart) => if chunk != "" && !FinalizeSeen(before) then [onStart] else []
      case JobBegins(_, onStart) => [onStart]
      case _ => []
  }

  /** The attempts up to and including the first that returns a promise. */
  function CallsOf(attempts: seq<OnStart>): nat {
    if attempts == [] then 0
    else if attempts[0].ReturnsPromise? then 1
    else 1 + CallsOf(attempts[1..])
  }

  predicate AllThrow(attempts: seq<OnStart>) {
    forall k | 0 <= k < |attempts| :: attempts[k].Throws?
  }

  lemma {:induction false} OneMoreAttempt(attempts: seq<OnStart>, next: OnStart)
    ensures CallsOf(attempts + [next]) == CallsOf(attempts) + if AllThrow(attempts) then 1 else 0
    ensures AllThrow(attempts + [next]) <==> AllThrow(attempts) && next.Throws?
  {
    assert (attempts + [next])[|attempts|] == next;
    if attempts != [] {
      assert (attempts + [next])[1..] == attempts[1..] + [next];
      OneMoreAttempt(attempts[1..], next);
      assert AllThrow(attempts) <==> attempts[0].Throws? && AllThrow(attempts[1..]);
      assert forall k | 0 <= k < |attempts| :: (attempts + [next])[k] == attempts[k];
    }
  }

  /** How the attempts so far determine the start. */
  ghost predicate StartFollows<M>(s: State<M>, attempts: seq<OnStart>) {
    s.onStartCalls == CallsOf(attempts) && (s.start.NotCalled? <==> AllThrow(attempts))
  }

  lemma {:induction false} StartFollowsStep<M>(s: State<M>, t: State<M>, attempts: seq<OnStart>, onStart: OnStart)
    requires StartFollows(s, attempts) && t.start == StartOnce(s, onStart).start
    requires t.onStartCalls == StartOnce(s, onStart).onStartCalls
    ensures StartFollows(t, attempts + [onStart])
  {
    OneMoreAttempt(attempts, onStart);
  }

  /** The attempt an event makes, if any. */
  function AttemptAt<M>(s: State<M>, e: Event<M>): seq<OnStart> {
    match e
    case Append(chunk, onStart) => if chunk != "" && !s.finalized then [onStart] else []
    case JobBegins(_, onStart) => [onStart]
    case _ => []
  }

  lemma {:induction false} SameStart<M>(o: Options, s: State<M>, e: Event<M>, t: State<M>)
    requires AttemptAt(s, e) == [] && Enabled(s, e) && t == Next(o, s, e)
    ensures t.onStartCalls == s.onStartCalls && t.start.NotCalled? == s.start.NotCalled?
  {
  }

  lemma {:induction false} AttemptStep<M>(o: Options, s: State<M>, e: Event<M>, t: State<M>, attempts: seq<OnStart>)
    requires StartFollows(s, attempts) && Enabled(s, e) && t == Next(o, s, e)
    ensures StartFollows(t, attempts + AttemptAt(s, e))
  {
    if AttemptAt(s, e) != [] {
      StartFollowsStep(s, t, attempts, e.onStart);
    } else {
      assert attempts + [] == attempts;
      SameStart(o, s, e, t);
    }
  }

  lemma {:induction false} CallsAreAttempts<M(!new)>(
      o: Options, events: seq<Event<M>>, states: seq<State<M>>, i: nat)
    requires Run(o, events, states) && i < |states|
    ensures StartFollows(states[i], Attempts(events[..i]))
  {
    if i > 0 {
      var before, now := events[..i - 1], events[..i];
      CallsAreAttempts(o, events, states, i - 1);
      FinalizedByCall(o, events, states, i - 1);
      assert StepAt(o, events, states, i - 1);
      AttemptStep(o, states[i - 1], events[i - 1], states[i], Attempts(before));
      assert now[..|now| - 1] == before && now[|now| - 1] == events[i - 1];
    }
  }

  lemma {:induction false} AtMostOneCall(attempts: seq<OnStart>)
    ensures CallsOf(attempts) <= 1 <==> |attempts| <= 1 || attempts[0].ReturnsPromise?
  {
    if |attempts| > 1 && attempts[0].Throws? {
      assert attempts[1..] != [];
    }
  }

  /** `onStart` is called once for every attempt up to the first that returns a promise; so at most
      once exactly when there is at most one attempt or the first one returns a promise. */
  lemma {:induction false} OnStartCalledOnce<M(!new)>(
      o: Options, events: seq<Event<M>>, states: seq<State<M>>, i: nat)
    requires Run(o, events, states) && i < |states|
    ensures var attempts := Attempts(events[..i]);
            && states[i].onStartCalls == CallsOf(attempts)
            && (states[i].onStartCalls <= 1 <==> |attempts| <= 1 || attempts[0].ReturnsPromise?)
  {
    CallsAreAttempts(o, events, states, i);
    AtMostOneCall(Attempts(events[..i]));
  }

  lemma {:induction false} StartedStaysStarted<M(!new)>(
      o: Options, events: seq<Event<M>>, states: seq<State<M>>, i: nat, j: nat)
    requires Run(o, events, states) && i <= j < |states| && !states[i].start.NotCalled?
    ensures !states[j].start.NotCalled? && states[j].onStartCalls == states[i].onStartCalls
    decreases j - i
  {
    if i < j {
      StartedStaysStarted(o, events, states, i, j - 1);
      assert StepAt(o, events, states, j - 1);
    }
  }

  /** An `onStart` that throws instead of returning a promise is called again by the next append. */
  lemma {:induction false} OnStartCalledTwice(o: Options)
    ensures exists events: seq<Event<int>>, states: seq<State<int>> ::
              Run(o, events, states) && states[|events|].onStartCalls == 2
  {
    var events: seq<Event<int>> := [Append("a", Throws), Append("b", ReturnsPromise)];
    var s0 := InitialState<int>(1);
    var s1 := Next(o, s0, events[0]);
    var s2 := Next(o, s1, events[1]);
    var states := [s0, s1, s2];
    assert StepAt(o, events, states, 0) && StepAt(o, events, states, 1);
    assert Run(o, events, states);
  }

  /** After `finalize` has been called nothing more is accepted, scheduled or shown. */
  lemma {:induction false} NothingAfterFinalize<M(!new)>(
      o: Options, events: seq<Event<M>>, states: seq<State<M>>, i: nat, j: nat)
    requires Run(o, events, states) && i <= j < |states| && states[i].finalized
    ensures states[j].finalized && !states[j].timer
    ensures states[j].updates == states[i].updates && states[j].buffer == states[i].buffer
    ensures |states[j].updateChain| == |states[i].updateChain|
    decreases j - i
  {
    if i < j {
      NothingAfterFinalize(o, events, states, i, j - 1);
      assert StepAt(o, events, states, j - 1);
    }
    InvHolds(o, events, states, j);
  }

  ghost predicate AllSettled<M>(s: State<M>) {
    forall k | 0 <= k < |s.updateChain| :: s.updateChain[k].Done?
  }

  /** When `finalize` returns, every link has settled, so no `onUpdate` is in flight, and none
      ever will be again. */
  lemma {:induction false} QuietWhenFinalizeReturns<M(!new)>(
      o: Options, events: seq<Event<M>>, states: seq<State<M>>, i: nat, j: nat)
    requires Run(o, events, states) && i < |events| && events[i].FinalizeReturns? && i <= j < |states|
    ensures AllSettled(states[j]) && states[j].updates == states[i].updates
    decreases j - i
  {
    InvHolds(o, events, states, i);
    assert StepAt(o, events, states, i);
    if i < j {
      QuietWhenFinalizeReturns(o, events, states, i, j - 1);
      NothingAfterFinalize(o, events, states, i, j - 1);
      assert StepAt(o, events, states, j - 1);
    }
  }

  /** Every preview is cut from the front of the text and each one extends the one before it;
      previews and text are only ever added to. */
  lemma {:induction false} PreviewsExtend<M(!new)>(
      o: Options, events: seq<Event<M>>, states: seq<State<M>>, i: nat, j: nat)
    requires Run(o, events, states) && i <= j < |states|
    ensures states[i].updates <= states[j].updates && states[i].buffer <= states[j].buffer
    ensures PreviewsGrow(o, states[j])
    decreases j - i
  {
    InvHolds(o, events, states, j);
    OnlyAddedTo(o, events, states, i, j);
  }

  lemma {:induction false} StepAdds<M>(o: Options, s: State<M>, e: Event<M>, t: State<M>)
    requires Enabled(s, e) && t == Next(o, s, e)
    ensures s.updates <= t.updates && s.buffer <= t.buffer
  {
  }

  lemma {:induction false} OnlyAddedTo<M(!new)>(
      o: Options, events: seq<Event<M>>, states: seq<State<M>>, i: nat, j: nat)
    requires Run(o, events, states) && i <= j < |states|
    ensures states[i].updates <= states[j].updates && states[i].buffer <= states[j].buffer
    decreases j - i
  {
    if i < j {
      OnlyAddedTo(o, events, states, i, j - 1);
      assert StepAt(o, events, states, j - 1);
      StepAdds(o, states[j - 1], events[j - 1], states[j]);
    }
  }

  lemma {:induction false} StepAppends<M>(o: Options, s: State<M>, e: Event<M>, t: State<M>)
    requires Enabled(s, e) && t == Next(o, s, e)
    ensures t.buffer == s.buffer + if e.Append? && !s.finalized then e.chunk else ""
  {
  }

  /** The text that previews are cut from and that `finalize` returns is exactly what was appended
      before the first `finalize`. */
  lemma {:induction false} BufferIsAppendedText<M(!new)>(
      o: Options, events: seq<Event<M>>, states: seq<State<M>>, i: nat)
    requires Run(o, events, states) && i < |states|
    ensures states[i].buffer == AppendedText(events[..i])
  {
    if i > 0 {
      BufferIsAppendedText(o, events, states, i - 1);
      assert StepAt(o, events, states, i - 1);
      StepAppends(o, states[i - 1], events[i - 1], states[i]);
      assert events[..i][..i - 1] == events[..i - 1];
      FinalizedByCall(o, events, states, i - 1);
    }
  }

  /** The text handed to `append` before the first `finalize`. */
  ghost function AppendedText<M>(events: seq<Event<M>>): string {
    if events == [] then ""
    else
      var before := events[..|events| - 1];
      var e := events[|events| - 1];
      AppendedText(before) + (if e.Append? && !FinalizeSeen(before) then e.chunk else "")
  }

  ghost predicate FinalizeSeen<M>(events: seq<Event<M>>) {
    exists k | 0 <= k < |events| :: events[k].FinalizeCalled?
  }

  lemma {:induction false} FinalizedByCall<M(!new)>(
      o: Options, events: seq<Event<M>>, states: seq<State<M>>, i: nat)
    requires Run(o, events, states) && i < |states|
    ensures states[i].finalized <==> FinalizeSeen(events[..i])
  {
    if i > 0 {
      FinalizedByCall(o, events, states, i - 1);
      assert StepAt(o, events, states, i - 1);
      var before, now := events[..i - 1], events[..i];
      assert now == before + [events[i - 1]];
      if FinalizeSeen(before) {
        var k :| 0 <= k < |before| && before[k].FinalizeCalled?;
        assert now[k].FinalizeCalled?;
      }
      if events[i - 1].FinalizeCalled? {
        assert now[i - 1].FinalizeCalled?;
      }
    }
  }

  /** Once started, and with nothing pending and no link still to run, the last preview shows the
      whole text: no append is forgotten. */
  lemma {:induction false} NoTextForgotten<M(!new)>(o: Options, events: seq<Event<M>>, states: seq<State<M>>, i: nat)
    requires Run(o, events, states) && i < |states|
    requires var s := states[i]; !s.finalized && s.start.Fulfilled? && !s.timer && Idle(s)
    ensures var s := states[i];
            s.buffer == "" || (s.updates != [] && s.updates[|s.updates| - 1].preview == PreviewOf(o, s.buffer))
  {
    InvHolds(o, events, states, i);
    assert states[i].buffer[..|states[i].buffer|] == states[i].buffer;
  }

  /** While text is pending and the manager is open, a flush is armed, due at most one interval
      after the first pending append. */
  lemma {:induction false} PendingTextHasDeadline<M(!new)>(o: Options, events: seq<Event<M>>, states: seq<State<M>>,
      i: nat)
    requires Run(o, events, states) && i < |states| && !states[i].finalized && states[i].pendingChars > 0
    ensures states[i].timer && states[i].nextFlushAt <= states[i].pendingSince + o.updateIntervalMs
    ensures states[i].pendingSince <= states[i].now
  {
    InvHolds(o, events, states, i);
  }

  lemma {:induction false} DeadlineStep<M>(o: Options, s: State<M>, e: Event<M>, t: State<M>)
    requires TimerArmed(o, s) && s.timer && Enabled(s, e) && t == Next(o, s, e)
    requires !t.finalized && |t.updateChain| == |s.updateChain|
    ensures t.timer && t.nextFlushAt <= s.nextFlushAt && t.pendingSince == s.pendingSince
  {
  }

  /** Until it fires or `finalize` cancels it, nothing moves a deadline later. */
  lemma {:induction false} DeadlineNeverLater<M(!new)>(
      o: Options, events: seq<Event<M>>, states: seq<State<M>>, i: nat, j: nat)
    requires Run(o, events, states) && i <= j < |states| && states[i].timer
    requires !states[j].finalized && |states[j].updateChain| == |states[i].updateChain|
    ensures states[j].timer && states[j].nextFlushAt <= states[i].nextFlushAt
    ensures states[j].pendingSince == states[i].pendingSince
    decreases j - i
  {
    if i < j {
      ChainOnlyGrows(o, events, states, i, j - 1);
      ChainOnlyGrows(o, events, states, j - 1, j);
      StaysOpenBefore(o, events, states, j - 1);
      DeadlineNeverLater(o, events, states, i, j - 1);
      InvHolds(o, events, states, j - 1);
      DeadlineStep(o, states[j - 1], events[j - 1], states[j]);
    }
  }

  lemma {:induction false} StaysOpenBefore<M(!new)>(
      o: Options, events: seq<Event<M>>, states: seq<State<M>>, i: nat)
    requires Run(o, events, states) && i + 1 < |states|
    ensures Enabled(states[i], events[i]) && states[i + 1] == Next(o, states[i], events[i])
    ensures states[i].finalized ==> states[i + 1].finalized
  {
    assert StepAt(o, events, states, i);
  }

  lemma {:induction false} ChainOnlyGrows<M(!new)>(
      o: Options, events: seq<Event<M>>, states: seq<State<M>>, i: nat, j: nat)
    requires Run(o, events, states) && i <= j < |states|
    ensures |states[i].updateChain| <= |states[j].updateChain|
    decreases j - i
  {
    if i < j {
      ChainOnlyGrows(o, events, states, i, j - 1);
      assert StepAt(o, events, states, j - 1);
    }
  }

  /** An append that fills the pending text up to `forceFlushChars` makes the flush due at once,
      and it stays due until it happens. */
  lemma {:induction false} FullBufferFlushesAtOnce<M(!new)>(
      o: Options, events: seq<Event<M>>, states: seq<State<M>>, i: nat, j: nat)
    requires Run(o, events, states) && i < j < |states|
    requires events[i].Append? && events[i].chunk != "" && states[i + 1].pendingChars >= o.forceFlushChars
    requires !states[j].finalized && |states[j].updateChain| == |states[i].updateChain|
    ensures states[j].timer && states[j].nextFlushAt <= states[i].now
  {
    assert StepAt(o, events, states, i);
    if states[i].finalized {
      NothingAfterFinalize(o, events, states, i, j);
    }
    DeadlineNeverLater(o, events, states, i + 1, j);
  }

  // --- Progress towards the end ---

  function PhaseWork(phase: JobPhase): nat {
    match phase
    case Waiting => 3
    case AwaitingStart => 2
    case Updating => 1
    case Done => 0
  }

  /** An upper bound on the steps the links still have to take. */
  function Work(chain: seq<JobPhase>): nat {
    if chain == [] then 0 else Work(chain[..|chain| - 1]) + PhaseWork(chain[|chain| - 1])
  }

  lemma {:induction false} WorkAt(chain: seq<JobPhase>, k: nat, phase: JobPhase)
    requires k < |chain|
    ensures Work(chain[k := phase]) == Work(chain) - PhaseWork(chain[k]) + PhaseWork(phase)
  {
    var n := |chain| - 1;
    if k < n {
      WorkAt(chain[..n], k, phase);
      assert chain[k := phase][..n] == chain[..n][k := phase];
    } else {
      assert chain[k := phase][..n] == chain[..n];
    }
  }

  lemma {:induction false} WorkBound(chain: seq<JobPhase>)
    ensures Work(chain) <= 3 * |chain|
    ensures Work(chain) == 0 <==> forall k | 0 <= k < |chain| :: chain[k].Done?
  {
    if chain != [] {
      var n := |chain| - 1;
      WorkBound(chain[..n]);
      assert (forall k | 0 <= k < n + 1 :: chain[k].Done?) <==>
             chain[n].Done? && forall k | 0 <= k < n :: chain[..n][k].Done?;
    }
  }

  predicate IsJobStep<M>(e: Event<M>) {
    e.JobBegins? || e.JobResumes? || e.UpdateSettles?
  }

  function JobSteps<M>(events: seq<Event<M>>): nat {
    if events == [] then 0
    else JobSteps(events[..|events| - 1]) + if IsJobStep(events[|events| - 1]) then 1 else 0
  }

  lemma {:induction false} JobStepWorks<M>(o: Options, s: State<M>, e: Event<M>, t: State<M>)
    requires Enabled(s, e) && s.finalized && !s.timer && t == Next(o, s, e)
    ensures Work(t.updateChain) + (if IsJobStep(e) then 1 else 0) <= Work(s.updateChain)
  {
    if IsJobStep(e) {
      WorkAt(s.updateChain, e.job, t.updateChain[e.job]);
    }
  }

  /** After `finalize` has been called, the chain takes at most three more steps per link. */
  lemma {:induction false} ChainStepsBounded<M(!new)>(
      o: Options, events: seq<Event<M>>, states: seq<State<M>>, i: nat, j: nat)
    requires Run(o, events, states) && i <= j < |states| && states[i].finalized
    ensures JobSteps(events[i..j]) + Work(states[j].updateChain) <= Work(states[i].updateChain)
    ensures Work(states[i].updateChain) <= 3 * |states[i].updateChain|
    decreases j - i
  {
    WorkBound(states[i].updateChain);
    if i < j {
      ChainStepsBounded(o, events, states, i, j - 1);
      NothingAfterFinalize(o, events, states, i, j - 1);
      assert StepAt(o, events, states, j - 1);
      JobStepWorks(o, states[j - 1], events[j - 1], states[j]);
      assert events[i..j][..j - 1 - i] == events[i..j - 1];
    }
  }

  lemma {:induction false} FirstUnsettled(chain: seq<JobPhase>) returns (k: nat)
    requires exists i :: 0 <= i < |chain| && !chain[i].Done?
    ensures k < |chain| && !chain[k].Done? && forall i | 0 <= i < k :: chain[i].Done?
  {
    k := 0;
    while chain[k].Done?
      invariant k < |chain| && forall i | 0 <= i < k :: chain[i].Done?
      decreases |chain| - k
    {
      assert exists i :: k < i < |chain| && !chain[i].Done?;
      k := k + 1;
    }
  }

  /** Whenever some link has not settled, either `onStart` is still in flight or the chain can take a
      step; and when all have settled, every pending `finalize` can return. */
  lemma {:induction false} ChainNeverStuck<M(!new)>(
      o: Options, events: seq<Event<M>>, states: seq<State<M>>, i: nat)
    requires Run(o, events, states) && i < |states|
    ensures !AllSettled(states[i]) && !states[i].start.InFlight? ==>
              exists e: Event<M> :: IsJobStep(e) && Enabled(states[i], e)
    ensures AllSettled(states[i]) ==>
              forall c: nat | c < |states[i].waits| :: Enabled(states[i], Event<M>.FinalizeReturns(c))
  {
    var s := states[i];
    InvHolds(o, events, states, i);
    if !AllSettled(s) && !s.start.InFlight? {
      var k := FirstUnsettled(s.updateChain);
      var e: Event<M> := match s.updateChain[k]
               case Waiting => Event<M>.JobBegins(k, Throws)
               case AwaitingStart => Event<M>.JobResumes(k)
               case _ => Event<M>.UpdateSettles(k);
      assert IsJobStep(e) && Enabled(s, e);
    }
  }

  // --- The class ---

  /** What `append` does, in the order of its statements. */
  lemma {:induction false} AppendParts<M>(o: Options, s: State<M>, chunk: string, onStart: OnStart)
    requires !s.finalized && chunk != ""
    ensures var t := StartOnce(Accept(s, chunk), onStart);
            Next(o, s, Event<M>.Append(chunk, onStart)) == Rearm(t, AppendDelay(o, t))
  {
  }

  /** The manager. `now` stands for `Date.now()`; the ghost fields record what the callbacks saw.
      The caller's `render` is applied to each recorded preview and is left abstract. */
  class MessageStreamManager<M> {
    const opts: Options
    var now: int
    var buffer: string
    var pendingChars: nat
    var timer: bool
    var nextFlushAt: int
    var message: Option<M>
    var startPromise: StartPromise<M>
    var updateChain: seq<JobPhase>
    var finalized: bool
    ghost var onStartCalls: nat
    ghost var onStartThrows: nat
    ghost var updates: seq<Update<M>>
    ghost var waits: seq<nat>
    ghost var pendingSince: int
    ghost var shown: nat

    ghost predicate Valid()
      reads this
    {
      message == match startPromise case Fulfilled(m) => Some(m) case _ => None
    }

    ghost function Model(): State<M>
      reads this
    {
      State(now, buffer, pendingChars, timer, nextFlushAt, startPromise, updateChain, finalized,
            onStartCalls, onStartThrows, updates, waits, pendingSince, shown)
    }

    constructor (opts: Options, now: int)
      ensures Valid() && Model() == InitialState(now) && this.opts == opts
    {
      this.opts, this.now := opts, now;
      buffer, pendingChars, timer, nextFlushAt := "", 0, false, 0;
      message, startPromise, updateChain, finalized := None, NotCalled, [], false;
      onStartCalls, onStartThrows, updates, waits, pendingSince, shown := 0, 0, [], [], now, 0;
    }

    method Append(chunk: string, onStart: OnStart)
      requires Valid()
      modifies this
      ensures Valid() && Model() == Next(opts, old(Model()), Event<M>.Append(chunk, onStart))
    {
      if finalized || chunk == "" { return; }
      AppendParts(opts, Model(), chunk, onStart);
      if pendingChars == 0 { pendingSince := now; }
      buffer := buffer + chunk;
      pendingChars := pendingChars + |chunk|;
      assert Model() == Accept(old(Model()), chunk);
      EnsureStarted(onStart);
      if pendingChars >= opts.forceFlushChars {
        ScheduleFlush(0);
        return;
      }
      var elapsed := if nextFlushAt > 0 then (if nextFlushAt >= now then nextFlushAt - now else 0)
                     else opts.updateIntervalMs;
      ScheduleFlush(elapsed);
    }

    method ScheduleFlush(delayMs: nat)
      requires Valid()
      modifies this`timer, this`nextFlushAt
      ensures Valid() && Model() == Rearm(old(Model()), delayMs)
    {
      if finalized { return; }
      var targetAt := now + delayMs;
      if timer && nextFlushAt <= targetAt { return; }
      nextFlushAt := targetAt;
      timer := true;
    }

    /** The callback of the timer set by `scheduleFlush`, with the `queueFlush` it performs. */
    method FireTimer()
      requires Valid() && Enabled(Model(), TimerFires)
      modifies this
      ensures Valid() && Model() == Next(opts, old(Model()), TimerFires)
    {
      timer := false;
      nextFlushAt := 0;
      pendingChars := 0;
      updateChain := updateChain + [Waiting];
    }

    method EnsureStarted(onStart: OnStart)
      requires Valid()
      modifies this`startPromise, this`onStartCalls, this`onStartThrows
      ensures Valid() && Model() == StartOnce(old(Model()), onStart)
    {
      if message.Some? { return; }
      if startPromise.NotCalled? {
        onStartCalls := onStartCalls + 1;
        if onStart.Throws? {
          onStartThrows := onStartThrows + 1;
        } else {
          startPromise := InFlight;
        }
      }
    }

    method SettleStart(result: Option<M>)
      requires Valid() && Enabled(Model(), StartSettles(result))
      modifies this
      ensures Valid() && Model() == Next(opts, old(Model()), StartSettles(result))
    {
      message := result;
      startPromise := match result case Some(m) => Fulfilled(m) case None => Rejected;
    }

    method BeginJob(job: nat, onStart: OnStart)
      requires Valid() && Enabled(Model(), Event<M>.JobBegins(job, onStart))
      modifies this
      ensures Valid() && Model() == Next(opts, old(Model()), Event<M>.JobBegins(job, onStart))
    {
      EnsureStarted(onStart);
      updateChain := updateChain[job := if startPromise.NotCalled? then Done else AwaitingStart];
    }

    method GetPreviewText() returns (p: Preview)
      ensures p.text <= buffer && |p.text| <= opts.maxPreviewChars
      ensures p.truncated <==> |buffer| > opts.maxPreviewChars
      ensures if p.truncated then |p.text| == opts.maxPreviewChars else p.text == buffer
    {
      if |buffer| <= opts.maxPreviewChars {
        return Preview(buffer, false);
      }
      p := Preview(buffer[..opts.maxPreviewChars], true);
    }

    method ResumeJob(job: nat) returns (call: Option<Update<M>>)
      requires Valid() && Enabled(Model(), Event<M>.JobResumes(job))
      modifies this
      ensures Valid() && Model() == Next(opts, old(Model()), Event<M>.JobResumes(job))
      ensures updates == old(updates) + (match call case Some(u) => [u] case None => [])
    {
      if message.None? || finalized {
        updateChain := updateChain[job := Done];
        return None;
      }
      var preview := GetPreviewText();
      assert preview == PreviewOf(opts, buffer);
      call := Some(Update(message.value, preview));
      updateChain := updateChain[job := Updating];
      updates := updates + [call.value];
      shown := |buffer|;
    }

    method SettleUpdate(job: nat)
      requires Valid() && Enabled(Model(), Event<M>.UpdateSettles(job))
      modifies this
      ensures Valid() && Model() == Next(opts, old(Model()), Event<M>.UpdateSettles(job))
    {
      updateChain := updateChain[job := Done];
    }

    /** `finalize` up to its `await`; the awaited chain is the one of this moment. */
    method Finalize()
      requires Valid()
      modifies this
      ensures Valid() && Model() == Next(opts, old(Model()), FinalizeCalled)
    {
      finalized := true;
      if timer {
        timer := false;
      }
      waits := waits + [|updateChain|];
    }

    /** `finalize` from its `await` on. */
    method FinishFinalize(ghost call: nat) returns (m: Option<M>, fullText: string)
      requires Valid() && Enabled(Model(), Event<M>.FinalizeReturns(call))
      ensures Model() == Next(opts, old(Model()), Event<M>.FinalizeReturns(call))
      ensures fullText == Model().buffer && (m.Some? <==> Model().start.Fulfilled?)
      ensures m.Some? ==> Model().start == Fulfilled(m.value)
    {
      return message, buffer;
    }

    method AdvanceClock(ms: nat)
      requires Valid()
      modifies this`now
      ensures Valid() && Model() == Next(opts, old(Model()), Event<M>.ClockAdvances(ms))
    {
      now := now + ms;
    }
  }
}
