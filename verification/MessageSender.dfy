/** `IMessageSender` of `src/channels/imessage-send.ts`: sends are queued and delivered one at a time by
    an asynchronous loop, and what was sent is remembered for a while. */
module MessageSender {
  import opened Text

  // --- The queue ---

  datatype Target = Person(recipient: string) | Group(guid: string)

  /** One call of `send`; its position among all calls identifies it. */
  datatype Job = Job(id: nat, target: Target, text: string)

  /** An activation of `processQueue`, by what it is waiting for: the delivery, the resumption after
      the delivery has settled, or the pause of 300 ms. */
  datatype Frame = Delivering(job: Job) | Delivered | Sleeping

  datatype Settlement = Settlement(job: Job, ok: bool)

  /** `sent` and `settled` record the calls made and the promises settled, in order. */
  datatype State = State(queue: seq<Job>, processing: bool, frames: seq<Frame>, sent: seq<Job>,
    settled: seq<Settlement>)

  const START := State([], false, [], [], [])

  datatype Event =
    | Send(recipient: string, text: string, isGroup: bool, chatGuid: string)
    | DeliveryEnds(i: nat, ok: bool)
    | LoopResumes(i: nat)
    | SleepEnds(i: nat)

  function TargetOf(recipient: string, isGroup: bool, chatGuid: string): Target {
    if isGroup && chatGuid != "" then Group(chatGuid) else Person(recipient)
  }

  predicate Enabled(s: State, e: Event) {
    match e
    case Send(_, _, _, _) => true
    case DeliveryEnds(i, _) => i < |s.frames| && s.frames[i].Delivering?
    case LoopResumes(i) => i < |s.frames| && s.frames[i].Delivered?
    case SleepEnds(i) => i < |s.frames| && s.frames[i].Sleeping?
  }

  function WithoutFrame(frames: seq<Frame>, i: nat): seq<Frame>
    requires i < |frames|
  {
    frames[..i] + frames[i + 1..]
  }

  /** The head of the loop in activation `i`: take the next job, or stop. */
  function Iterate(s: State, i: nat): State
    requires i < |s.frames|
  {
    if s.queue != [] then s.(queue := s.queue[1..], frames := s.frames[i := Delivering(s.queue[0])])
    else s.(processing := false, frames := WithoutFrame(s.frames, i))
  }

  /** `processQueue` up to its first `await`. */
  function Process(s: State): State {
    if s.processing then s
    else Iterate(s.(processing := true, frames := s.frames + [Sleeping]), |s.frames|)
  }

  function Next(s: State, e: Event): State
    requires Enabled(s, e)
  {
    match e
    case Send(recipient, text, isGroup, chatGuid) =>
      var job := Job(|s.sent|, TargetOf(recipient, isGroup, chatGuid), text);
      Process(s.(queue := s.queue + [job], sent := s.sent + [job]))
    case DeliveryEnds(i, ok) =>
      s.(frames := s.frames[i := Delivered], settled := s.settled + [Settlement(s.frames[i].job, ok)])
    case LoopResumes(i) => s.(frames := s.frames[i := Sleeping])
    case SleepEnds(i) => Iterate(s, i)
  }

  /** The state after some events; an event that cannot happen changes nothing. */
  function After(events: seq<Event>): State {
    if events == [] then START
    else
      var s, e := After(events[..|events| - 1]), events[|events| - 1];
      if Enabled(s, e) then Next(s, e) else s
  }

  // --- What every run keeps ---

  function Jobs(settled: seq<Settlement>): seq<Job> {
    seq(|settled|, i requires 0 <= i < |settled| => settled[i].job)
  }

  function InProgress(frames: seq<Frame>): seq<Job> {
    if frames == [] then []
    else (if frames[0].Delivering? then [frames[0].job] else []) + InProgress(frames[1..])
  }

  predicate Numbered(jobs: seq<Job>) {
    forall i | 0 <= i < |jobs| :: jobs[i].id == i
  }

  predicate Inv(s: State) {
    && |s.frames| == (if s.processing then 1 else 0)
    && (s.queue != [] ==> s.processing)
    && Numbered(s.sent)
    && Jobs(s.settled) + InProgress(s.frames) + s.queue == s.sent
  }

  lemma {:induction false} SendKeepsInv(s: State, e: Event)
    requires Inv(s) && e.Send?
    ensures Inv(Next(s, e))
  {
  }

  lemma {:induction false} LoopKeepsInv(s: State, e: Event)
    requires Inv(s) && Enabled(s, e) && !e.Send?
    ensures Inv(Next(s, e))
  {
  }

  lemma {:induction false} InvHolds(events: seq<Event>)
    ensures Inv(After(events))
  {
    if events != [] {
      var before, e := events[..|events| - 1], events[|events| - 1];
      InvHolds(before);
      if Enabled(After(before), e) {
        if e.Send? {
          SendKeepsInv(After(before), e);
        } else {
          LoopKeepsInv(After(before), e);
        }
      }
    }
  }

  /** The calls among some events, in order. */
  function Calls(events: seq<Event>): seq<Job> {
    if events == [] then []
    else
      var earlier, e := Calls(events[..|events| - 1]), events[|events| - 1];
      if e.Send? then earlier + [Job(|earlier|, TargetOf(e.recipient, e.isGroup, e.chatGuid), e.text)] else earlier
  }

  lemma {:induction false} SentAreTheCalls(events: seq<Event>)
    ensures After(events).sent == Calls(events)
  {
    if events != [] {
      SentAreTheCalls(events[..|events| - 1]);
    }
  }

  /** In every run there is at most one loop, hence at most one delivery; the calls settled, then the one
      being delivered, then those waiting are all calls in call order; so each settles at most once. */
  lemma {:induction false} DeliversInCallOrder(events: seq<Event>)
    ensures var s := After(events);
            && |s.frames| <= 1
            && Jobs(s.settled) + InProgress(s.frames) + s.queue == Calls(events)
            && forall i | 0 <= i < |s.settled| :: s.settled[i].job.id == i
  {
    InvHolds(events);
    SentAreTheCalls(events);
    var s := After(events);
    forall i | 0 <= i < |s.settled| ensures s.settled[i].job.id == i {
      assert s.sent[i] == Jobs(s.settled)[i];
    }
  }

  /** Waiting calls always have a loop, and without a loop every call has settled. */
  lemma {:induction false} NeverStranded(events: seq<Event>)
    ensures var s := After(events);
            && (s.queue != [] ==> |s.frames| == 1)
            && (s.frames == [] <==> !s.processing)
            && (s.frames == [] ==> Jobs(s.settled) == Calls(events))
  {
    InvHolds(events);
    SentAreTheCalls(events);
    var s := After(events);
    if s.frames == [] {
      assert Jobs(s.settled) + [] + [] == Jobs(s.settled);
    }
  }

  // --- Progress ---

  function FrameWork(frames: seq<Frame>): nat {
    if frames == [] then 0 else if frames[0].Delivering? then 3 else if frames[0].Delivered? then 2 else 1
  }

  function Work(s: State): nat {
    3 * |s.queue| + FrameWork(s.frames)
  }

  /** How many steps the loop has taken. */
  function LoopSteps(events: seq<Event>): nat {
    if events == [] then 0
    else
      var before, e := events[..|events| - 1], events[|events| - 1];
      LoopSteps(before) + if !e.Send? && Enabled(After(before), e) then 1 else 0
  }

  lemma {:induction false} StepWork(s: State, e: Event)
    requires Inv(s) && Enabled(s, e)
    ensures Work(Next(s, e)) == if e.Send? then Work(s) + 3 else Work(s) - 1
  {
  }

  /** The loop takes three steps for every call, neither more nor fewer: a run of steps ends, and only
      when all calls have settled. */
  lemma {:induction false} ThreeStepsPerCall(events: seq<Event>)
    ensures LoopSteps(events) + Work(After(events)) == 3 * |Calls(events)|
    ensures Work(After(events)) > 0 <==> exists e: Event :: !e.Send? && Enabled(After(events), e)
  {
    InvHolds(events);
    WorkToDo(After(events));
    if events != [] {
      var before, e := events[..|events| - 1], events[|events| - 1];
      ThreeStepsPerCall(before);
      InvHolds(before);
      if Enabled(After(before), e) {
        StepWork(After(before), e);
      }
    }
  }

  lemma {:induction false} WorkToDo(s: State)
    requires Inv(s)
    ensures Work(s) > 0 <==> exists e: Event :: !e.Send? && Enabled(s, e)
  {
    if s.frames != [] {
      var e := if s.frames[0].Delivering? then DeliveryEnds(0, true)
               else if s.frames[0].Delivered? then LoopResumes(0) else SleepEnds(0);
      assert !e.Send? && Enabled(s, e);
    }
  }

  // --- What was sent recently ---

  const TEXT_MS := 30000
  const CHAT_MS := 5000

  /** A send, by the key it is remembered under. */
  datatype Sent = Sent(key: string, at: int)

  ghost predicate SentWithin(log: seq<Sent>, key: string, now: int, ttl: int) {
    exists i | 0 <= i < |log| :: log[i].key == key && now - log[i].at <= ttl
  }

  ghost predicate Noted(log: seq<Sent>, key: string, at: int) {
    Sent(key, at) in log
  }

  /** What a memory must know at some moment about everything sent so far. */
  ghost predicate Remembers(memory: map<string, int>, log: seq<Sent>, now: int, ttl: int) {
    && (forall i | 0 <= i < |log| :: 0 < log[i].at <= now)
    && (forall k | k in memory :: Noted(log, k, memory[k]))
    && (forall i | 0 <= i < |log| :: now - log[i].at <= ttl ==> log[i].key in memory && log[i].at <= memory[log[i].key])
  }

  /** `get`, the test for zero, and the test of the age */
  predicate Fresh(memory: map<string, int>, key: string, now: int, ttl: int) {
    key in memory && memory[key] != 0 && now - memory[key] <= ttl
  }

  /** A faithful memory answers exactly whether something was sent under the key recently. */
  lemma {:induction false} FreshMeansSent(memory: map<string, int>, log: seq<Sent>, key: string, now: int, ttl: int)
    requires Remembers(memory, log, now, ttl)
    ensures Fresh(memory, key, now, ttl) <==> SentWithin(log, key, now, ttl)
  {
  }

  lemma {:induction false} TimePasses(memory: map<string, int>, log: seq<Sent>, now: int, later: int, ttl: int)
    requires Remembers(memory, log, now, ttl) && now <= later
    ensures Remembers(memory, log, later, ttl)
  {
  }

  lemma {:induction false} Remembering(memory: map<string, int>, log: seq<Sent>, key: string, now: int, ttl: int)
    requires Remembers(memory, log, now, ttl) && now > 0
    ensures Remembers(memory[key := now], log + [Sent(key, now)], now, ttl)
  {
  }

  lemma {:induction false} Forgetting(memory: map<string, int>, log: seq<Sent>, keys: set<string>, now: int, ttl: int)
    requires Remembers(memory, log, now, ttl)
    requires forall k | k in keys && k in memory :: now - memory[k] > ttl
    ensures Remembers(memory - keys, log, now, ttl)
  {
  }

  function Expired(memory: map<string, int>, now: int): set<string> {
    set k | k in memory && now - memory[k] > TEXT_MS
  }

  /** `replace(/\s+/g, " ")` */
  function Squash(s: string): string {
    if s == "" then ""
    else if !IsSpace(s[0]) then [s[0]] + Squash(s[1..])
    else if |s| > 1 && IsSpace(s[1]) then Squash(s[1..])
    else " " + Squash(s[1..])
  }

  function Normalise(text: string): string {
    Trim(Squash(text))
  }

  // --- The sender object ---

  class IMessageSender {
    var queue: seq<Job>
    var processing: bool
    /** suspended activations of `processQueue` */
    var frames: seq<Frame>
    var recentlySent: map<string, int>
    var recentChats: map<string, int>
    /** history: the calls made and the promises settled */
    var sent: seq<Job>
    var settled: seq<Settlement>
    ghost var texts: seq<Sent>
    ghost var chats: seq<Sent>

    function Snapshot(): State
      reads this
    {
      State(queue, processing, frames, sent, settled)
    }

    /** Both memories are faithful at this moment. */
    ghost predicate Faithful(now: int)
      reads this
    {
      Remembers(recentlySent, texts, now, TEXT_MS) && Remembers(recentChats, chats, now, CHAT_MS)
    }

    constructor ()
      ensures Snapshot() == START && texts == [] && chats == []
      ensures forall now :: Faithful(now)
    {
      queue, processing, frames := [], false, [];
      recentlySent, recentChats := map[], map[];
      sent, settled, texts, chats := [], [], [], [];
    }

    /** Three clock readings: for the text, for the chat, and for the pruning. */
    method Send(recipient: string, text: string, isGroup: bool, chatGuid: string,
                ghost last: int, textAt: int, chatAt: int, pruneAt: int)
      requires Faithful(last) && last <= textAt <= chatAt <= pruneAt && textAt > 0
      modifies this
      ensures Snapshot() == Next(old(Snapshot()), Event.Send(recipient, text, isGroup, chatGuid))
      ensures texts == old(texts) + [Sent(Normalise(text), textAt)] && chats == old(chats) + [Sent(recipient, chatAt)]
      ensures Faithful(pruneAt)
    {
      TrackSent(recipient, text, last, textAt, chatAt, pruneAt);
      var target := Person(recipient);
      if isGroup && chatGuid != "" {
        target := Group(chatGuid);
      }
      var job := Job(|sent|, target, text);
      sent := sent + [job];
      queue := queue + [job];
      ProcessQueue();
    }

    /** `processQueue` up to its first `await` */
    method ProcessQueue()
      modifies `processing, `frames, `queue
      ensures Snapshot() == Process(old(Snapshot()))
    {
      if processing {
        return;
      }
      processing := true;
      frames := frames + [Sleeping];
      Continue(|frames| - 1);
    }

    /** The loop condition, and the start of the next delivery. */
    method Continue(i: nat)
      requires i < |frames|
      modifies `processing, `frames, `queue
      ensures Snapshot() == Iterate(old(Snapshot()), i)
    {
      if |queue| > 0 {
        frames := frames[i := Delivering(queue[0])];
        queue := queue[1..];
      } else {
        processing := false;
        frames := WithoutFrame(frames, i);
      }
    }

    method EndDelivery(i: nat, ok: bool)
      requires Enabled(Snapshot(), DeliveryEnds(i, ok))
      modifies `frames, `settled
      ensures Snapshot() == Next(old(Snapshot()), DeliveryEnds(i, ok))
    {
      settled := settled + [Settlement(frames[i].job, ok)];
      frames := frames[i := Delivered];
    }

    method ResumeLoop(i: nat)
      requires Enabled(Snapshot(), LoopResumes(i))
      modifies `frames
      ensures Snapshot() == Next(old(Snapshot()), LoopResumes(i))
    {
      frames := frames[i := Sleeping];
    }

    method EndSleep(i: nat)
      requires Enabled(Snapshot(), SleepEnds(i))
      modifies `processing, `frames, `queue
      ensures Snapshot() == Next(old(Snapshot()), SleepEnds(i))
    {
      Continue(i);
    }

    method TrackSent(recipient: string, text: string, ghost last: int, textAt: int, chatAt: int, pruneAt: int)
      requires Faithful(last) && last <= textAt <= chatAt <= pruneAt && textAt > 0
      modifies `recentlySent, `recentChats, `texts, `chats
      ensures texts == old(texts) + [Sent(Normalise(text), textAt)] && chats == old(chats) + [Sent(recipient, chatAt)]
      ensures Faithful(pruneAt)
    {
      TimePasses(recentlySent, texts, last, textAt, TEXT_MS);
      Remembering(recentlySent, texts, Normalise(text), textAt, TEXT_MS);
      TimePasses(recentChats, chats, last, chatAt, CHAT_MS);
      Remembering(recentChats, chats, recipient, chatAt, CHAT_MS);
      recentlySent := recentlySent[Normalise(text) := textAt];
      recentChats := recentChats[recipient := chatAt];
      texts := texts + [Sent(Normalise(text), textAt)];
      chats := chats + [Sent(recipient, chatAt)];
      TimePasses(recentlySent, texts, textAt, pruneAt, TEXT_MS);
      TimePasses(recentChats, chats, chatAt, pruneAt, CHAT_MS);
      if |recentlySent| > 100 {
        Prune(pruneAt);
      }
    }

    /** Deletes what is older than the memory needs. */
    method Prune(now: int)
      requires Faithful(now)
      modifies `recentlySent
      ensures recentlySent == old(recentlySent) - Expired(old(recentlySent), now)
      ensures Faithful(now)
    {
      var all := recentlySent;
      var expired: set<string> := {};
      var done: set<string> := {};
      while done != all.Keys
        invariant done <= all.Keys && recentlySent == all - expired
        invariant expired == Expired(all, now) * done
        decreases all.Keys - done
      {
        ghost var left := AnyElement(all.Keys - done);
        var k :| k in all && k !in done;
        if now - all[k] > TEXT_MS {
          expired := expired + {k};
          recentlySent := recentlySent - {k};
        }
        done := done + {k};
      }
      assert expired == Expired(all, now);
      Forgetting(all, texts, expired, now, TEXT_MS);
    }

    /** True exactly when a text that counts as the same was sent in the last 30 seconds. */
    method WasSentByUs(text: string, ghost last: int, now: int) returns (ours: bool)
      requires Faithful(last) && last <= now
      modifies `recentlySent
      ensures ours <==> SentWithin(texts, Normalise(text), now, TEXT_MS)
      ensures Faithful(now)
    {
      TimePasses(recentlySent, texts, last, now, TEXT_MS);
      TimePasses(recentChats, chats, last, now, CHAT_MS);
      FreshMeansSent(recentlySent, texts, Normalise(text), now, TEXT_MS);
      var key := Normalise(text);
      if key !in recentlySent || recentlySent[key] == 0 {
        return false;
      }
      if now - recentlySent[key] > TEXT_MS {
        Forgetting(recentlySent, texts, {key}, now, TEXT_MS);
        recentlySent := recentlySent - {key};
        return false;
      }
      return true;
    }

    /** True exactly when something was sent to the chat in the last 5 seconds. */
    method IsEchoCooldown(chat: string, ghost last: int, now: int) returns (cooling: bool)
      requires Faithful(last) && last <= now
      modifies `recentChats
      ensures cooling <==> SentWithin(chats, chat, now, CHAT_MS)
      ensures Faithful(now)
    {
      TimePasses(recentlySent, texts, last, now, TEXT_MS);
      TimePasses(recentChats, chats, last, now, CHAT_MS);
      FreshMeansSent(recentChats, chats, chat, now, CHAT_MS);
      if chat !in recentChats || recentChats[chat] == 0 {
        return false;
      }
      if now - recentChats[chat] > CHAT_MS {
        Forgetting(recentChats, chats, {chat}, now, CHAT_MS);
        recentChats := recentChats - {chat};
        return false;
      }
      return true;
    }
  }
}
