/** `src/agents/native-session.ts`: the stored history of a native-API conversation, compressed when
    it grows, over any number of load, extend and save rounds. */
module NativeSession {
  import opened Text
  import opened ToolLoop

  const SESSION_TTL_MS := 30 * 60 * 1000
  const MAX_SESSION_MESSAGES := 100
  const COMPRESS_THRESHOLD := 50
  const KEEP_EARLY := 4
  const KEEP_RECENT := 20

  /** A message that was really sent, or the user message that compression generates, given by the
      two values its text is rendered from. */
  datatype SessionMessage = Sent(message: Message) | Marker(condensed: nat, toolsUsed: seq<string>)

  // --- Compression ---

  function ToolNames(messages: seq<SessionMessage>): seq<string> {
    if messages == [] then []
    else
      var last := messages[|messages| - 1];
      ToolNames(messages[..|messages| - 1]) + (if last.Sent? then Names(last.message.toolCalls) else [])
  }

  function Summary(middle: seq<SessionMessage>): SessionMessage {
    Marker(|middle|, Unique(ToolNames(middle)))
  }

  function CompressNativeSession(messages: seq<SessionMessage>): seq<SessionMessage> {
    var n := |messages|;
    if n <= COMPRESS_THRESHOLD then messages
    else
      var early, recent, middle := messages[..KEEP_EARLY], messages[n - KEEP_RECENT..],
        messages[KEEP_EARLY..n - KEEP_RECENT];
      if |middle| < 5 then messages
      else early + [Summary(middle)] + recent
  }

  /** What `saveNativeSession` writes. */
  function Trimmed(messages: seq<SessionMessage>): seq<SessionMessage> {
    Capped(CompressNativeSession(messages))
  }

  /** The hard cap on the messages that are kept. */
  function Capped(messages: seq<SessionMessage>): seq<SessionMessage> {
    if |messages| > MAX_SESSION_MESSAGES then messages[|messages| - MAX_SESSION_MESSAGES..] else messages
  }

  /** Neither the guard on a short middle nor the hard cap ever has an effect; compressing twice is
      compressing once. */
  lemma {:induction false} GuardsNeverFire(messages: seq<SessionMessage>)
    ensures |messages| > COMPRESS_THRESHOLD ==> |messages[KEEP_EARLY..|messages| - KEEP_RECENT]| >= 5
    ensures |CompressNativeSession(messages)| <= COMPRESS_THRESHOLD
    ensures Trimmed(messages) == CompressNativeSession(messages)
    ensures CompressNativeSession(CompressNativeSession(messages)) == CompressNativeSession(messages)
  {
  }

  /** The summary names every tool used in the condensed part, each once. */
  lemma {:induction false} SummaryNamesTools(middle: seq<SessionMessage>)
    ensures var tools := Summary(middle).toolsUsed;
            && (forall i, j | 0 <= i < j < |tools| :: tools[i] != tools[j])
            && forall x :: x in tools <==> x in ToolNames(middle)
  {
    UniqueFacts(ToolNames(middle));
  }

  // --- The session file ---

  datatype Session = Session(sessionId: string, agentKey: string, messages: seq<SessionMessage>, createdAt: int,
    updatedAt: int)

  datatype File = Readable(session: Session) | Corrupt

  function Load(file: Option<File>, now: int): Option<Session> {
    match file
    case Some(Readable(s)) => if now - s.updatedAt > SESSION_TTL_MS then None else Some(s)
    case _ => None
  }

  class SessionStore {
    var files: map<string, File>

    constructor ()
      ensures files == map[]
    {
      files := map[];
    }

    function FileOf(id: string): Option<File>
      reads this
    {
      if id in files then Some(files[id]) else None
    }

    method LoadNativeSession(id: string, now: int) returns (r: Option<Session>)
      ensures r == Load(FileOf(id), now)
    {
      if id !in files { return None; }
      match files[id]
      case Corrupt => return None;
      case Readable(session) =>
        if now - session.updatedAt > SESSION_TTL_MS { return None; }
        r := Some(session);
    }

    /** A write that fails is logged and leaves the file as it was. */
    method SaveNativeSession(id: string, agentKey: string, messages: seq<SessionMessage>, existing: Option<Session>,
                             now: int, writeOk: bool)
      modifies this
      ensures files == if writeOk then old(files)[id := Readable(Saved(id, agentKey, messages, existing, now))]
                       else old(files)
    {
      var compressed := CompressNativeSession(messages);
      var trimmed := Capped(compressed);
      var createdAt := now;
      if existing.Some? { createdAt := existing.value.createdAt; }
      var session := Session(id, agentKey, trimmed, createdAt, now);
      if writeOk {
        files := files[id := Readable(session)];
      }
    }
  }

  function Saved(id: string, agentKey: string, messages: seq<SessionMessage>, existing: Option<Session>,
      now: int): Session {
    Session(id, agentKey, Trimmed(messages), if existing.Some? then existing.value.createdAt else now, now)
  }

  // --- Rounds ---

  /** One invocation: when it loads, what it adds, when it saves, and whether the write succeeds. */
  datatype Round = Round(loadAt: int, added: seq<SessionMessage>, saveAt: int, writeOk: bool)

  /** The file and the full history it stands for: everything sent since the session was created or
      last found expired. */
  datatype Conversation = Conversation(file: Option<File>, history: seq<SessionMessage>, startedAt: int)

  function Play(id: string, agentKey: string, c: Conversation, r: Round): Conversation {
    var prior := Load(c.file, r.loadAt);
    var base := if prior.Some? then prior.value.messages else [];
    if !r.writeOk then c
    else
      Conversation(Some(Readable(Saved(id, agentKey, base + r.added, prior, r.saveAt))),
                   if prior.Some? then c.history + r.added else r.added,
                   if prior.Some? then c.startedAt else r.saveAt)
  }

  /** The conversation after some rounds; at first there is no file, or one that cannot be read. */
  function PlayAll(id: string, agentKey: string, corruptFile: bool, rounds: seq<Round>): Conversation {
    if rounds == [] then Conversation(if corruptFile then Some(Corrupt) else None, [], 0)
    else Play(id, agentKey, PlayAll(id, agentKey, corruptFile, rounds[..|rounds| - 1]), rounds[|rounds| - 1])
  }

  predicate AllSent(messages: seq<SessionMessage>) {
    forall i | 0 <= i < |messages| :: messages[i].Sent?
  }

  /** Either the whole history, still short, or its first messages, one generated summary, and its
      last `t` messages. */
  ghost predicate Stored(stored: seq<SessionMessage>, history: seq<SessionMessage>) {
    || (|history| <= COMPRESS_THRESHOLD && stored == history)
    || exists t: nat, middle: seq<SessionMessage> :: Condensed(stored, history, t, middle)
  }

  ghost predicate Condensed(stored: seq<SessionMessage>, history: seq<SessionMessage>, t: nat,
      middle: seq<SessionMessage>) {
    && KEEP_RECENT <= t <= |history| - KEEP_EARLY
    && |stored| == KEEP_EARLY + 1 + t <= COMPRESS_THRESHOLD
    && stored == history[..KEEP_EARLY] + [Summary(middle)] + history[|history| - t..]
  }

  lemma {:induction false} CompressionCondenses(history: seq<SessionMessage>) returns (middle: seq<SessionMessage>)
    requires |history| > COMPRESS_THRESHOLD
    ensures Condensed(CompressNativeSession(history), history, KEEP_RECENT, middle)
  {
    middle := history[KEEP_EARLY..|history| - KEEP_RECENT];
  }

  lemma {:induction false} FirstCompression(history: seq<SessionMessage>)
    ensures Stored(CompressNativeSession(history), history)
  {
    if |history| > COMPRESS_THRESHOLD {
      var middle := CompressionCondenses(history);
    }
  }

  lemma {:induction false} LaterRound(stored: seq<SessionMessage>, history: seq<SessionMessage>, t: nat,
      middle: seq<SessionMessage>, added: seq<SessionMessage>)
    requires Condensed(stored, history, t, middle)
    ensures Stored(CompressNativeSession(stored + added), history + added)
  {
    var all, full := stored + added, history + added;
    assert full[..KEEP_EARLY] == history[..KEEP_EARLY];
    assert full[|full| - (t + |added|)..] == history[|history| - t..] + added;
    assert all == full[..KEEP_EARLY] + [Summary(middle)] + full[|full| - (t + |added|)..];
    if |all| <= COMPRESS_THRESHOLD {
      assert Condensed(all, full, t + |added|, middle);
    } else {
      RecentAgrees(all, full, t + |added|, middle);
    }
  }

  lemma {:induction false} RecentAgrees(all: seq<SessionMessage>, full: seq<SessionMessage>, t: nat,
      middle: seq<SessionMessage>)
    requires KEEP_RECENT <= t <= |full| - KEEP_EARLY && |all| == KEEP_EARLY + 1 + t > COMPRESS_THRESHOLD
    requires all == full[..KEEP_EARLY] + [Summary(middle)] + full[|full| - t..]
    ensures Stored(CompressNativeSession(all), full)
  {
    var n := |all|;
    assert all[n - KEEP_RECENT..] == full[|full| - KEEP_RECENT..];
    assert all[..KEEP_EARLY] == full[..KEEP_EARLY];
    assert Condensed(CompressNativeSession(all), full, KEEP_RECENT, all[KEEP_EARLY..n - KEEP_RECENT]);
  }

  ghost predicate Consistent(c: Conversation) {
    match c.file
    case Some(Readable(s)) => Stored(s.messages, c.history) && AllSent(c.history) && s.createdAt == c.startedAt
    case _ => true
  }

  /** After any rounds, at any times and with any failed writes, a readable file holds the full
      history of its conversation, condensed at most once, and the creation time of that conversation. */
  lemma {:induction false} RoundsKeepHistory(id: string, agentKey: string, corruptFile: bool, rounds: seq<Round>)
    requires forall i | 0 <= i < |rounds| :: AllSent(rounds[i].added)
    ensures Consistent(PlayAll(id, agentKey, corruptFile, rounds))
  {
    if rounds != [] {
      var c, r := PlayAll(id, agentKey, corruptFile, rounds[..|rounds| - 1]), rounds[|rounds| - 1];
      RoundsKeepHistory(id, agentKey, corruptFile, rounds[..|rounds| - 1]);
      RoundKeepsHistory(id, agentKey, c, r);
    }
  }

  lemma {:induction false} RoundKeepsHistory(id: string, agentKey: string, c: Conversation, r: Round)
    requires Consistent(c) && AllSent(r.added)
    ensures Consistent(Play(id, agentKey, c, r))
  {
    var prior := Load(c.file, r.loadAt);
    if prior.None? {
      GuardsNeverFire(r.added);
      FirstCompression(r.added);
      assert [] + r.added == r.added;
    } else {
      var stored := prior.value.messages;
      GuardsNeverFire(stored + r.added);
      if |c.history| <= COMPRESS_THRESHOLD && stored == c.history {
        FirstCompression(stored + r.added);
      } else {
        var t: nat, middle: seq<SessionMessage> :| Condensed(stored, c.history, t, middle);
        LaterRound(stored, c.history, t, middle, r.added);
      }
    }
  }

  /** In the words of the design: at most 50 messages, the first 4 and the last 20 ever sent (all of
      them while the history is short), and at most one generated message, behind the first 4. */
  lemma {:induction false} StoredMeansWindow(stored: seq<SessionMessage>, history: seq<SessionMessage>)
    requires Stored(stored, history) && AllSent(history)
    ensures |stored| <= COMPRESS_THRESHOLD
    ensures |history| >= KEEP_EARLY ==> |stored| >= KEEP_EARLY && stored[..KEEP_EARLY] == history[..KEEP_EARLY]
    ensures |history| >= KEEP_RECENT ==>
              |stored| >= KEEP_RECENT && stored[|stored| - KEEP_RECENT..] == history[|history| - KEEP_RECENT..]
    ensures |history| < KEEP_RECENT ==> stored == history
    ensures forall i | 0 <= i < |stored| && stored[i].Marker? :: i == KEEP_EARLY && |history| > KEEP_RECENT
  {
  }

  /** A second compression takes the summary of the first into its middle and names only the tools of
      the messages that follow it: the tools named by the first summary are forgotten. */
  lemma {:induction false} EarlierToolsForgotten(early: seq<SessionMessage>, marker: SessionMessage,
      rest: seq<SessionMessage>)
    requires |early| == KEEP_EARLY && marker.Marker? && |rest| >= COMPRESS_THRESHOLD
    ensures CompressNativeSession(early + [marker] + rest)[KEEP_EARLY].toolsUsed ==
            Unique(ToolNames(rest[..|rest| - KEEP_RECENT]))
  {
    var all := early + [marker] + rest;
    var cut := rest[..|rest| - KEEP_RECENT];
    assert all[KEEP_EARLY..|all| - KEEP_RECENT] == [marker] + cut;
    MarkerNamesNothing(marker, cut);
  }

  lemma {:induction false} MarkerNamesNothing(marker: SessionMessage, messages: seq<SessionMessage>)
    requires marker.Marker?
    ensures ToolNames([marker] + messages) == ToolNames(messages)
  {
    if messages == [] {
      assert ([marker] + messages)[..0] == [];
    } else {
      MarkerNamesNothing(marker, messages[..|messages| - 1]);
      assert ([marker] + messages)[..|messages|] == [marker] + messages[..|messages| - 1];
    }
  }
}
