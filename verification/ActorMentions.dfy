/** Mention tags of `src/agents/actor.ts`: `[@agent: task]`, `[@agent(hint): task]` and
    `[@instance.agent: task]`, found by one pass, removed by another, both blind to code. */
module ActorMentions {
  import opened Text

  // --- Scanning ---

  datatype Range = Range(start: nat, end: nat)

  /** A pattern gives the end of its match at a position, if it matches there. */
  type Pattern = (string, nat) -> Option<nat>

  /** The end of the longest run of characters of a class. */
  function RunEnd(s: string, i: nat, inClass: char -> bool): (end: nat)
    ensures i <= end && (i <= |s| ==> end <= |s|)
    decreases |s| - i
  {
    if i < |s| && inClass(s[i]) then RunEnd(s, i + 1, inClass) else i
  }

  lemma {:induction false} RunEndIs(s: string, i: nat, end: nat, inClass: char -> bool)
    requires i <= end <= |s|
    requires forall k | i <= k < end :: inClass(s[k])
    requires end == |s| || !inClass(s[end])
    ensures RunEnd(s, i, inClass) == end
    decreases end - i
  {
    if i < end {
      RunEndIs(s, i + 1, end, inClass);
    }
  }

  lemma {:induction false} RunEndFacts(s: string, i: nat, inClass: char -> bool)
    ensures var end := RunEnd(s, i, inClass); end < |s| ==> !inClass(s[end])
    decreases |s| - i
  {
    if i < |s| && inClass(s[i]) {
      RunEndFacts(s, i + 1, inClass);
    }
  }

  function Slice(s: string, from: nat, to: nat): string {
    if from <= to <= |s| then s[from..to] else ""
  }

  /** All matches of a global regular expression from a position on, left to right. */
  function Scan(at: Pattern, s: string, i: nat): seq<Range>
    decreases |s| - i
  {
    if i >= |s| then []
    else
      var m := at(s, i);
      if m.Some? && i < m.value <= |s| then [Range(i, m.value)] + Scan(at, s, m.value) else Scan(at, s, i + 1)
  }

  /** Each range is a whole match that starts where the one before has ended, or later. */
  predicate MatchesIn(at: Pattern, s: string, from: nat, rs: seq<Range>)
    decreases |rs|
  {
    rs != [] ==>
      && from <= rs[0].start < rs[0].end <= |s|
      && at(s, rs[0].start) == Some(rs[0].end)
      && MatchesIn(at, s, rs[0].end, rs[1..])
  }

  lemma {:induction false} ScanFacts(at: Pattern, s: string, i: nat)
    ensures MatchesIn(at, s, i, Scan(at, s, i))
    decreases |s| - i
  {
    if i < |s| {
      var m := at(s, i);
      if m.Some? && i < m.value <= |s| {
        ScanFacts(at, s, m.value);
        assert Scan(at, s, i)[1..] == Scan(at, s, m.value);
      } else {
        ScanFacts(at, s, i + 1);
      }
    }
  }

  predicate MatchesAt(at: Pattern, s: string, i: nat) {
    at(s, i).Some? && i < at(s, i).value <= |s|
  }

  lemma {:induction false} ScanSkips(at: Pattern, s: string, i: nat, j: nat)
    requires i <= j
    requires forall k | i <= k < j :: !MatchesAt(at, s, k)
    ensures Scan(at, s, i) == Scan(at, s, j)
    decreases j - i
  {
    if i < j {
      assert !MatchesAt(at, s, i);
      ScanSkips(at, s, i + 1, j);
    }
  }

  /** The matches from one just found on. */
  function Remaining(at: Pattern, s: string, found: Option<Range>): seq<Range> {
    if found.Some? then [found.value] + Scan(at, s, found.value.end) else []
  }

  /** `regex.exec` with its `lastIndex` */
  method Exec(at: Pattern, s: string, from: nat) returns (found: Option<Range>)
    ensures Scan(at, s, from) == Remaining(at, s, found)
    ensures found.Some? ==> from <= found.value.start < found.value.end <= |s|
  {
    var i := from;
    while i < |s|
      invariant from <= i
      invariant Scan(at, s, from) == Scan(at, s, i)
    {
      var m := at(s, i);
      if m.Some? && i < m.value <= |s| {
        return Some(Range(i, m.value));
      }
      i := i + 1;
    }
    return None;
  }

  // --- Code ranges ---

  predicate NotBacktick(c: char) { c != '`' }

  predicate TicksAt(s: string, i: nat) {
    i + 3 <= |s| && s[i] == '`' && s[i + 1] == '`' && s[i + 2] == '`'
  }

  function NextTicks(s: string, i: nat): Option<nat>
    decreases |s| - i
  {
    if i >= |s| then None else if TicksAt(s, i) then Some(i) else NextTicks(s, i + 1)
  }

  /** Three backticks up to the nearest three backticks. */
  function FenceAt(s: string, i: nat): Option<nat> {
    if TicksAt(s, i) && NextTicks(s, i + 3).Some? then Some(NextTicks(s, i + 3).value + 3) else None
  }

  /** A backtick, at least one other character, and a backtick. */
  function InlineAt(s: string, i: nat): Option<nat> {
    if i < |s| && s[i] == '`' then
      var end := RunEnd(s, i + 1, NotBacktick);
      if i + 1 < end < |s| then Some(end + 1) else None
    else None
  }

  predicate Covers(r: Range, pos: nat) {
    r.start <= pos < r.end
  }

  predicate InCode(pos: nat, ranges: seq<Range>) {
    exists k | 0 <= k < |ranges| :: Covers(ranges[k], pos)
  }

  function StartingOutside(rs: seq<Range>, fences: seq<Range>): seq<Range> {
    if rs == [] then []
    else (if InCode(rs[0].start, fences) then [] else [rs[0]]) + StartingOutside(rs[1..], fences)
  }

  /** The fences, and the inline spans that do not start inside a fence. */
  function CodeRanges(s: string): seq<Range> {
    Scan(FenceAt, s, 0) + StartingOutside(Scan(InlineAt, s, 0), Scan(FenceAt, s, 0))
  }

  lemma {:induction false} AddedOutside(inline: seq<Range>, r: Range, rest: seq<Range>, fences: seq<Range>)
    ensures inline + StartingOutside([r] + rest, fences) ==
            (inline + if InCode(r.start, fences) then [] else [r]) + StartingOutside(rest, fences)
  {
  }

  predicate EndBy(rs: seq<Range>, pos: nat) {
    forall k | 0 <= k < |rs| :: rs[k].end <= pos
  }

  lemma {:induction false} InCodeOfBoth(pos: nat, a: seq<Range>, b: seq<Range>)
    requires EndBy(b, pos)
    ensures InCode(pos, a + b) == InCode(pos, a)
  {
    if InCode(pos, a) {
      var k :| 0 <= k < |a| && Covers(a[k], pos);
      assert Covers((a + b)[k], pos);
    }
  }

  method GetCodeRanges(text: string) returns (ranges: seq<Range>)
    ensures ranges == CodeRanges(text)
  {
    ranges := [];
    var found := Exec(FenceAt, text, 0);
    while found.Some?
      invariant found.Some? ==> found.value.end <= |text|
      invariant Scan(FenceAt, text, 0) == ranges + Remaining(FenceAt, text, found)
      decreases if found.Some? then |text| - found.value.end else -1
    {
      ranges := ranges + [found.value];
      found := Exec(FenceAt, text, found.value.end);
    }
    assert ranges + [] == ranges;
    ranges := AddInline(text, ranges);
  }

  /** The second loop, which also tests against the inline spans it has added itself. */
  method AddInline(text: string, fences: seq<Range>) returns (ranges: seq<Range>)
    ensures ranges == fences + StartingOutside(Scan(InlineAt, text, 0), fences)
  {
    var inline: seq<Range> := [];
    var found := Exec(InlineAt, text, 0);
    while found.Some?
      invariant found.Some? ==> found.value.start < found.value.end <= |text| && EndBy(inline, found.value.start)
      invariant StartingOutside(Scan(InlineAt, text, 0), fences) ==
                inline + StartingOutside(Remaining(InlineAt, text, found), fences)
      decreases if found.Some? then |text| - found.value.end else -1
    {
      var range := found.value;
      AddedOutside(inline, range, Scan(InlineAt, text, range.end), fences);
      inline := AddUnlessInside(range, fences, inline);
      found := Exec(InlineAt, text, range.end);
    }
    assert inline + [] == inline;
    ranges := fences + inline;
  }

  method AddUnlessInside(range: Range, fences: seq<Range>, inline: seq<Range>) returns (added: seq<Range>)
    requires range.start < range.end && EndBy(inline, range.start)
    ensures added == inline + if InCode(range.start, fences) then [] else [range]
    ensures EndBy(added, range.end)
  {
    InCodeOfBoth(range.start, fences, inline);
    added := inline;
    if !InCode(range.start, fences + inline) {
      added := added + [range];
    }
  }

  // --- Mention tags ---

  /** `\w` */
  predicate IsWord(c: char) {
    'a' <= c <= 'z' || 'A' <= c <= 'Z' || '0' <= c <= '9' || c == '_'
  }

  predicate IsNameChar(c: char) {
    IsWord(c) || c == '.' || c == '-'
  }

  predicate NotClosing(c: char) { c != ']' }

  predicate NotDot(c: char) { c != '.' }

  /** Where the name of a tag at `i` ends; it starts after `[@`. */
  function NameEnd(s: string, i: nat): nat {
    RunEnd(s, i + 2, IsNameChar)
  }

  /** Where an optional `(hint)` at `n` ends, or `n` if there is none. */
  function HintEnd(s: string, n: nat): nat {
    if n < |s| && s[n] == '(' then
      var k := RunEnd(s, n + 1, IsWord);
      if n + 1 < k < |s| && s[k] == ')' then k + 1 else n
    else n
  }

  function ColonAt(s: string, i: nat): nat {
    HintEnd(s, NameEnd(s, i))
  }

  function BodyEnd(s: string, i: nat): nat {
    RunEnd(s, ColonAt(s, i) + 1, NotClosing)
  }

  /** The pattern `\[@([\w][\w.-]*)(?:\((\w+)\))?:\s*([^\]]+)\]`, without backtracking; see `MatchesPattern`. */
  function MentionAt(s: string, i: nat): Option<nat> {
    if i + 2 < |s| && s[i] == '[' && s[i + 1] == '@' && IsWord(s[i + 2]) then
      var c := ColonAt(s, i);
      if c < |s| && s[c] == ':' && c + 1 < BodyEnd(s, i) < |s| then Some(BodyEnd(s, i) + 1) else None
    else None
  }

  /** What `\s*([^\]]+)` captures of a body. */
  function Captured(body: string): string {
    var tail := TrimStart(body);
    if tail == "" && body != "" then [body[|body| - 1]] else tail
  }

  lemma {:induction false} CapturedTask(body: string)
    ensures Trim(Captured(body)) == Trim(body)
  {
    var tail := TrimStart(body);
    TrimStartFacts(body);
    if tail == "" && body != "" {
      assert body[..|body|] == body;
      TrimBlank(body);
      TrimBlank(Captured(body));
    } else {
      assert TrimStart(tail) == tail;
    }
  }

  // --- The pattern ---

  /** An optional group `(hint)` from `n` to `c`. */
  predicate IsHint(s: string, n: nat, c: nat) {
    n + 2 < c <= |s| && s[n] == '(' && s[c - 1] == ')' && forall k | n + 1 <= k < c - 1 :: IsWord(s[k])
  }

  /** A way to match the pattern at `i`: the name ends at `n`, the hint at `c`, the white space at `w`
      and the captured text at `e`. */
  predicate Splits(s: string, i: nat, n: nat, c: nat, w: nat, e: nat) {
    && i + 2 < n <= c < w <= e < |s| && w < e
    && s[i] == '[' && s[i + 1] == '@' && IsWord(s[i + 2])
    && (forall k | i + 2 <= k < n :: IsNameChar(s[k]))
    && (c == n || IsHint(s, n, c))
    && s[c] == ':'
    && (forall k | c + 1 <= k < w :: IsSpace(s[k]))
    && (forall k | w <= k < e :: NotClosing(s[k]))
    && s[e] == ']'
  }

  lemma {:induction false} RunAllIn(s: string, i: nat, inClass: char -> bool)
    requires i <= |s|
    ensures forall k | i <= k < RunEnd(s, i, inClass) :: inClass(s[k])
    decreases |s| - i
  {
    if i < |s| && inClass(s[i]) {
      RunAllIn(s, i + 1, inClass);
    }
  }

  lemma {:induction false} HintSplits(s: string, n: nat, c: nat)
    requires n <= c < |s| && s[c] == ':' && (c == n || IsHint(s, n, c))
    ensures HintEnd(s, n) == c
  {
    if c != n {
      RunEndIs(s, n + 1, c - 1, IsWord);
    }
  }

  lemma {:induction false} HintFound(s: string, n: nat)
    ensures HintEnd(s, n) == n || (n < |s| && IsHint(s, n, HintEnd(s, n)))
  {
    if n < |s| {
      RunAllIn(s, n + 1, IsWord);
    }
  }

  /** However the pattern is matched, name, hint and end are those the scanner finds. */
  lemma {:induction false} SplitDetermines(s: string, i: nat, n: nat, c: nat, w: nat, e: nat)
    requires Splits(s, i, n, c, w, e)
    ensures NameEnd(s, i) == n && ColonAt(s, i) == c && BodyEnd(s, i) == e
    ensures MentionAt(s, i) == Some(e + 1)
  {
    RunEndIs(s, i + 2, n, IsNameChar);
    HintSplits(s, n, c);
    forall k | c + 1 <= k < e ensures NotClosing(s[k]) {
    }
    RunEndIs(s, c + 1, e, NotClosing);
  }

  lemma {:induction false} MentionSplits(s: string, i: nat)
    requires MentionAt(s, i).Some?
    ensures Splits(s, i, NameEnd(s, i), ColonAt(s, i), ColonAt(s, i) + 1, BodyEnd(s, i))
    ensures MentionAt(s, i) == Some(BodyEnd(s, i) + 1)
  {
    RunAllIn(s, i + 2, IsNameChar);
    HintFound(s, NameEnd(s, i));
    RunAllIn(s, ColonAt(s, i) + 1, NotClosing);
    RunEndFacts(s, ColonAt(s, i) + 1, NotClosing);
  }

  /** The scanner matches up to `e` exactly if some way of matching the pattern ends there: backtracking
      finds no match that it misses. */
  lemma {:induction false} MatchesPattern(s: string, i: nat, e: nat)
    ensures MentionAt(s, i) == Some(e + 1) <==> exists n, c, w :: Splits(s, i, n, c, w, e)
  {
    if MentionAt(s, i) == Some(e + 1) {
      MentionSplits(s, i);
    }
    forall n, c, w | Splits(s, i, n, c, w, e) ensures MentionAt(s, i) == Some(e + 1) {
      SplitDetermines(s, i, n, c, w, e);
    }
  }

  /** Where the captured text of the body between `c` and `e` starts. */
  lemma {:induction false} CaptureStart(s: string, c: nat, e: nat, body: string) returns (w: nat)
    requires c + 1 < e < |s| && body == Slice(s, c + 1, e)
    ensures c < w < e && Captured(body) == Slice(s, w, e)
    ensures forall k | c + 1 <= k < w :: IsSpace(s[k])
    ensures w + 1 < e ==> !IsSpace(s[w])
  {
    CapturedFacts(body);
    w := e - |Captured(body)|;
    assert s[w..e] == body[|body| - |Captured(body)|..];
    forall k | c + 1 <= k < w ensures IsSpace(s[k]) {
      assert s[k] == body[k - c - 1];
    }
    assert s[w] == body[w - c - 1];
  }

  /** What is captured is what remains when the white space takes all it can. */
  lemma {:induction false} CapturedGreedily(s: string, i: nat, n: nat, c: nat, e: nat) returns (w: nat)
    requires MentionAt(s, i).Some? && n == NameEnd(s, i) && c == ColonAt(s, i) && e == BodyEnd(s, i)
    ensures Splits(s, i, n, c, w, e) && Captured(Slice(s, c + 1, e)) == Slice(s, w, e)
    ensures forall v: nat | Splits(s, i, n, c, v, e) :: v <= w
  {
    MentionSplits(s, i);
    w := CaptureStart(s, c, e, Slice(s, c + 1, e));
  }

  lemma {:induction false} CapturedFacts(body: string)
    requires body != ""
    ensures var r := Captured(body);
            && 0 < |r| <= |body| && r == body[|body| - |r|..] && AllSpace(body[..|body| - |r|])
            && (|r| > 1 ==> !IsSpace(r[0]))
  {
    TrimStartFacts(body);
    var r := Captured(body);
    if TrimStart(body) == "" {
      assert r == body[|body| - 1..];
      assert forall k | 0 <= k < |body| :: body[..|body|][k] == body[k];
    }
  }

  // --- Mentions ---

  datatype Mention = Mention(agent: string, task: string, site: Option<string>, modelHint: Option<string>, ralph: bool)

  function Name(s: string, i: nat): string {
    LowerCase(Slice(s, i + 2, NameEnd(s, i)))
  }

  function Hint(s: string, i: nat): Option<string> {
    var n, c := NameEnd(s, i), ColonAt(s, i);
    if n + 2 < c then Some(LowerCase(Slice(s, n + 1, c - 1))) else None
  }

  function Task(s: string, i: nat): string {
    Trim(Captured(Slice(s, ColonAt(s, i) + 1, BodyEnd(s, i))))
  }

  /** The mention a name, hint and task stand for. */
  function Interpret(name: string, hint: Option<string>, task: string): Mention {
    var dot := RunEnd(name, 0, NotDot);
    var hinted := if hint == Some("ralph") then None else hint;
    if 0 < dot < |name| then Mention(name[dot + 1..], task, Some(name[..dot]), hinted, hint == Some("ralph"))
    else Mention(name, task, None, hinted, hint == Some("ralph"))
  }

  function MentionOf(s: string, i: nat): Mention {
    Interpret(Name(s, i), Hint(s, i), Task(s, i))
  }

  /** The first pass accepts remote mentions and known agents. */
  predicate Accepted(m: Mention, known: set<string>) {
    m.site.Some? || m.agent in known
  }

  /** The second pass looks at the raw name again. */
  predicate Stripped(name: string, known: set<string>) {
    0 < RunEnd(name, 0, NotDot) < |name| || name in known
  }

  predicate Reports(s: string, r: Range, code: seq<Range>, known: set<string>) {
    !InCode(r.start, code) && Accepted(MentionOf(s, r.start), known)
  }

  predicate Removes(s: string, r: Range, code: seq<Range>, known: set<string>) {
    !InCode(r.start, code) && Stripped(Name(s, r.start), known)
  }

  lemma {:induction false} PassesAgree(s: string, r: Range, code: seq<Range>, known: set<string>)
    ensures Reports(s, r, code, known) <==> Removes(s, r, code, known)
  {
  }

  /** The matches the first pass reports. */
  function Reported(s: string, rs: seq<Range>, code: seq<Range>, known: set<string>): seq<Range> {
    if rs == [] then []
    else (if Reports(s, rs[0], code, known) then [rs[0]] else []) + Reported(s, rs[1..], code, known)
  }

  function Mapped<A, B>(f: A -> B, xs: seq<A>): seq<B> {
    seq(|xs|, k requires 0 <= k < |xs| => f(xs[k]))
  }

  lemma {:induction false} MappedOneMore<A, B>(f: A -> B, got: seq<B>, x: A, more: seq<A>)
    ensures got + Mapped(f, [x] + more) == got + [f(x)] + Mapped(f, more)
  {
  }

  function Mentions(s: string, rs: seq<Range>): seq<Mention> {
    Mapped((r: Range) => MentionOf(s, r.start), rs)
  }

  predicate IsActionType(name: string) {
    name in {"hire", "fire", "reassign", "team", "schedule", "unschedule", "alert", "develop", "dev-pause",
             "dev-resume", "dev-skip", "learn", "propose", "batch-approve", "batch-reject", "btw", "steer"}
  }

  predicate Unrecognised(s: string, r: Range, code: seq<Range>, known: set<string>) {
    && !InCode(r.start, code)
    && !Accepted(MentionOf(s, r.start), known)
    && !IsActionType(MentionOf(s, r.start).agent)
  }

  function Unknowns(s: string, rs: seq<Range>, code: seq<Range>, known: set<string>): seq<string> {
    if rs == [] then []
    else (if Unrecognised(s, rs[0], code, known) then [MentionOf(s, rs[0].start).agent] else [])
         + Unknowns(s, rs[1..], code, known)
  }

  /** The text from a position on without some ranges. */
  function Excise(s: string, from: nat, rs: seq<Range>): string
    decreases |rs|
  {
    if rs == [] then Slice(s, from, |s|) else Slice(s, from, rs[0].start) + Excise(s, rs[0].end, rs[1..])
  }

  lemma {:induction false} ReportedFacts(s: string, rs: seq<Range>, code: seq<Range>, known: set<string>)
    ensures forall r :: r in Reported(s, rs, code, known) <==> r in rs && Reports(s, r, code, known)
  {
    if rs != [] {
      ReportedFacts(s, rs[1..], code, known);
    }
  }

  // --- The first pass ---

  lemma {:induction false} ReportMore(s: string, got: seq<Mention>, r: Range, rest: seq<Range>, code: seq<Range>,
      known: set<string>)
    ensures var here := if Reports(s, r, code, known) then [MentionOf(s, r.start)] else [];
            var later := Mentions(s, Reported(s, rest, code, known));
            got + Mentions(s, Reported(s, [r] + rest, code, known)) == got + here + later
  {
    var more := Reported(s, rest, code, known);
    assert ([r] + rest)[1..] == rest;
    assert [] + more == more;
    if Reports(s, r, code, known) {
      MappedOneMore((q: Range) => MentionOf(s, q.start), got, r, more);
    }
  }

  lemma {:induction false} UnknownMore(s: string, got: seq<string>, r: Range, rest: seq<Range>, code: seq<Range>,
      known: set<string>)
    ensures var here := if Unrecognised(s, r, code, known) then [MentionOf(s, r.start).agent] else [];
            got + Unknowns(s, [r] + rest, code, known) == got + here + Unknowns(s, rest, code, known)
  {
  }

  method ParsePass(response: string, known: set<string>, code: seq<Range>)
    returns (mentions: seq<Mention>, unknown: seq<string>)
    ensures mentions == Mentions(response, Reported(response, Scan(MentionAt, response, 0), code, known))
    ensures unknown == Unknowns(response, Scan(MentionAt, response, 0), code, known)
  {
    mentions, unknown := [], [];
    var found := Exec(MentionAt, response, 0);
    while found.Some?
      invariant found.Some? ==> found.value.end <= |response|
      invariant Mentions(response, Reported(response, Scan(MentionAt, response, 0), code, known)) ==
                mentions + Mentions(response, Reported(response, Remaining(MentionAt, response, found), code, known))
      invariant Unknowns(response, Scan(MentionAt, response, 0), code, known) ==
                unknown + Unknowns(response, Remaining(MentionAt, response, found), code, known)
      decreases if found.Some? then |response| - found.value.end else -1
    {
      var range := found.value;
      ReportMore(response, mentions, range, Scan(MentionAt, response, range.end), code, known);
      UnknownMore(response, unknown, range, Scan(MentionAt, response, range.end), code, known);
      mentions, unknown := Consider(response, range, code, known, mentions, unknown);
      found := Exec(MentionAt, response, range.end);
    }
  }

  method Consider(s: string, r: Range, code: seq<Range>, known: set<string>, mentions: seq<Mention>,
      unknown: seq<string>)
    returns (moreMentions: seq<Mention>, moreUnknown: seq<string>)
    ensures moreMentions == mentions + if Reports(s, r, code, known) then [MentionOf(s, r.start)] else []
    ensures moreUnknown == unknown + if Unrecognised(s, r, code, known) then [MentionOf(s, r.start).agent] else []
  {
    moreMentions, moreUnknown := mentions, unknown;
    if InCode(r.start, code) {
      return;
    }
    var mention := MentionOf(s, r.start);
    if Accepted(mention, known) {
      moreMentions := mentions + [mention];
    } else if !IsActionType(mention.agent) {
      moreUnknown := unknown + [mention.agent];
    }
  }

  // --- The second pass ---

  predicate Inside(rs: seq<Range>, from: nat, to: nat) {
    forall r | r in rs :: from <= r.start < r.end <= to
  }

  lemma {:induction false} MatchesInside(at: Pattern, s: string, from: nat, rs: seq<Range>)
    requires MatchesIn(at, s, from, rs)
    ensures Inside(rs, from, |s|)
    decreases |rs|
  {
    if rs != [] {
      MatchesInside(at, s, rs[0].end, rs[1..]);
    }
  }

  lemma {:induction false} ReportedInside(s: string, from: nat, code: seq<Range>, known: set<string>)
    ensures Inside(Reported(s, Scan(MentionAt, s, from), code, known), from, |s|)
  {
    ScanFacts(MentionAt, s, from);
    MatchesInside(MentionAt, s, from, Scan(MentionAt, s, from));
    ReportedFacts(s, Scan(MentionAt, s, from), code, known);
  }

  lemma {:induction false} SliceInTwo(s: string, a: nat, b: nat, c: nat)
    requires a <= b <= c <= |s|
    ensures Slice(s, a, c) == Slice(s, a, b) + Slice(s, b, c)
  {
  }

  lemma {:induction false} Associate(a: string, b: string, c: string, d: string)
    ensures (a + (b + c)) + d == a + b + (c + d)
  {
  }

  lemma {:induction false} SliceInThree(s: string, a: nat, b: nat, c: nat, d: nat, tail: string)
    requires a <= b <= c <= d <= |s|
    ensures Slice(s, a, d) + tail == Slice(s, a, b) + Slice(s, b, c) + (Slice(s, c, d) + tail)
  {
    SliceInTwo(s, a, b, d);
    SliceInTwo(s, b, c, d);
    Associate(Slice(s, a, b), Slice(s, b, c), Slice(s, c, d), tail);
  }

  lemma {:induction false} KeepOne(s: string, from: nat, r: Range, rs: seq<Range>)
    requires from <= r.start < r.end <= |s| && Inside(rs, r.end, |s|)
    ensures Excise(s, from, rs) == Slice(s, from, r.start) + Slice(s, r.start, r.end) + Excise(s, r.end, rs)
  {
    if rs == [] {
      SliceInThree(s, from, r.start, r.end, |s|, "");
    } else {
      assert rs[0] in rs;
      SliceInThree(s, from, r.start, r.end, rs[0].start, Excise(s, rs[0].end, rs[1..]));
    }
  }

  /** What the replacement callback returns. */
  function Replacement(s: string, r: Range, code: seq<Range>, known: set<string>): string {
    if Removes(s, r, code, known) then "" else Slice(s, r.start, r.end)
  }

  lemma {:induction false} StripMore(s: string, from: nat, r: Range, rest: seq<Range>, code: seq<Range>,
      known: set<string>)
    requires from <= r.start < r.end <= |s| && Inside(Reported(s, rest, code, known), r.end, |s|)
    ensures Excise(s, from, Reported(s, [r] + rest, code, known)) ==
            Slice(s, from, r.start) + Replacement(s, r, code, known) + Excise(s, r.end, Reported(s, rest, code, known))
  {
    PassesAgree(s, r, code, known);
    var more := Reported(s, rest, code, known);
    assert ([r] + rest)[1..] == rest;
    if Reports(s, r, code, known) {
      assert ([r] + more)[1..] == more;
      assert Slice(s, from, r.start) + "" == Slice(s, from, r.start);
    } else {
      assert [] + more == more;
      KeepOne(s, from, r, more);
    }
  }

  lemma {:induction false} Regroup(out: string, a: string, b: string, c: string)
    ensures out + (a + b + c) == out + a + b + c
  {
  }

  /** The `replace` with a callback: it removes exactly the ranges the first pass reports. */
  method StripPass(response: string, known: set<string>, code: seq<Range>) returns (out: string)
    ensures out == Excise(response, 0, Reported(response, Scan(MentionAt, response, 0), code, known))
  {
    out := "";
    var next: nat := 0;
    var found := Exec(MentionAt, response, 0);
    while found.Some?
      invariant next <= |response|
      invariant found.Some? ==> next <= found.value.start < found.value.end <= |response|
      invariant Excise(response, 0, Reported(response, Scan(MentionAt, response, 0), code, known)) ==
                out + Excise(response, next, Reported(response, Remaining(MentionAt, response, found), code, known))
      decreases if found.Some? then |response| - found.value.end else -1
    {
      var range := found.value;
      ghost var rest := Scan(MentionAt, response, range.end);
      ReportedInside(response, range.end, code, known);
      StripMore(response, next, range, rest, code, known);
      Regroup(out, Slice(response, next, range.start), Replacement(response, range, code, known),
              Excise(response, range.end, Reported(response, rest, code, known)));
      out := out + Slice(response, next, range.start) + Replacement(response, range, code, known);
      next := range.end;
      found := Exec(MentionAt, response, range.end);
    }
    out := out + Slice(response, next, |response|);
  }

  // --- Tidying ---

  predicate IsNewline(c: char) { c == '\n' }

  /** `replace(/\n{3,}/g, "\n\n")` */
  function Collapse(s: string, i: nat): string
    decreases |s| - i
  {
    if i >= |s| then ""
    else
      var end := RunEnd(s, i, IsNewline);
      if end >= i + 3 then "\n\n" + Collapse(s, end) else [s[i]] + Collapse(s, i + 1)
  }

  function Tidy(s: string): string {
    Trim(Collapse(s, 0))
  }

  function WithoutNewlines(s: string): string {
    if s == "" then "" else (if s[0] == '\n' then "" else [s[0]]) + WithoutNewlines(s[1..])
  }

  predicate NoBlankRun(s: string) {
    forall i | 0 <= i <= |s| - 3 :: !(s[i] == '\n' && s[i + 1] == '\n' && s[i + 2] == '\n')
  }

  lemma {:induction false} RunOfNewlines(s: string, i: nat)
    requires i <= |s|
    ensures WithoutNewlines(s[i..]) == WithoutNewlines(s[RunEnd(s, i, IsNewline)..])
    decreases |s| - i
  {
    if i < |s| && s[i] == '\n' {
      RunOfNewlines(s, i + 1);
      assert s[i..][1..] == s[i + 1..];
    }
  }

  lemma {:induction false} OneMoreChar(c: char, rest: string)
    ensures WithoutNewlines([c] + rest) == (if c == '\n' then "" else [c]) + WithoutNewlines(rest)
  {
  }

  lemma {:induction false} TwoNewlines(rest: string)
    ensures WithoutNewlines("\n\n" + rest) == WithoutNewlines(rest)
  {
  }

  lemma {:induction false} CollapseKeepsText(s: string, i: nat)
    requires i <= |s|
    ensures WithoutNewlines(Collapse(s, i)) == WithoutNewlines(s[i..])
    decreases |s| - i
  {
    if i < |s| {
      var end := RunEnd(s, i, IsNewline);
      if end >= i + 3 {
        CollapseKeepsText(s, end);
        RunOfNewlines(s, i);
        TwoNewlines(Collapse(s, end));
      } else {
        CollapseKeepsText(s, i + 1);
        OneMoreChar(s[i], Collapse(s, i + 1));
        OneMoreChar(s[i], s[i + 1..]);
        assert s[i..] == [s[i]] + s[i + 1..];
      }
    }
  }

  /** How many newlines a collapsed text starts with, up to two. */
  lemma {:induction false} CollapseStart(s: string, i: nat)
    ensures var run, t := RunEnd(s, i, IsNewline) - i, Collapse(s, i);
            && (run == 0 ==> t == "" || t[0] != '\n')
            && (run == 1 ==> |t| > 0 && (|t| > 1 ==> t[1] != '\n'))
            && (run >= 2 ==> |t| > 1 && (|t| > 2 ==> t[2] != '\n'))
    decreases |s| - i
  {
    if i < |s| && s[i] == '\n' {
      var end := RunEnd(s, i, IsNewline);
      if end >= i + 3 {
        RunEndFacts(s, i, IsNewline);
        RunEndIs(s, end, end, IsNewline);
        CollapseStart(s, end);
      } else {
        CollapseStart(s, i + 1);
      }
    }
  }

  lemma {:induction false} NoBlankRunBehind(lead: string, t: string)
    requires NoBlankRun(t) && (lead == "\n\n" || |lead| == 1)
    requires |t| > 0 && t[0] == '\n' ==> lead != "\n\n"
    requires |t| > 1 && t[0] == '\n' && t[1] == '\n' ==> lead[0] != '\n'
    ensures NoBlankRun(lead + t)
  {
    var u := lead + t;
    forall i | 0 <= i <= |u| - 3 ensures !(u[i] == '\n' && u[i + 1] == '\n' && u[i + 2] == '\n') {
      if i >= |lead| {
        var k := i - |lead|;
        assert u[i] == t[k] && u[i + 1] == t[k + 1] && u[i + 2] == t[k + 2];
      }
    }
  }

  lemma {:induction false} CollapseNoBlankRun(s: string, i: nat)
    ensures NoBlankRun(Collapse(s, i))
    decreases |s| - i
  {
    if i < |s| {
      var end := RunEnd(s, i, IsNewline);
      if end >= i + 3 {
        RunEndFacts(s, i, IsNewline);
        RunEndIs(s, end, end, IsNewline);
        CollapseStart(s, end);
        CollapseNoBlankRun(s, end);
        NoBlankRunBehind("\n\n", Collapse(s, end));
      } else {
        CollapseStart(s, i + 1);
        CollapseNoBlankRun(s, i + 1);
        NoBlankRunBehind([s[i]], Collapse(s, i + 1));
      }
    }
  }

  // --- Both passes ---

  /** The ranges of the mentions a response makes. */
  function Made(response: string, known: set<string>): seq<Range> {
    Reported(response, Scan(MentionAt, response, 0), CodeRanges(response), known)
  }

  /** Both passes over a response: what is reported and what is removed is the same list of ranges. */
  method ParseActorMentions(response: string, known: set<string>)
    returns (mentions: seq<Mention>, unknown: seq<string>, cleaned: string)
    ensures mentions == Mentions(response, Made(response, known))
    ensures unknown == Unknowns(response, Scan(MentionAt, response, 0), CodeRanges(response), known)
    ensures Made(response, known) == [] ==> cleaned == response
    ensures Made(response, known) != [] ==> cleaned == Tidy(Excise(response, 0, Made(response, known)))
  {
    var code := GetCodeRanges(response);
    mentions, unknown := ParsePass(response, known, code);
    cleaned := response;
    if |mentions| > 0 {
      cleaned := StripPass(response, known, code);
      cleaned := Tidy(cleaned);
    }
  }

  /** Nothing is missed: a tag that starts outside every match found does not match at all. */
  lemma {:induction false} ScanComplete(at: Pattern, s: string, i: nat, pos: nat)
    requires i <= pos && MatchesAt(at, s, pos)
    ensures InCode(pos, Scan(at, s, i))
    decreases |s| - i
  {
    var m := at(s, i);
    if m.Some? && i < m.value <= |s| {
      var rest := Scan(at, s, m.value);
      assert Scan(at, s, i) == [Range(i, m.value)] + rest;
      if pos < m.value {
        assert Covers(Scan(at, s, i)[0], pos);
      } else {
        ScanComplete(at, s, m.value, pos);
        var k :| 0 <= k < |rest| && Covers(rest[k], pos);
        assert Covers(Scan(at, s, i)[k + 1], pos);
      }
    } else {
      ScanComplete(at, s, i + 1, pos);
    }
  }

  lemma {:induction false} PrependMatch(at: Pattern, s: string, from: nat, r: Range, rs: seq<Range>)
    requires from <= r.start < r.end <= |s| && at(s, r.start) == Some(r.end) && MatchesIn(at, s, r.end, rs)
    ensures MatchesIn(at, s, from, rs) && MatchesIn(at, s, from, [r] + rs)
  {
  }

  lemma {:induction false} ReportedOrdered(at: Pattern, s: string, from: nat, rs: seq<Range>, code: seq<Range>,
      known: set<string>)
    requires MatchesIn(at, s, from, rs)
    ensures MatchesIn(at, s, from, Reported(s, rs, code, known))
    decreases |rs|
  {
    if rs != [] {
      ReportedOrdered(at, s, rs[0].end, rs[1..], code, known);
      var more := Reported(s, rs[1..], code, known);
      PrependMatch(at, s, from, rs[0], more);
      assert [] + more == more;
    }
  }

  /** The ranges reported and removed are whole tags, disjoint and in order, and they are exactly the
      tags outside code that name a remote or a known agent. */
  lemma {:induction false} MadeFacts(response: string, known: set<string>)
    ensures MatchesIn(MentionAt, response, 0, Made(response, known))
    ensures forall r :: r in Made(response, known) <==>
              r in Scan(MentionAt, response, 0) && Removes(response, r, CodeRanges(response), known)
  {
    var code := CodeRanges(response);
    ScanFacts(MentionAt, response, 0);
    ReportedOrdered(MentionAt, response, 0, Scan(MentionAt, response, 0), code, known);
    ReportedFacts(response, Scan(MentionAt, response, 0), code, known);
    forall r ensures Reports(response, r, code, known) <==> Removes(response, r, code, known) {
      PassesAgree(response, r, code, known);
    }
  }

  /** A tidied text neither begins nor ends with white space and has no two blank lines in a row. */
  lemma {:induction false} TidyFacts(s: string)
    ensures NoBlankRun(Tidy(s))
    ensures Tidy(s) != "" ==> !IsSpace(Tidy(s)[0]) && !IsSpace(Tidy(s)[|Tidy(s)| - 1])
  {
    var t := Collapse(s, 0);
    CollapseNoBlankRun(s, 0);
    TrimStartFacts(t);
    var u := TrimStart(t);
    TrimEndFacts(u);
    forall i | 0 <= i <= |Tidy(s)| - 3
      ensures !(Tidy(s)[i] == '\n' && Tidy(s)[i + 1] == '\n' && Tidy(s)[i + 2] == '\n')
    {
      var k := |t| - |u| + i;
      assert !(t[k] == '\n' && t[k + 1] == '\n' && t[k + 2] == '\n');
    }
  }

  // --- Printing mentions ---

  function Title(m: Mention): string {
    if m.site.Some? then m.site.value + "." + m.agent else m.agent
  }

  function HintOf(m: Mention): Option<string> {
    if m.ralph then Some("ralph") else m.modelHint
  }

  function PrintHint(h: Option<string>): string {
    if h.Some? then "(" + (h.value + ")") else ""
  }

  /** A tag from its colon on. */
  function ColonTail(body: string): string {
    ":" + (body + "]")
  }

  /** A tag from the end of its name on. */
  function HintTail(hint: string, body: string): string {
    hint + ColonTail(body)
  }

  function TagText(title: string, hint: string, body: string): string {
    "[@" + (title + HintTail(hint, body))
  }

  function PrintMention(m: Mention): string {
    TagText(Title(m), PrintHint(HintOf(m)), " " + m.task)
  }

  /** A tag and the text that follows it. */
  datatype Placed = Placed(tag: string, after: string)

  function Print(text: string, items: seq<Placed>): string
    decreases |items|
  {
    if items == [] then text else text + (items[0].tag + Print(items[0].after, items[1..]))
  }

  function TextsOf(text: string, items: seq<Placed>): string
    decreases |items|
  {
    if items == [] then text else text + TextsOf(items[0].after, items[1..])
  }

  /** A mention to print and the text to follow it. */
  datatype Item = Item(mention: Mention, after: string)

  function Written(items: seq<Item>): seq<Placed> {
    seq(|items|, k requires 0 <= k < |items| => Placed(PrintMention(items[k].mention), items[k].after))
  }

  function MentionsOf(items: seq<Item>): seq<Mention> {
    seq(|items|, k requires 0 <= k < |items| => items[k].mention)
  }

  predicate AllIn(s: string, inClass: char -> bool) {
    forall k | 0 <= k < |s| :: inClass(s[k])
  }

  predicate GoodTitle(title: string) {
    title != "" && IsWord(title[0]) && AllIn(title, IsNameChar) && NoCapitals(title)
  }

  predicate GoodHint(h: Option<string>) {
    h.Some? ==> h.value != "" && AllIn(h.value, IsWord) && NoCapitals(h.value)
  }

  predicate GoodTask(task: string) {
    ']' !in task && '`' !in task && Trimmed(task)
  }

  predicate WellFormed(m: Mention, known: set<string>) {
    && GoodTitle(Title(m))
    && (if m.site.Some? then m.site.value != "" && '.' !in m.site.value else '.' !in m.agent && m.agent in known)
    && GoodHint(m.modelHint) && m.modelHint != Some("ralph") && (m.ralph ==> m.modelHint.None?)
    && GoodTask(m.task)
  }

  predicate PlainText(text: string) {
    '`' !in text && '[' !in text && ']' !in text
  }

  predicate AllWellFormed(items: seq<Item>, known: set<string>) {
    forall k | 0 <= k < |items| :: WellFormed(items[k].mention, known) && PlainText(items[k].after)
  }

  // --- Reading a printed tag ---

  predicate Holds(s: string, i: nat, p: string) {
    i + |p| <= |s| && forall k | 0 <= k < |p| :: s[i + k] == p[k]
  }

  lemma {:induction false} HoldsBoth(s: string, i: nat, a: string, b: string)
    requires Holds(s, i, a + b)
    ensures Holds(s, i, a) && Holds(s, i + |a|, b)
  {
    forall k | 0 <= k < |a| ensures s[i + k] == a[k] {
      assert s[i + k] == (a + b)[k];
    }
    forall k | 0 <= k < |b| ensures s[i + |a| + k] == b[k] {
      assert s[i + (|a| + k)] == (a + b)[|a| + k];
    }
  }

  lemma {:induction false} SliceHeld(s: string, i: nat, p: string)
    requires Holds(s, i, p)
    ensures Slice(s, i, i + |p|) == p
  {
  }

  lemma {:induction false} CharHeld(s: string, i: nat, p: string, k: nat)
    requires Holds(s, i, p) && k < |p|
    ensures s[i + k] == p[k]
  {
  }

  lemma {:induction false} ClassHeld(s: string, i: nat, run: string, inClass: char -> bool)
    requires Holds(s, i, run) && AllIn(run, inClass)
    ensures forall k | i <= k < i + |run| :: inClass(s[k])
  {
    forall k | i <= k < i + |run| ensures inClass(s[k]) {
      CharHeld(s, i, run, k - i);
    }
  }

  lemma {:induction false} InterpretTitle(m: Mention, known: set<string>)
    requires WellFormed(m, known)
    ensures Interpret(Title(m), HintOf(m), m.task) == m
  {
    var title := Title(m);
    if m.site.Some? {
      var site := m.site.value;
      RunEndIs(title, 0, |site|, NotDot);
      assert title[..|site|] == site && title[|site| + 1..] == m.agent;
    } else {
      RunEndIs(title, 0, |title|, NotDot);
    }
  }

  lemma {:induction false} RalphIsGood()
    ensures GoodHint(Some("ralph"))
  {
  }

  /** The pieces of a tag lie one behind the other. */
  predicate TagLies(s: string, i: nat, title: string, hint: string, body: string) {
    && Holds(s, i, "[@") && Holds(s, i + 2, title) && Holds(s, i + 2 + |title|, hint)
    && TailLies(s, i + 2 + |title| + |hint|, body)
  }

  predicate TailLies(s: string, c: nat, body: string) {
    Holds(s, c, ":") && Holds(s, c + 1, body) && Holds(s, c + 1 + |body|, "]")
  }

  lemma {:induction false} ColonTailLies(s: string, c: nat, body: string)
    requires Holds(s, c, ColonTail(body))
    ensures TailLies(s, c, body)
  {
    HoldsBoth(s, c, ":", body + "]");
    HoldsBoth(s, c + 1, body, "]");
  }

  lemma {:induction false} HintTailLies(s: string, n: nat, hint: string, body: string)
    requires Holds(s, n, HintTail(hint, body))
    ensures Holds(s, n, hint) && TailLies(s, n + |hint|, body)
  {
    HoldsBoth(s, n, hint, ColonTail(body));
    ColonTailLies(s, n + |hint|, body);
  }

  lemma {:induction false} TagTextLies(s: string, i: nat, title: string, hint: string, body: string)
    requires Holds(s, i, TagText(title, hint, body))
    ensures TagLies(s, i, title, hint, body)
  {
    HoldsBoth(s, i, "[@", title + HintTail(hint, body));
    HoldsBoth(s, i + 2, title, HintTail(hint, body));
    HintTailLies(s, i + 2 + |title|, hint, body);
  }

  lemma {:induction false} TagLength(title: string, hint: string, body: string)
    ensures |TagText(title, hint, body)| == 2 + |title| + |hint| + 2 + |body|
  {
  }

  lemma {:induction false} TitleLies(s: string, i: nat, title: string)
    requires Holds(s, i, "[@") && Holds(s, i + 2, title)
    requires title != "" && IsWord(title[0]) && AllIn(title, IsNameChar)
    ensures s[i] == '[' && s[i + 1] == '@' && IsWord(s[i + 2])
    ensures forall k | i + 2 <= k < i + 2 + |title| :: IsNameChar(s[k])
  {
    CharHeld(s, i, "[@", 0);
    CharHeld(s, i, "[@", 1);
    CharHeld(s, i + 2, title, 0);
    ClassHeld(s, i + 2, title, IsNameChar);
  }

  lemma {:induction false} HintLies(s: string, n: nat, hint: string)
    requires Holds(s, n, hint) && IsHint(hint, 0, |hint|)
    ensures IsHint(s, n, n + |hint|)
  {
    CharHeld(s, n, hint, 0);
    CharHeld(s, n, hint, |hint| - 1);
    forall k | n + 1 <= k < n + |hint| - 1 ensures IsWord(s[k]) {
      CharHeld(s, n, hint, k - n);
    }
  }

  lemma {:induction false} BodyLies(s: string, c: nat, body: string)
    requires TailLies(s, c, body) && AllIn(body, NotClosing)
    ensures s[c] == ':' && s[c + 1 + |body|] == ']'
    ensures forall k | c + 1 <= k < c + 1 + |body| :: NotClosing(s[k])
  {
    CharHeld(s, c, ":", 0);
    CharHeld(s, c + 1 + |body|, "]", 0);
    ClassHeld(s, c + 1, body, NotClosing);
  }

  /** A tag of good parts: name, optional hint in parentheses, and a text without a closing bracket. */
  predicate GoodParts(title: string, hint: string, body: string) {
    && title != "" && IsWord(title[0]) && AllIn(title, IsNameChar)
    && (hint == "" || IsHint(hint, 0, |hint|))
    && body != "" && AllIn(body, NotClosing)
  }

  /** It matches the pattern in full. */
  lemma {:induction false} TagSplits(s: string, i: nat, title: string, hint: string, body: string)
    requires TagLies(s, i, title, hint, body) && GoodParts(title, hint, body)
    ensures var n := i + 2 + |title|;
            var c := n + |hint|;
            Splits(s, i, n, c, c + 1, c + 1 + |body|)
  {
    TitleLies(s, i, title);
    if hint != "" {
      HintLies(s, i + 2 + |title|, hint);
    }
    BodyLies(s, i + 2 + |title| + |hint|, body);
  }

  lemma {:induction false} TagEnds(s: string, i: nat, title: string, hint: string, body: string)
    requires TagLies(s, i, title, hint, body) && GoodParts(title, hint, body)
    ensures NameEnd(s, i) == i + 2 + |title|
    ensures ColonAt(s, i) == i + 2 + |title| + |hint|
    ensures BodyEnd(s, i) == i + 2 + |title| + |hint| + 1 + |body|
    ensures MentionAt(s, i) == Some(i + 2 + |title| + |hint| + 2 + |body|)
  {
    var c := i + 2 + |title| + |hint|;
    TagSplits(s, i, title, hint, body);
    SplitDetermines(s, i, i + 2 + |title|, c, c + 1, c + 1 + |body|);
  }

  /** What a hint in parentheses stands for. */
  function ReadHint(hint: string): Option<string> {
    if hint == "" then None else Some(LowerCase(Slice(hint, 1, |hint| - 1)))
  }

  lemma {:induction false} InnerHeld(s: string, n: nat, hint: string)
    requires Holds(s, n, hint) && |hint| > 2
    ensures Slice(s, n + 1, n + |hint| - 1) == Slice(hint, 1, |hint| - 1)
  {
    var a, b := Slice(s, n + 1, n + |hint| - 1), Slice(hint, 1, |hint| - 1);
    forall k | 0 <= k < |b| ensures a[k] == b[k] {
      CharHeld(s, n, hint, k + 1);
    }
  }

  lemma {:induction false} NameRead(s: string, i: nat, title: string)
    requires Holds(s, i + 2, title) && NameEnd(s, i) == i + 2 + |title|
    ensures Name(s, i) == LowerCase(title)
  {
    SliceHeld(s, i + 2, title);
  }

  lemma {:induction false} HintIs(s: string, i: nat, n: nat, c: nat, inner: string)
    requires NameEnd(s, i) == n && ColonAt(s, i) == c && n + 2 < c && Slice(s, n + 1, c - 1) == inner
    ensures Hint(s, i) == Some(LowerCase(inner))
  {
  }

  lemma {:induction false} HintRead(s: string, i: nat, n: nat, hint: string)
    requires Holds(s, n, hint) && (hint == "" || |hint| > 2)
    requires NameEnd(s, i) == n && ColonAt(s, i) == n + |hint|
    ensures Hint(s, i) == ReadHint(hint)
  {
    if hint != "" {
      InnerHeld(s, n, hint);
      HintIs(s, i, n, n + |hint|, Slice(hint, 1, |hint| - 1));
    }
  }

  lemma {:induction false} TaskIs(s: string, i: nat, c: nat, e: nat, body: string)
    requires ColonAt(s, i) == c && BodyEnd(s, i) == e && Slice(s, c + 1, e) == body
    ensures Task(s, i) == Trim(Captured(body))
  {
  }

  lemma {:induction false} TaskRead(s: string, i: nat, c: nat, body: string)
    requires Holds(s, c + 1, body) && ColonAt(s, i) == c && BodyEnd(s, i) == c + 1 + |body|
    ensures Task(s, i) == Trim(Captured(body))
  {
    SliceHeld(s, c + 1, body);
    TaskIs(s, i, c, c + 1 + |body|, body);
  }

  /** Its parts are read back. */
  lemma {:induction false} TagReads(s: string, i: nat, title: string, hint: string, body: string)
    requires TagLies(s, i, title, hint, body) && GoodParts(title, hint, body)
    ensures MentionOf(s, i) == Interpret(LowerCase(title), ReadHint(hint), Trim(Captured(body)))
  {
    TagEnds(s, i, title, hint, body);
    NameRead(s, i, title);
    HintRead(s, i, i + 2 + |title|, hint);
    TaskRead(s, i, i + 2 + |title| + |hint|, body);
  }

  lemma {:induction false} HintValue(h: Option<string>)
    requires GoodHint(h)
    ensures PrintHint(h) == "" || IsHint(PrintHint(h), 0, |PrintHint(h)|)
    ensures ReadHint(PrintHint(h)) == h
  {
    if h.Some? {
      var p := PrintHint(h);
      assert Slice(p, 1, |p| - 1) == h.value;
      LowerCaseFixed(h.value);
    }
  }

  lemma {:induction false} SpacedTask(task: string)
    requires GoodTask(task)
    ensures Trim(Captured(" " + task)) == task
  {
    CapturedTask(" " + task);
    assert (" " + task)[1..] == task;
    TrimOfTrimmed(task);
  }

  lemma {:induction false} MentionParts(m: Mention, known: set<string>)
    requires WellFormed(m, known)
    ensures GoodParts(Title(m), PrintHint(HintOf(m)), " " + m.task)
  {
    RalphIsGood();
    HintValue(HintOf(m));
  }

  /** The parts of a printed mention stand for the mention. */
  lemma {:induction false} MentionMeant(m: Mention, known: set<string>)
    requires WellFormed(m, known)
    ensures Interpret(LowerCase(Title(m)), ReadHint(PrintHint(HintOf(m))), Trim(Captured(" " + m.task))) == m
  {
    RalphIsGood();
    LowerCaseFixed(Title(m));
    HintValue(HintOf(m));
    SpacedTask(m.task);
    InterpretTitle(m, known);
  }

  lemma {:induction false} TagTextReads(s: string, i: nat, p: string, title: string, hint: string, body: string)
    requires p == TagText(title, hint, body) && Holds(s, i, p) && GoodParts(title, hint, body)
    ensures MentionOf(s, i) == Interpret(LowerCase(title), ReadHint(hint), Trim(Captured(body)))
  {
    TagTextLies(s, i, title, hint, body);
    TagReads(s, i, title, hint, body);
  }

  lemma {:induction false} TagTextEnds(s: string, i: nat, p: string, title: string, hint: string, body: string)
    requires p == TagText(title, hint, body) && Holds(s, i, p) && GoodParts(title, hint, body)
    ensures MentionAt(s, i) == Some(i + |p|)
  {
    TagTextLies(s, i, title, hint, body);
    TagEnds(s, i, title, hint, body);
    TagLength(title, hint, body);
  }

  predicate IsSpot(s: string, r: Range, tag: string) {
    Holds(s, r.start, tag) && r.end == r.start + |tag|
  }

  predicate ReadAs(s: string, r: Range, m: Mention, known: set<string>) {
    && r.start < r.end && MentionAt(s, r.start) == Some(r.end)
    && MentionOf(s, r.start) == m && Accepted(m, known)
  }

  /** A printed mention is one tag that says the same, wherever it stands. */
  lemma {:induction false} MentionReadsBack(s: string, r: Range, m: Mention, p: string, known: set<string>)
    requires p == PrintMention(m) && IsSpot(s, r, p) && WellFormed(m, known)
    ensures ReadAs(s, r, m, known)
  {
    MentionParts(m, known);
    MentionMeant(m, known);
    TagTextReads(s, r.start, p, Title(m), PrintHint(HintOf(m)), " " + m.task);
    TagTextEnds(s, r.start, p, Title(m), PrintHint(HintOf(m)), " " + m.task);
    TagLength(Title(m), PrintHint(HintOf(m)), " " + m.task);
  }

  // --- Reading a printed text ---

  /** The texts and tags lie one behind the other from `i` to the end. */
  predicate Laid(s: string, i: nat, text: string, items: seq<Placed>)
    decreases |items|
  {
    && Holds(s, i, text)
    && if items == [] then i + |text| == |s|
       else
         var p := items[0].tag;
         Holds(s, i + |text|, p) && Laid(s, i + |text| + |p|, items[0].after, items[1..])
  }

  lemma {:induction false} PrintLaid(s: string, i: nat, text: string, items: seq<Placed>)
    requires Holds(s, i, Print(text, items)) && i + |Print(text, items)| == |s|
    ensures Laid(s, i, text, items)
    decreases |items|
  {
    if items != [] {
      var p, after := items[0].tag, Print(items[0].after, items[1..]);
      HoldsBoth(s, i, text, p + after);
      HoldsBoth(s, i + |text|, p, after);
      PrintLaid(s, i + |text| + |p|, items[0].after, items[1..]);
    }
  }

  /** Where the tags of laid-out items lie. */
  function Spots(i: nat, text: string, items: seq<Placed>): seq<Range>
    decreases |items|
  {
    if items == [] then []
    else
      var end := i + |text| + |items[0].tag|;
      [Range(i + |text|, end)] + Spots(end, items[0].after, items[1..])
  }

  lemma {:induction false} SpotsHoldTags(s: string, i: nat, text: string, items: seq<Placed>)
    requires Laid(s, i, text, items)
    ensures |Spots(i, text, items)| == |items|
    ensures forall k | 0 <= k < |items| :: IsSpot(s, Spots(i, text, items)[k], items[k].tag)
    decreases |items|
  {
    if items != [] {
      var end := i + |text| + |items[0].tag|;
      SpotsHoldTags(s, end, items[0].after, items[1..]);
      var rest := Spots(end, items[0].after, items[1..]);
      forall k | 0 <= k < |items| ensures IsSpot(s, Spots(i, text, items)[k], items[k].tag) {
        assert k > 0 ==> IsSpot(s, rest[k - 1], items[1..][k - 1].tag);
      }
    }
  }

  predicate OnlyAtBrackets(at: Pattern, s: string) {
    forall j | 0 <= j < |s| && s[j] != '[' :: !MatchesAt(at, s, j)
  }

  lemma {:induction false} TextSkipped(at: Pattern, s: string, i: nat, text: string)
    requires Holds(s, i, text) && '[' !in text && OnlyAtBrackets(at, s)
    ensures Scan(at, s, i) == Scan(at, s, i + |text|)
  {
    forall k | i <= k < i + |text| ensures !MatchesAt(at, s, k) {
      CharHeld(s, i, text, k - i);
    }
    ScanSkips(at, s, i, i + |text|);
  }

  lemma {:induction false} ScanTakes(at: Pattern, s: string, i: nat, end: nat)
    requires i < end <= |s| && at(s, i) == Some(end)
    ensures Scan(at, s, i) == [Range(i, end)] + Scan(at, s, end)
  {
  }

  predicate AllMatch(at: Pattern, s: string, rs: seq<Range>) {
    forall r | r in rs :: r.start < r.end && at(s, r.start) == Some(r.end)
  }

  lemma {:induction false} FirstMatches(at: Pattern, s: string, r: Range, rs: seq<Range>)
    requires AllMatch(at, s, [r] + rs)
    ensures r.start < r.end && at(s, r.start) == Some(r.end) && AllMatch(at, s, rs)
  {
    assert ([r] + rs)[0] == r;
    forall q | q in rs ensures q in [r] + rs {
    }
  }

  predicate NoBrackets(items: seq<Placed>) {
    forall k | 0 <= k < |items| :: '[' !in items[k].after
  }

  lemma {:induction false} ScanFindsSpots(at: Pattern, s: string, i: nat, text: string, items: seq<Placed>)
    requires Laid(s, i, text, items) && OnlyAtBrackets(at, s)
    requires '[' !in text && NoBrackets(items) && AllMatch(at, s, Spots(i, text, items))
    ensures Scan(at, s, i) == Spots(i, text, items)
    decreases |items|
  {
    if items == [] {
      TextSkipped(at, s, i, text);
    } else {
      var end, after, more := i + |text| + |items[0].tag|, items[0].after, items[1..];
      TextSkipped(at, s, i, text);
      FirstMatches(at, s, Range(i + |text|, end), Spots(end, after, more));
      ScanTakes(at, s, i + |text|, end);
      ScanFindsSpots(at, s, end, after, more);
    }
  }

  lemma {:induction false} ExciseFirst(s: string, i: nat, text: string, end: nat, rs: seq<Range>, left: string)
    requires Slice(s, i, i + |text|) == text && Excise(s, end, rs) == left
    ensures Excise(s, i, [Range(i + |text|, end)] + rs) == text + left
  {
  }

  lemma {:induction false} LastText(s: string, i: nat, text: string)
    requires Holds(s, i, text) && i + |text| == |s|
    ensures Excise(s, i, Spots(i, text, [])) == TextsOf(text, [])
  {
  }

  lemma {:induction false} SpotsLeaveTexts(s: string, i: nat, text: string, items: seq<Placed>)
    requires Laid(s, i, text, items)
    ensures Excise(s, i, Spots(i, text, items)) == TextsOf(text, items)
    decreases |items|
  {
    if items == [] {
      LastText(s, i, text);
    } else {
      var end, after, more := i + |text| + |items[0].tag|, items[0].after, items[1..];
      SliceHeld(s, i, text);
      SpotsLeaveTexts(s, end, after, more);
      ExciseFirst(s, i, text, end, Spots(end, after, more), TextsOf(after, more));
    }
  }

  lemma {:induction false} AllReported(s: string, rs: seq<Range>, code: seq<Range>, known: set<string>)
    requires forall r | r in rs :: Reports(s, r, code, known)
    ensures Reported(s, rs, code, known) == rs
  {
    if rs != [] {
      assert rs[0] in rs;
      AllReported(s, rs[1..], code, known);
    }
  }

  lemma {:induction false} AllReportedNoneUnknown(s: string, rs: seq<Range>, code: seq<Range>, known: set<string>)
    requires forall r | r in rs :: Reports(s, r, code, known)
    ensures Unknowns(s, rs, code, known) == []
  {
    if rs != [] {
      assert rs[0] in rs;
      AllReportedNoneUnknown(s, rs[1..], code, known);
    }
  }

  lemma {:induction false} NoCodeWithoutBackticks(s: string)
    requires '`' !in s
    ensures CodeRanges(s) == []
  {
    ScanSkips(FenceAt, s, 0, |s|);
    ScanSkips(InlineAt, s, 0, |s|);
  }

  lemma {:induction false} HintHasNoBacktick(h: Option<string>)
    requires GoodHint(h)
    ensures '`' !in PrintHint(h)
  {
  }

  lemma {:induction false} TagHasNoBacktick(title: string, hint: string, tail: string)
    requires '`' !in title && '`' !in hint && '`' !in tail
    ensures '`' !in "[@" + (title + (hint + tail))
  {
  }

  lemma {:induction false} MentionHasNoBacktick(m: Mention, known: set<string>)
    requires WellFormed(m, known)
    ensures '`' !in PrintMention(m)
  {
    RalphIsGood();
    HintHasNoBacktick(HintOf(m));
    TagHasNoBacktick(Title(m), PrintHint(HintOf(m)), ColonTail(" " + m.task));
  }

  lemma {:induction false} PrintHasNoBacktick(text: string, items: seq<Placed>)
    requires '`' !in text && forall k | 0 <= k < |items| :: '`' !in items[k].tag && '`' !in items[k].after
    ensures '`' !in Print(text, items)
    decreases |items|
  {
    if items != [] {
      PrintHasNoBacktick(items[0].after, items[1..]);
    }
  }

  /** All spots of a printed text read as the mentions printed there. */
  lemma {:induction false} SpotsRead(s: string, text: string, items: seq<Item>, rs: seq<Range>, known: set<string>)
    requires AllWellFormed(items, known) && Laid(s, 0, text, Written(items))
    requires rs == Spots(0, text, Written(items))
    ensures |rs| == |items|
    ensures forall k | 0 <= k < |rs| :: ReadAs(s, rs[k], items[k].mention, known)
  {
    SpotsHoldTags(s, 0, text, Written(items));
    forall k | 0 <= k < |rs| ensures ReadAs(s, rs[k], items[k].mention, known) {
      assert IsSpot(s, rs[k], Written(items)[k].tag);
      MentionReadsBack(s, rs[k], items[k].mention, PrintMention(items[k].mention), known);
    }
  }

  lemma {:induction false} WrittenHasNoBacktick(text: string, items: seq<Item>, known: set<string>)
    requires PlainText(text) && AllWellFormed(items, known)
    ensures '`' !in Print(text, Written(items))
  {
    forall k | 0 <= k < |items| ensures '`' !in Written(items)[k].tag && '`' !in Written(items)[k].after {
      MentionHasNoBacktick(items[k].mention, known);
    }
    PrintHasNoBacktick(text, Written(items));
  }

  lemma {:induction false} MentionStartsWithBracket(s: string)
    ensures OnlyAtBrackets(MentionAt, s)
  {
  }

  lemma {:induction false} PrintedScan(s: string, text: string, items: seq<Item>, rs: seq<Range>, known: set<string>)
    requires PlainText(text) && AllWellFormed(items, known) && Laid(s, 0, text, Written(items))
    requires rs == Spots(0, text, Written(items))
    ensures Scan(MentionAt, s, 0) == rs
  {
    SpotsRead(s, text, items, rs, known);
    MentionStartsWithBracket(s);
    ScanFindsSpots(MentionAt, s, 0, text, Written(items));
  }

  lemma {:induction false} SpotsReported(s: string, items: seq<Item>, rs: seq<Range>, known: set<string>)
    requires |rs| == |items| && forall k | 0 <= k < |rs| :: ReadAs(s, rs[k], items[k].mention, known)
    ensures forall r | r in rs :: Reports(s, r, [], known)
  {
  }

  lemma {:induction false} SpotsSay(s: string, items: seq<Item>, rs: seq<Range>, known: set<string>)
    requires |rs| == |items| && forall k | 0 <= k < |rs| :: ReadAs(s, rs[k], items[k].mention, known)
    ensures Mentions(s, rs) == MentionsOf(items)
  {
  }

  /** Printing well-formed mentions between plain texts and parsing the result gives back the same
      mentions, no unknown agents, and exactly the texts between the tags. */
  lemma {:induction false} PrintParsesBack(text: string, items: seq<Item>, known: set<string>)
    requires PlainText(text) && AllWellFormed(items, known)
    ensures var s := Print(text, Written(items));
            && Mentions(s, Made(s, known)) == MentionsOf(items)
            && Unknowns(s, Scan(MentionAt, s, 0), CodeRanges(s), known) == []
            && Excise(s, 0, Made(s, known)) == TextsOf(text, Written(items))
  {
    var s := Print(text, Written(items));
    var rs := Spots(0, text, Written(items));
    WrittenHasNoBacktick(text, items, known);
    NoCodeWithoutBackticks(s);
    PrintLaid(s, 0, text, Written(items));
    PrintedScan(s, text, items, rs, known);
    SpotsRead(s, text, items, rs, known);
    SpotsReported(s, items, rs, known);
    AllReported(s, rs, [], known);
    AllReportedNoneUnknown(s, rs, [], known);
    SpotsSay(s, items, rs, known);
    SpotsLeaveTexts(s, 0, text, Written(items));
  }
}
