/** String operations of the JavaScript runtime that several components rely on.
    A `char` is a Unicode scalar value; see README.md for what that leaves out. */
module Text {

  datatype Option<+T> = None | Some(value: T)

  lemma {:induction false} AnyElement<T>(s: set<T>) returns (x: T)
    requires s != {}
    ensures x in s
  {
    x :| x in s;
  }

  // --- White space: the set shared by `\s` and `String.prototype.trim` ---

  predicate IsSpace(c: char) {
    || c in {'\t', '\n', '\r', ' ', '\U{000B}', '\U{000C}', '\U{00A0}', '\U{1680}'}
    || '\U{2000}' <= c <= '\U{200A}'
    || c in {'\U{2028}', '\U{2029}', '\U{202F}', '\U{205F}', '\U{3000}', '\U{FEFF}'}
  }

  predicate AllSpace(s: string) {
    forall i | 0 <= i < |s| :: IsSpace(s[i])
  }

  function TrimStart(s: string): string {
    if s != "" && IsSpace(s[0]) then TrimStart(s[1..]) else s
  }

  function TrimEnd(s: string): string {
    if s != "" && IsSpace(s[|s| - 1]) then TrimEnd(s[..|s| - 1]) else s
  }

  function Trim(s: string): string {
    TrimEnd(TrimStart(s))
  }

  lemma {:induction false} TrimStartFacts(s: string)
    ensures var r := TrimStart(s);
            && |r| <= |s| && r == s[|s| - |r|..] && AllSpace(s[..|s| - |r|])
            && (r != "" ==> !IsSpace(r[0]))
  {
    if s != "" && IsSpace(s[0]) {
      TrimStartFacts(s[1..]);
      var r := TrimStart(s);
      var cut := s[..|s| - |r|];
      assert cut[1..] == s[1..][..|s| - 1 - |r|];
      forall i | 0 <= i < |cut| ensures IsSpace(cut[i]) {
        assert i > 0 ==> cut[i] == cut[1..][i - 1];
      }
    }
  }

  lemma {:induction false} TrimEndFacts(s: string)
    ensures var r := TrimEnd(s);
            && |r| <= |s| && r == s[..|r|] && AllSpace(s[|r|..])
            && (r != "" ==> !IsSpace(r[|r| - 1]))
  {
    if s != "" && IsSpace(s[|s| - 1]) {
      TrimEndFacts(s[..|s| - 1]);
      var r := TrimEnd(s);
      var cut := s[|r|..];
      forall i | 0 <= i < |cut| ensures IsSpace(cut[i]) {
        assert i < |cut| - 1 ==> cut[i] == s[..|s| - 1][|r|..][i];
      }
    }
  }

  lemma {:induction false} TrimBlank(s: string)
    ensures Trim(s) == "" <==> AllSpace(s)
  {
    TrimStartFacts(s);
    var t := TrimStart(s);
    TrimEndFacts(t);
    if t != "" {
      assert t[0] == s[|s| - |t|];
    } else {
      assert s == s[..|s|];
    }
  }

  lemma {:induction false} TrimWithout(s: string, c: char)
    requires c !in s
    ensures c !in Trim(s)
  {
    TrimStartFacts(s);
    TrimEndFacts(TrimStart(s));
  }

  predicate Trimmed(s: string) {
    s != "" ==> !IsSpace(s[0]) && !IsSpace(s[|s| - 1])
  }

  lemma {:induction false} TrimOfTrimmed(s: string)
    requires Trimmed(s)
    ensures Trim(s) == s
  {
  }

  /** The decimal digits of a number. */
  function Decimal(n: nat): string {
    if n < 10 then ["0123456789"[n]] else Decimal(n / 10) + ["0123456789"[n % 10]]
  }

  function Lower(c: char): char {
    if 'A' <= c <= 'Z' then c - 'A' + 'a' else c
  }

  /** `toLowerCase` of the ASCII letters */
  function LowerCase(s: string): string {
    if s == "" then "" else [Lower(s[0])] + LowerCase(s[1..])
  }

  predicate NoCapitals(s: string) {
    forall i | 0 <= i < |s| :: Lower(s[i]) == s[i]
  }

  lemma {:induction false} LowerCaseFixed(s: string)
    requires NoCapitals(s)
    ensures LowerCase(s) == s
  {
    if s != "" {
      LowerCaseFixed(s[1..]);
    }
  }

  // --- Concatenation, splitting and joining ---

  function Concat(parts: seq<string>): string {
    if parts == [] then "" else parts[0] + Concat(parts[1..])
  }

  lemma {:induction false} ConcatAppend(a: seq<string>, b: seq<string>)
    ensures Concat(a + b) == Concat(a) + Concat(b)
  {
    if a == [] {
      assert a + b == b;
    } else {
      ConcatAppend(a[1..], b);
      assert (a + b)[1..] == a[1..] + b && (a + b)[0] == a[0];
      assert a[0] + (Concat(a[1..]) + Concat(b)) == Concat(a) + Concat(b);
    }
  }

  lemma {:induction false} ConcatSnoc(a: seq<string>, x: string)
    ensures Concat(a + [x]) == Concat(a) + x
  {
    ConcatAppend(a, [x]);
    assert Concat([x]) == x;
  }

  lemma {:induction false} ConcatOneMore(parts: seq<string>, i: nat)
    requires i < |parts|
    ensures Concat(parts[..i + 1]) == Concat(parts[..i]) + parts[i]
  {
    ConcatSnoc(parts[..i], parts[i]);
    assert parts[..i] + [parts[i]] == parts[..i + 1];
  }

  function Join(parts: seq<string>, glue: string): string {
    if |parts| == 0 then ""
    else if |parts| == 1 then parts[0]
    else parts[0] + glue + Join(parts[1..], glue)
  }

  /** `s.split(sep)` for a one-character separator. */
  function Split(s: string, sep: char): (parts: seq<string>)
    ensures parts != []
  {
    if s == "" then
      [""]
    else if s[0] == sep then
      [""] + Split(s[1..], sep)
    else
      Grow(s[0], Split(s[1..], sep))
  }

  /** Puts one more character in front of the first part. */
  function Grow(c: char, parts: seq<string>): seq<string>
    requires parts != []
  {
    [[c] + parts[0]] + parts[1..]
  }

  predicate Without(parts: seq<string>, sep: char) {
    forall i | 0 <= i < |parts| :: sep !in parts[i]
  }

  lemma {:induction false} SplitFacts(s: string, sep: char)
    ensures Without(Split(s, sep), sep)
    ensures Join(Split(s, sep), [sep]) == s
  {
    if s != "" {
      var q := Split(s[1..], sep);
      SplitFacts(s[1..], sep);
      if s[0] == sep {
        assert ([""] + q)[1..] == q;
      } else {
        assert Grow(s[0], q)[1..] == q[1..];
      }
    }
  }

  function Init(parts: seq<string>): seq<string>
    requires parts != []
  {
    parts[..|parts| - 1]
  }

  function Last(parts: seq<string>): string
    requires parts != []
  {
    parts[|parts| - 1]
  }

  lemma {:induction false} SplitCons(c: char, s: string, sep: char)
    ensures Split([c] + s, sep) == if c == sep then [""] + Split(s, sep) else Grow(c, Split(s, sep))
  {
  }

  /** The three ways one more leading character combines with a split prefix. */
  lemma {:induction false} ExtendSplit(c: char, q: seq<string>, r: seq<string>)
    requires q != [] && r != []
    ensures Last([""] + q) == Last(q) && Init([""] + q) + r == [""] + (Init(q) + r)
    ensures |q| > 1 ==> Last(Grow(c, q)) == Last(q) && Init(Grow(c, q)) + r == Grow(c, Init(q) + r)
    ensures |q| == 1 ==> Init(q) + r == r && Init(Grow(c, q)) == [] && Last(Grow(c, q)) == [c] + Last(q)
  {
  }

  lemma {:induction false} HeadAndTail(a: string, b: string)
    requires a != ""
    ensures a == [a[0]] + a[1..] && a + b == [a[0]] + (a[1..] + b)
  {
  }

  lemma {:induction false} SplitAppend(a: string, b: string, sep: char)
    ensures Split(a + b, sep) == Init(Split(a, sep)) + Split(Last(Split(a, sep)) + b, sep)
  {
    if a == "" {
      assert a + b == b;
    } else {
      HeadAndTail(a, b);
      SplitAppend(a[1..], b, sep);
      SplitAppendStep(a[0], a[1..], b, sep, a, a + b);
    }
  }

  lemma {:induction false} SplitAppendStep(c: char, rest: string, b: string, sep: char, a: string, whole: string)
    requires a == [c] + rest && whole == [c] + (rest + b)
    requires Split(rest + b, sep) == Init(Split(rest, sep)) + Split(Last(Split(rest, sep)) + b, sep)
    ensures Split(whole, sep) == Init(Split(a, sep)) + Split(Last(Split(a, sep)) + b, sep)
  {
    SplitCons(c, rest + b, sep);
    SplitCons(c, rest, sep);
    ExtendedSplit(c, Split(rest, sep), b, sep);
  }

  lemma {:induction false} ExtendedSplit(c: char, q: seq<string>, b: string, sep: char)
    requires q != []
    ensures var grown := if c == sep then [""] + q else Grow(c, q);
            var whole := Init(q) + Split(Last(q) + b, sep);
            Init(grown) + Split(Last(grown) + b, sep) == if c == sep then [""] + whole else Grow(c, whole)
  {
    var r := Split(Last(q) + b, sep);
    ExtendSplit(c, q, r);
    if c != sep && |q| == 1 {
      GrowLast(c, Last(q), b, sep);
      assert [] + Grow(c, r) == Grow(c, r);
    }
  }

  lemma {:induction false} GrowLast(c: char, last: string, b: string, sep: char)
    requires c != sep
    ensures Split(([c] + last) + b, sep) == Grow(c, Split(last + b, sep))
  {
    assert ([c] + last) + b == [c] + (last + b);
    SplitCons(c, last + b, sep);
  }

  lemma {:induction false} SplitJoin(parts: seq<string>, sep: char)
    requires parts != [] && Without(parts, sep)
    ensures Split(Join(parts, [sep]), sep) == parts
  {
    if |parts| == 1 {
      SplitAtom(parts[0], sep);
    } else {
      var tail := Join(parts[1..], [sep]);
      SplitJoin(parts[1..], sep);
      assert Join(parts, [sep]) == parts[0] + ([sep] + tail);
      SplitAtSep(parts[0], tail, sep);
    }
  }

  lemma {:induction false} SplitAtom(s: string, sep: char)
    requires sep !in s
    ensures Split(s, sep) == [s]
  {
    if s != "" {
      SplitAtom(s[1..], sep);
      assert [s[0]] + s[1..] == s;
    }
  }

  lemma {:induction false} SplitAtSep(s: string, tail: string, sep: char)
    requires sep !in s
    ensures Split(s + ([sep] + tail), sep) == [s] + Split(tail, sep)
  {
    if s == "" {
      assert s + ([sep] + tail) == [sep] + tail;
      SplitCons(sep, tail, sep);
    } else {
      SplitAtSep(s[1..], tail, sep);
      assert s + ([sep] + tail) == [s[0]] + (s[1..] + ([sep] + tail));
      SplitCons(s[0], s[1..] + ([sep] + tail), sep);
      GrowOne(s, Split(tail, sep));
    }
  }

  lemma {:induction false} GrowOne(s: string, parts: seq<string>)
    requires s != ""
    ensures Grow(s[0], [s[1..]] + parts) == [s] + parts
  {
    assert [s[0]] + s[1..] == s;
    assert ([s[1..]] + parts)[1..] == parts;
  }

  lemma {:induction false} JoinSnoc(parts: seq<string>, x: string, glue: string)
    ensures Join(parts + [x], glue) == if parts == [] then x else Join(parts, glue) + glue + x
  {
    if |parts| > 1 {
      JoinSnoc(parts[1..], x, glue);
      assert (parts + [x])[1..] == parts[1..] + [x];
      assert parts[0] + glue + (Join(parts[1..], glue) + glue + x) == Join(parts, glue) + glue + x;
    } else if |parts| == 1 {
      assert (parts + [x])[1..] == [x];
    }
  }

  /** `[...new Set(names)]` */
  function Unique(names: seq<string>): seq<string> {
    if names == [] then []
    else
      var u, last := Unique(names[..|names| - 1]), names[|names| - 1];
      if last in u then u else u + [last]
  }

  lemma {:induction false} UniqueFacts(names: seq<string>)
    ensures forall i, j | 0 <= i < j < |Unique(names)| :: Unique(names)[i] != Unique(names)[j]
    ensures forall x :: x in Unique(names) <==> x in names
  {
    if names != [] {
      UniqueFacts(names[..|names| - 1]);
      assert names == names[..|names| - 1] + [names[|names| - 1]];
    }
  }

  // --- Incremental line reading ---

  /** Folds `step` over the lines in order; `step` also gets the position of the line. */
  function FoldLines<S>(step: (S, string, nat) -> S, start: S, lines: seq<string>): S {
    if lines == [] then start else step(FoldLines(step, start, Init(lines)), Last(lines), |lines| - 1)
  }

  lemma {:induction false} FoldSnoc<S>(step: (S, string, nat) -> S, start: S, before: seq<string>, line: string)
    ensures FoldLines(step, start, before + [line]) == step(FoldLines(step, start, before), line, |before|)
  {
  }

  lemma {:induction false} FoldOneMore<S>(step: (S, string, nat) -> S, start: S, earlier: seq<string>,
      parts: seq<string>, j: nat)
    requires j < |parts|
    ensures FoldLines(step, start, earlier + parts[..j + 1]) ==
            step(FoldLines(step, start, earlier + parts[..j]), parts[j], |earlier| + j)
  {
    FoldSnoc(step, start, earlier + parts[..j], parts[j]);
    assert earlier + parts[..j + 1] == earlier + parts[..j] + [parts[j]];
  }

  /** The newline-terminated lines of a text. */
  function Lines(text: string): seq<string> {
    Init(Split(text, '\n'))
  }

  /** What follows the last newline. */
  function Rest(text: string): string {
    Last(Split(text, '\n'))
  }

  /** Reading one more chunk: splitting the carried-over rest and the chunk yields
      exactly the lines and the rest of the longer text. */
  lemma {:induction false} FeedChunk(text: string, chunk: string)
    ensures Lines(text + chunk) == Lines(text) + Lines(Rest(text) + chunk)
    ensures Rest(text + chunk) == Rest(Rest(text) + chunk)
  {
    SplitAppend(text, chunk, '\n');
    var q := Split(Rest(text) + chunk, '\n');
    assert Init(Lines(text) + q) == Lines(text) + Init(q);
  }

  lemma {:induction false} SplitIsLinesAndRest(text: string)
    ensures Split(text, '\n') == Lines(text) + [Rest(text)]
  {
  }
}
