/** `escapeForAppleScript` of `src/channels/imessage-send.ts`: a text is printed as an AppleScript
    expression of string literals and `(ASCII character N)` terms joined by `&`. */
module AppleScript {
  import opened Text

  // --- Printing ---

  /** The character class `SAFE`. */
  predicate IsSafe(c: char) {
    || 'a' <= c <= 'z' || 'A' <= c <= 'Z' || '0' <= c <= '9'
    || c in {' ', '.', ',', '!', '?', ';', ':', '\'', '-', '_', '=', '+', '@', '#', '$', '%', '^', '&', '*', '(', ')',
             '[', ']', '{', '}', '<', '>', '/', '|', '~', '`'}
  }

  /** May stand in a literal: safe, or not ASCII. */
  predicate IsPlain(c: char) {
    IsSafe(c) || c as int > 127
  }

  /** A term of the expression. */
  datatype Term = Literal(text: string) | Code(n: nat)

  function ShowTerm(t: Term): string {
    match t
    case Literal(text) => "\"" + text + "\""
    case Code(n) => "(ASCII character " + Decimal(n) + ")"
  }

  function ShowTerms(terms: seq<Term>): seq<string> {
    seq(|terms|, k requires 0 <= k < |terms| => ShowTerm(terms[k]))
  }

  function Show(terms: seq<Term>): string {
    if terms == [] then "\"\"" else Join(ShowTerms(terms), " & ")
  }

  function TermValue(t: Term): string {
    match t
    case Literal(text) => text
    case Code(n) => if n < 128 then [n as char] else ""
  }

  function Value(terms: seq<Term>): string {
    if terms == [] then "" else TermValue(terms[0]) + Value(terms[1..])
  }

  predicate IsCanonicalTerm(t: Term) {
    match t
    case Literal(text) => text != "" && forall i | 0 <= i < |text| :: IsPlain(text[i])
    case Code(n) => n < 128 && !IsPlain(n as char)
  }

  /** Literals hold plain characters only and are as long as possible; codes stand for the others. */
  predicate Canonical(terms: seq<Term>) {
    && (forall k | 0 <= k < |terms| :: IsCanonicalTerm(terms[k]))
    && (forall k | 0 < k < |terms| :: !(terms[k - 1].Literal? && terms[k].Literal?))
  }

  lemma {:induction false} ShowTermsSnoc(terms: seq<Term>, t: Term)
    ensures ShowTerms(terms + [t]) == ShowTerms(terms) + [ShowTerm(t)]
  {
  }

  lemma {:induction false} ValueSnoc(terms: seq<Term>, t: Term)
    ensures Value(terms + [t]) == Value(terms) + TermValue(t)
  {
    if terms == [] {
      assert [t][1..] == [];
      assert TermValue(t) + "" == TermValue(t) == "" + TermValue(t);
    } else {
      ValueSnoc(terms[1..], t);
      assert (terms + [t])[1..] == terms[1..] + [t];
      assert TermValue(terms[0]) + (Value(terms[1..]) + TermValue(t)) == Value(terms) + TermValue(t);
    }
  }

  predicate EndsInCode(terms: seq<Term>) {
    terms == [] || terms[|terms| - 1].Code?
  }

  predicate AllPlain(s: string) {
    forall i | 0 <= i < |s| :: IsPlain(s[i])
  }

  /** The terms once the pending literal, if there is one, has been ended. */
  function Ended(terms: seq<Term>, current: string): seq<Term> {
    if current == "" then terms else terms + [Literal(current)]
  }

  lemma {:induction false} EndedFacts(terms: seq<Term>, current: string)
    requires Canonical(terms) && EndsInCode(terms) && AllPlain(current)
    ensures Canonical(Ended(terms, current)) && Value(Ended(terms, current)) == Value(terms) + current
  {
    if current != "" {
      ValueSnoc(terms, Literal(current));
    }
  }

  lemma {:induction false} CodeFacts(terms: seq<Term>, code: nat)
    requires Canonical(terms) && code < 128 && !IsPlain(code as char)
    ensures Canonical(terms + [Code(code)]) && EndsInCode(terms + [Code(code)])
    ensures Value(terms + [Code(code)]) == Value(terms) + [code as char]
  {
    ValueSnoc(terms, Code(code));
  }

  method Flush(parts: seq<string>, current: string, ghost terms: seq<Term>) returns (flushed: seq<string>)
    requires parts == ShowTerms(terms)
    ensures flushed == ShowTerms(Ended(terms, current))
  {
    flushed := parts;
    if current != "" {
      flushed := parts + ["\"" + current + "\""];
      ShowTermsSnoc(terms, Literal(current));
    }
  }

  method FlushThenCode(parts: seq<string>, current: string, code: nat,
      ghost terms: seq<Term>) returns (flushed: seq<string>)
    requires parts == ShowTerms(terms)
    ensures flushed == ShowTerms(Ended(terms, current) + [Code(code)])
  {
    flushed := Flush(parts, current, terms);
    ShowTermsSnoc(Ended(terms, current), Code(code));
    flushed := flushed + ["(ASCII character " + Decimal(code) + ")"];
  }

  /** What one more character does to the finished terms and to the pending literal. */
  function NextTerms(terms: seq<Term>, current: string, ch: char): seq<Term> {
    if IsPlain(ch) then terms else Ended(terms, current) + [Code(ch as int)]
  }

  function NextCurrent(current: string, ch: char): string {
    if IsPlain(ch) then current + [ch] else ""
  }

  /** The terms and the pending literal stand for the text read so far. */
  predicate Covers(terms: seq<Term>, current: string, text: string) {
    Canonical(terms) && EndsInCode(terms) && AllPlain(current) && Value(terms) + current == text
  }

  lemma {:induction false} NextCovers(terms: seq<Term>, current: string, text: string, i: nat)
    requires i < |text| && Covers(terms, current, text[..i])
    ensures Covers(NextTerms(terms, current, text[i]), NextCurrent(current, text[i]), text[..i + 1])
  {
    var ch := text[i];
    assert text[..i] + [ch] == text[..i + 1];
    if IsPlain(ch) {
      assert Value(terms) + (current + [ch]) == text[..i] + [ch];
    } else {
      EndedFacts(terms, current);
      CodeFacts(Ended(terms, current), ch as int);
      assert text[..i + 1] + "" == text[..i + 1];
    }
  }

  lemma {:induction false} EndedCovers(terms: seq<Term>, current: string, text: string)
    requires Covers(terms, current, text[..|text|])
    ensures Canonical(Ended(terms, current)) && Value(Ended(terms, current)) == text
  {
    EndedFacts(terms, current);
    assert text[..|text|] == text;
  }

  /** The body of the loop: of its seven branches, two add to the literal and five end it. */
  method TakeChar(parts: seq<string>, current: string, ch: char, ghost terms: seq<Term>)
    returns (taken: seq<string>, pending: string)
    requires parts == ShowTerms(terms)
    ensures taken == ShowTerms(NextTerms(terms, current, ch)) && pending == NextCurrent(current, ch)
  {
    taken, pending := parts, "";
    if ch == '"' || ch == '\\' {
      taken := FlushThenCode(parts, current, ch as int, terms);
    } else if ch == '\n' {
      taken := FlushThenCode(parts, current, 10, terms);
    } else if ch == '\r' {
      taken := FlushThenCode(parts, current, 13, terms);
    } else if ch == '\t' {
      taken := FlushThenCode(parts, current, 9, terms);
    } else if IsSafe(ch) {
      pending := current + [ch];
    } else if ch as int <= 127 {
      taken := FlushThenCode(parts, current, ch as int, terms);
    } else {
      pending := current + [ch];
    }
  }

  /** The loop over the characters and the last flush. */
  method CollectParts(text: string) returns (parts: seq<string>, ghost terms: seq<Term>)
    ensures parts == ShowTerms(terms) && Canonical(terms) && Value(terms) == text
  {
    var current := "";
    parts, terms := [], [];
    for i := 0 to |text|
      invariant parts == ShowTerms(terms)
      invariant Covers(terms, current, text[..i])
    {
      NextCovers(terms, current, text, i);
      ghost var more := NextTerms(terms, current, text[i]);
      parts, current := TakeChar(parts, current, text[i], terms);
      terms := more;
    }
    parts := Flush(parts, current, terms);
    EndedCovers(terms, current, text);
    terms := Ended(terms, current);
  }

  /** Prints the one canonical expression whose value is the text. */
  method EscapeForAppleScript(text: string) returns (out: string, ghost terms: seq<Term>)
    ensures out == Show(terms) && Canonical(terms) && Value(terms) == text
    ensures Evaluate(out) == Some(text)
  {
    var parts;
    parts, terms := CollectParts(text);
    out := if |parts| == 0 then "\"\"" else Join(parts, " & ");
    ShowEvaluates(terms);
  }

  // --- Evaluating ---

  /** A reading of a prefix: what it means and what follows it. */
  datatype Reading = Reading(value: string, rest: string)

  /** The rest of a string literal after its opening quote. A backslash would begin an escape
      sequence; no such literal is read. */
  function ReadLiteral(e: string): Option<Reading> {
    if e == "" || e[0] == '\\' then None
    else if e[0] == '"' then Some(Reading("", e[1..]))
    else
      var r := ReadLiteral(e[1..]);
      if r.Some? then Some(Reading([e[0]] + r.value.value, r.value.rest)) else None
  }

  predicate IsDigit(c: char) { '0' <= c <= '9' }

  /** Decimal digits up to a closing parenthesis, added to the number read so far. */
  function ReadNumber(e: string, sofar: nat): Option<Reading> {
    if e == "" then None
    else if e[0] == ')' then if sofar < 128 then Some(Reading([sofar as char], e[1..])) else None
    else if IsDigit(e[0]) then ReadNumber(e[1..], sofar * 10 + (e[0] as int - '0' as int))
    else None
  }

  predicate StartsWithCode(e: string) {
    |e| > 17 && e[..17] == "(ASCII character " && IsDigit(e[17])
  }

  function ReadTerm(e: string): Option<Reading> {
    if e != "" && e[0] == '"' then ReadLiteral(e[1..])
    else if StartsWithCode(e) then ReadNumber(e[17..], 0)
    else None
  }

  predicate StartsWithAmpersand(e: string) {
    |e| >= 3 && e[0] == ' ' && e[1] == '&' && e[2] == ' '
  }

  /** The value of terms joined by `&`. */
  function Evaluate(e: string): Option<string>
    decreases |e|
  {
    var r := ReadTerm(e);
    if r.None? || |r.value.rest| >= |e| then None
    else if r.value.rest == "" then Some(r.value.value)
    else if StartsWithAmpersand(r.value.rest) then
      var tail := Evaluate(r.value.rest[3..]);
      if tail.Some? then Some(r.value.value + tail.value) else None
    else None
  }

  lemma {:induction false} LiteralBack(body: string, rest: string)
    requires AllPlain(body)
    ensures ReadLiteral(body + ("\"" + rest)) == Some(Reading(body, rest))
  {
    if body == "" {
      assert body + ("\"" + rest) == "\"" + rest;
      assert ("\"" + rest)[1..] == rest;
    } else {
      LiteralBack(body[1..], rest);
      var e := body + ("\"" + rest);
      assert e[1..] == body[1..] + ("\"" + rest) && e[0] == body[0];
      assert [body[0]] + body[1..] == body;
    }
  }

  lemma {:induction false} DigitBack(d: nat, tail: string, sofar: nat)
    requires d < 10
    ensures ReadNumber(["0123456789"[d]] + tail, sofar) == ReadNumber(tail, sofar * 10 + d)
  {
  }

  lemma {:induction false} NumberBack(n: nat, tail: string)
    ensures ReadNumber(Decimal(n) + tail, 0) == ReadNumber(tail, n)
  {
    if n < 10 {
      DigitBack(n, tail, 0);
    } else {
      var d := ["0123456789"[n % 10]];
      NumberBack(n / 10, d + tail);
      DigitBack(n % 10, tail, n / 10);
      assert Decimal(n) + tail == Decimal(n / 10) + (d + tail);
    }
  }

  lemma {:induction false} DecimalStartsWithDigit(n: nat)
    ensures Decimal(n) != "" && IsDigit(Decimal(n)[0])
  {
    if n < 10 {
      assert "0123456789"[n] as int == '0' as int + n;
    } else {
      DecimalStartsWithDigit(n / 10);
    }
  }

  lemma {:induction false} CutAt(prefix: string, digits: string, tail: string)
    requires digits != ""
    ensures var e := prefix + (digits + tail);
            |e| > |prefix| && e[..|prefix|] == prefix && e[|prefix|] == digits[0] && e[|prefix|..] == digits + tail
  {
  }

  lemma {:induction false} CodeBack(n: nat, rest: string)
    requires n < 128
    ensures ReadTerm(ShowTerm(Code(n)) + rest) == Some(Reading([n as char], rest))
  {
    DecimalStartsWithDigit(n);
    CutAt("(ASCII character ", Decimal(n), ")" + rest);
    assert ShowTerm(Code(n)) + rest == "(ASCII character " + (Decimal(n) + (")" + rest));
    NumberBack(n, ")" + rest);
    assert (")" + rest)[1..] == rest;
  }

  lemma {:induction false} TermBack(t: Term, rest: string)
    requires IsCanonicalTerm(t)
    ensures ReadTerm(ShowTerm(t) + rest) == Some(Reading(TermValue(t), rest))
  {
    match t
    case Literal(text) =>
      var e := ShowTerm(t) + rest;
      assert e[1..] == text + ("\"" + rest);
      LiteralBack(text, rest);
    case Code(n) =>
      CodeBack(n, rest);
  }

  lemma {:induction false} LastTerm(t: Term)
    requires IsCanonicalTerm(t)
    ensures Evaluate(ShowTerm(t)) == Some(TermValue(t))
  {
    TermBack(t, "");
    assert ShowTerm(t) + "" == ShowTerm(t);
  }

  lemma {:induction false} OneMoreTerm(t: Term, tail: string, value: string)
    requires IsCanonicalTerm(t) && Evaluate(tail) == Some(value)
    ensures Evaluate(ShowTerm(t) + (" & " + tail)) == Some(TermValue(t) + value)
  {
    TermBack(t, " & " + tail);
    assert (" & " + tail)[3..] == tail;
  }

  lemma {:induction false} JoinedEvaluates(terms: seq<Term>)
    requires terms != [] && forall k | 0 <= k < |terms| :: IsCanonicalTerm(terms[k])
    ensures Evaluate(Join(ShowTerms(terms), " & ")) == Some(Value(terms))
  {
    var first := ShowTerm(terms[0]);
    if |terms| == 1 {
      LastTerm(terms[0]);
      assert ShowTerms(terms) == [first];
      assert Value(terms) == TermValue(terms[0]) + Value([]) == TermValue(terms[0]);
    } else {
      JoinedEvaluates(terms[1..]);
      JoinFirst(terms);
      OneMoreTerm(terms[0], Join(ShowTerms(terms[1..]), " & "), Value(terms[1..]));
    }
  }

  lemma {:induction false} JoinFirst(terms: seq<Term>)
    requires |terms| > 1
    ensures Join(ShowTerms(terms), " & ") == ShowTerm(terms[0]) + (" & " + Join(ShowTerms(terms[1..]), " & "))
  {
    assert ShowTerms(terms)[1..] == ShowTerms(terms[1..]);
  }

  /** Every canonical expression evaluates to the text it stands for. */
  lemma {:induction false} ShowEvaluates(terms: seq<Term>)
    requires Canonical(terms)
    ensures Evaluate(Show(terms)) == Some(Value(terms))
  {
    if terms == [] {
      LiteralBack("", "");
      assert Show(terms)[1..] == "" + ("\"" + "");
    } else {
      JoinedEvaluates(terms);
    }
  }

  // --- Uniqueness ---

  lemma {:induction false} FirstChar(terms: seq<Term>)
    requires Canonical(terms) && terms != []
    ensures Value(terms) != "" && (terms[0].Code? <==> !IsPlain(Value(terms)[0]))
  {
  }

  lemma {:induction false} TailCanonical(terms: seq<Term>)
    requires Canonical(terms) && terms != []
    ensures Canonical(terms[1..]) && Value(terms) == TermValue(terms[0]) + Value(terms[1..])
    ensures |terms| > 1 && terms[0].Literal? ==> terms[1].Code?
  {
  }

  /** A literal at the front is the longest plain run of the text. */
  lemma {:induction false} LiteralEnds(terms: seq<Term>)
    requires Canonical(terms) && terms != [] && terms[0].Literal?
    ensures var run, v := terms[0].text, Value(terms);
            |run| <= |v| && (|run| < |v| ==> !IsPlain(v[|run|]))
  {
  }

  lemma {:induction false} FirstLiterals(a: seq<Term>, b: seq<Term>)
    requires Canonical(a) && Canonical(b) && a != [] && b != [] && a[0].Literal? && b[0].Literal?
    requires Value(a) == Value(b)
    ensures |a[0].text| <= |b[0].text|
  {
    LiteralEnds(b);
    TailCanonical(a);
    assert IsCanonicalTerm(a[0]);
  }

  /** A text has one canonical expression. */
  lemma {:induction false} CanonicalUnique(a: seq<Term>, b: seq<Term>)
    requires Canonical(a) && Canonical(b) && Value(a) == Value(b)
    ensures a == b
  {
    if a == [] || b == [] {
      if a != [] { FirstChar(a); }
      if b != [] { FirstChar(b); }
    } else {
      FirstChar(a);
      FirstChar(b);
      if a[0].Literal? {
        FirstLiterals(a, b);
        FirstLiterals(b, a);
      }
      TailCanonical(a);
      TailCanonical(b);
      SameHead(a, b);
      CanonicalUnique(a[1..], b[1..]);
      assert a == [a[0]] + a[1..] && b == [b[0]] + b[1..];
    }
  }

  lemma {:induction false} SameHead(a: seq<Term>, b: seq<Term>)
    requires a != [] && b != [] && IsCanonicalTerm(a[0]) && IsCanonicalTerm(b[0])
    requires TermValue(a[0]) + Value(a[1..]) == TermValue(b[0]) + Value(b[1..])
    requires a[0].Literal? == b[0].Literal? && |TermValue(a[0])| == |TermValue(b[0])|
    ensures a[0] == b[0] && Value(a[1..]) == Value(b[1..])
  {
    var x, y := TermValue(a[0]), TermValue(b[0]);
    assert x == (x + Value(a[1..]))[..|x|] && y == (y + Value(b[1..]))[..|y|];
    assert Value(a[1..]) == (x + Value(a[1..]))[|x|..] && Value(b[1..]) == (y + Value(b[1..]))[|y|..];
    if a[0].Code? {
      assert x[0] == y[0];
    }
  }
}
