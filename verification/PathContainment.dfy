/** The lexical path checks of `src/agents/tools.ts`: which paths a tool may touch. POSIX paths; the
    file system is a partial function that resolves symbolic links. */
module PathContainment {
  import opened Text

  // --- Normalised absolute paths ---

  /** The segments below the root. */
  type Path = seq<string>

  predicate IsName(segment: string) {
    segment != "" && segment != "." && segment != ".." && '/' !in segment
  }

  predicate Normal(p: Path) {
    forall i | 0 <= i < |p| :: IsName(p[i])
  }

  function Show(p: Path): string {
    "/" + Join(p, "/")
  }

  function Step(p: Path, part: string): Path {
    if part == "" || part == "." then p
    else if part == ".." then if p == [] then p else p[..|p| - 1]
    else p + [part]
  }

  function Walk(p: Path, parts: seq<string>): Path
    decreases |parts|
  {
    if parts == [] then p else Walk(Step(p, parts[0]), parts[1..])
  }

  predicate IsAbsolute(text: string) {
    text != "" && text[0] == '/'
  }

  /** `resolve(from, text)` */
  function Resolve(from: Path, text: string): Path {
    Walk(if IsAbsolute(text) then [] else from, Split(text, '/'))
  }

  function CommonLength(a: Path, b: Path): nat {
    if a != [] && b != [] && a[0] == b[0] then 1 + CommonLength(a[1..], b[1..]) else 0
  }

  function Ups(n: nat): seq<string> {
    if n == 0 then [] else [".."] + Ups(n - 1)
  }

  function RelativeParts(from: Path, to: Path): seq<string> {
    var k := CommonLength(from, to);
    if k <= |from| && k <= |to| then Ups(|from| - k) + to[k..] else []
  }

  /** `relative(from, to)` */
  function Relative(from: Path, to: Path): string {
    Join(RelativeParts(from, to), "/")
  }

  lemma {:induction false} CommonFacts(a: Path, b: Path)
    ensures var k := CommonLength(a, b);
            && k <= |a| && k <= |b| && a[..k] == b[..k]
            && (k == |a| <==> a <= b)
  {
    if a != [] && b != [] && a[0] == b[0] {
      CommonFacts(a[1..], b[1..]);
      var k := CommonLength(a[1..], b[1..]);
      assert a[..k + 1] == [a[0]] + a[1..][..k] && b[..k + 1] == [b[0]] + b[1..][..k];
      assert a <= b <==> a[1..] <= b[1..] by {
        if a[1..] <= b[1..] {
          assert a == [a[0]] + a[1..] && b[..|a|] == [b[0]] + b[1..][..|a| - 1];
        }
        if a <= b {
          assert b[1..][..|a| - 1] == b[..|a|][1..];
        }
      }
    }
  }

  lemma {:induction false} WalkAppend(p: Path, a: seq<string>, b: seq<string>)
    ensures Walk(p, a + b) == Walk(Walk(p, a), b)
    decreases |a|
  {
    if a == [] {
      assert a + b == b;
    } else {
      WalkAppend(Step(p, a[0]), a[1..], b);
      assert (a + b)[1..] == a[1..] + b;
    }
  }

  lemma {:induction false} WalkNames(p: Path, names: seq<string>)
    requires Normal(names)
    ensures Walk(p, names) == p + names
    decreases |names|
  {
    if names != [] {
      assert IsName(names[0]);
      WalkNames(p + [names[0]], names[1..]);
      assert p + [names[0]] + names[1..] == p + names;
    }
  }

  lemma {:induction false} WalkUp(p: Path, n: nat)
    requires n <= |p|
    ensures Walk(p, Ups(n)) == p[..|p| - n]
    decreases n
  {
    if n == 0 {
      assert p[..|p|] == p;
    } else {
      WalkUp(p[..|p| - 1], n - 1);
      assert p[..|p| - 1][..|p| - n] == p[..|p| - n];
    }
  }

  lemma {:induction false} StepNormal(p: Path, part: string)
    requires Normal(p) && '/' !in part
    ensures Normal(Step(p, part))
  {
  }

  lemma {:induction false} WalkNormal(p: Path, parts: seq<string>)
    requires Normal(p) && Without(parts, '/')
    ensures Normal(Walk(p, parts))
    decreases |parts|
  {
    if parts != [] {
      StepNormal(p, parts[0]);
      WalkNormal(Step(p, parts[0]), parts[1..]);
    }
  }

  /** Resolving any text gives a normalised path: no empty, `.` or `..` segment is left. */
  lemma {:induction false} ResolveNormal(from: Path, text: string)
    requires Normal(from)
    ensures Normal(Resolve(from, text))
  {
    SplitFacts(text, '/');
    WalkNormal(if IsAbsolute(text) then [] else from, Split(text, '/'));
  }

  lemma {:induction false} UpsWithout(n: nat)
    ensures |Ups(n)| == n && forall i | 0 <= i < n :: Ups(n)[i] == ".."
  {
    if n > 0 {
      UpsWithout(n - 1);
    }
  }

  lemma {:induction false} PartsFacts(from: Path, to: Path)
    requires Normal(to)
    ensures Without(RelativeParts(from, to), '/')
    ensures RelativeParts(from, to) != [] ==> RelativeParts(from, to)[0] != ""
  {
    CommonFacts(from, to);
    UpsWithout(|from| - CommonLength(from, to));
  }

  /** A joined text does not begin with a slash, and begins with two dots exactly when its first part does. */
  lemma {:induction false} JoinStart(parts: seq<string>)
    requires parts != [] && Without(parts, '/') && parts[0] != ""
    ensures Join(parts, "/") != "" && !IsAbsolute(Join(parts, "/"))
    ensures ".." <= Join(parts, "/") <==> ".." <= parts[0]
  {
    var first, s := parts[0], Join(parts, "/");
    assert s[0] == first[0];
    assert first[0] in first;
    if |first| == 1 && |s| > 1 {
      assert s[1] == '/';
    } else if |first| > 1 {
      assert s[1] == first[1];
    }
  }

  lemma {:induction false} ResolveJoined(from: Path, parts: seq<string>)
    requires Without(parts, '/') && (parts != [] ==> parts[0] != "")
    ensures Resolve(from, Join(parts, "/")) == Walk(from, parts)
  {
    if parts == [] {
      assert Split("", '/') == [""];
      assert Walk(from, [""]) == Walk(from, []);
    } else {
      JoinStart(parts);
      SplitJoin(parts, '/');
    }
  }

  lemma {:induction false} UpAndDown(from: Path, to: Path, k: nat)
    requires Normal(to) && k <= |from| && k <= |to| && from[..k] == to[..k]
    ensures Walk(from, Ups(|from| - k) + to[k..]) == to
  {
    WalkUp(from, |from| - k);
    WalkNames(to[..k], to[k..]);
    WalkAppend(from, Ups(|from| - k), to[k..]);
  }

  lemma {:induction false} PartsLeadThere(from: Path, to: Path)
    requires Normal(to)
    ensures Walk(from, RelativeParts(from, to)) == to
  {
    var k := CommonLength(from, to);
    CommonFacts(from, to);
    UpAndDown(from, to, k);
  }

  /** Going from a path by the relative path to another leads to the other. */
  lemma {:induction false} RelativeLeadsThere(from: Path, to: Path)
    requires Normal(to)
    ensures Resolve(from, Relative(from, to)) == to
  {
    PartsFacts(from, to);
    ResolveJoined(from, RelativeParts(from, to));
    PartsLeadThere(from, to);
  }

  // --- Containment ---

  predicate IsPathContained(candidate: Path, base: Path) {
    var rel := Relative(base, candidate);
    rel == "" || (!(".." <= rel) && !IsAbsolute(rel))
  }

  /** The candidate is the base or lies below it, and the segment next to the base does not begin with
      two dots. */
  predicate Below(candidate: Path, base: Path) {
    base <= candidate && (|candidate| > |base| ==> !(".." <= candidate[|base|]))
  }

  lemma {:induction false} ContainedIff(candidate: Path, base: Path)
    requires Normal(candidate)
    ensures IsPathContained(candidate, base) <==> Below(candidate, base)
  {
    var parts, k := RelativeParts(base, candidate), CommonLength(base, candidate);
    CommonFacts(base, candidate);
    PartsFacts(base, candidate);
    UpsWithout(|base| - k);
    if parts != [] {
      JoinStart(parts);
      assert k < |base| ==> parts[0] == "..";
      assert k == |base| ==> parts == candidate[k..];
    }
  }

  /** A file of the base itself is refused if its name begins with two dots. */
  lemma {:induction false} DottedNameRefused(base: Path)
    requires Normal(base)
    ensures Normal(base + ["..data"]) && !IsPathContained(base + ["..data"], base)
  {
    ContainedIff(base + ["..data"], base);
  }

  // --- Validation ---

  /** An allowed directory as resolved lexically and as the file system knows it. */
  datatype Base = Base(input: Path, canonical: Path)

  /** `realpathSync`; `None` where it throws */
  type RealPath = string -> Option<Path>

  ghost predicate GivesNormal(disk: RealPath) {
    forall text :: disk(text).Some? ==> Normal(disk(text).value)
  }

  function ResolveComparablePath(disk: RealPath, cwd: Path, dir: string): Path {
    if disk(dir).Some? then disk(dir).value else Resolve(cwd, dir)
  }

  /** The position of the first element that passes the test. */
  function FirstPassing<T>(test: T -> bool, xs: seq<T>): Option<nat> {
    if xs == [] then None
    else if test(xs[0]) then Some(0)
    else
      var later := FirstPassing(test, xs[1..]);
      if later.Some? then Some(later.value + 1) else None
  }

  lemma {:induction false} FirstPassingFacts<T>(test: T -> bool, xs: seq<T>)
    ensures var i := FirstPassing(test, xs);
            && (i.Some? ==> i.value < |xs| && test(xs[i.value]))
            && (i.Some? ==> forall j | 0 <= j < i.value :: !test(xs[j]))
            && (i.None? ==> forall j | 0 <= j < |xs| :: !test(xs[j]))
  {
    if xs != [] && !test(xs[0]) {
      FirstPassingFacts(test, xs[1..]);
    }
  }

  function FirstContaining(candidate: Path, bases: seq<Base>): Option<nat> {
    FirstPassing((base: Base) => IsPathContained(candidate, base.input), bases)
  }

  function CanonicalizeCandidatePath(disk: RealPath, candidate: Path, bases: seq<Base>): Path {
    if disk(Show(candidate)).Some? then disk(Show(candidate)).value
    else
      var i := FirstContaining(candidate, bases);
      if i.Some? && i.value < |bases| then
        Resolve(bases[i.value].canonical, Relative(bases[i.value].input, candidate))
      else candidate
  }

  datatype Validation = NullByte | Outside(resolved: Path) | Valid(resolved: Path)

  function Bases(disk: RealPath, cwd: Path, dirs: seq<string>): seq<Base> {
    seq(|dirs|, i requires 0 <= i < |dirs| => Base(Resolve(cwd, dirs[i]), ResolveComparablePath(disk, cwd, dirs[i])))
  }

  predicate AllowedBy(p: Path, bases: seq<Base>) {
    exists i | 0 <= i < |bases| :: IsPathContained(p, bases[i].canonical)
  }

  function ValidateFilePath(disk: RealPath, cwd: Path, path: string, workDir: string,
      allowed: Option<seq<string>>): Validation {
    if '\0' in path then NullByte
    else
      var resolved := Resolve(Resolve(cwd, workDir), path);
      var bases := Bases(disk, cwd, Dirs(workDir, allowed));
      var realPath := CanonicalizeCandidatePath(disk, resolved, bases);
      if AllowedBy(realPath, bases) then Valid(realPath) else Outside(realPath)
  }

  lemma {:induction false} BasesNormal(disk: RealPath, cwd: Path, dirs: seq<string>)
    requires Normal(cwd) && GivesNormal(disk)
    ensures forall i | 0 <= i < |dirs| ::
              Normal(Bases(disk, cwd, dirs)[i].input) && Normal(Bases(disk, cwd, dirs)[i].canonical)
  {
    forall i | 0 <= i < |dirs|
      ensures Normal(Bases(disk, cwd, dirs)[i].input) && Normal(Bases(disk, cwd, dirs)[i].canonical)
    {
      ResolveNormal(cwd, dirs[i]);
    }
  }

  /** For normalised candidates the first containing base is the first that it lies below. */
  lemma {:induction false} FirstContainingFacts(candidate: Path, bases: seq<Base>, i: Option<nat>)
    requires Normal(candidate) && i == FirstContaining(candidate, bases)
    ensures i.Some? ==> i.value < |bases| && Below(candidate, bases[i.value].input)
    ensures i.Some? ==> forall j | 0 <= j < i.value :: !Below(candidate, bases[j].input)
    ensures i.None? ==> forall j | 0 <= j < |bases| :: !Below(candidate, bases[j].input)
  {
    FirstPassingFacts((base: Base) => IsPathContained(candidate, base.input), bases);
    forall j | 0 <= j < |bases|
      ensures IsPathContained(candidate, bases[j].input) <==> Below(candidate, bases[j].input)
    {
      ContainedIff(candidate, bases[j].input);
    }
  }

  /** A path below one base lands at the same place below the other form of that base. */
  lemma {:induction false} Rebased(candidate: Path, base: Base)
    requires Normal(candidate) && Normal(base.canonical) && Below(candidate, base.input)
    ensures var moved := Resolve(base.canonical, Relative(base.input, candidate));
            moved == base.canonical + candidate[|base.input|..] && Below(moved, base.canonical)
  {
    var rest := candidate[|base.input|..];
    CommonFacts(base.input, candidate);
    assert RelativeParts(base.input, candidate) == rest;
    PartsFacts(base.input, candidate);
    WalkNames(base.canonical, rest);
    ResolveJoined(base.canonical, rest);
  }

  function Dirs(workDir: string, allowed: Option<seq<string>>): seq<string> {
    [workDir] + if allowed.Some? then allowed.value else []
  }

  /** Validation accepts a path exactly when it has no null byte and what it resolves to lies below the
      canonical form of an allowed base. */
  lemma {:induction false} ValidIff(disk: RealPath, cwd: Path, path: string, workDir: string,
      allowed: Option<seq<string>>)
    requires Normal(cwd) && GivesNormal(disk)
    ensures var v := ValidateFilePath(disk, cwd, path, workDir, allowed);
            var bases := Bases(disk, cwd, Dirs(workDir, allowed));
            && (v.NullByte? <==> '\0' in path)
            && (!v.NullByte? ==> Normal(v.resolved))
            && (v.Valid? ==> exists i | 0 <= i < |bases| :: Below(v.resolved, bases[i].canonical))
            && (v.Outside? ==> forall i | 0 <= i < |bases| :: !Below(v.resolved, bases[i].canonical))
  {
    var bases := Bases(disk, cwd, Dirs(workDir, allowed));
    var candidate := Resolve(Resolve(cwd, workDir), path);
    var p := CanonicalizeCandidatePath(disk, candidate, bases);
    BasesNormal(disk, cwd, Dirs(workDir, allowed));
    ResolveNormal(cwd, workDir);
    ResolveNormal(Resolve(cwd, workDir), path);
    CanonicalNormal(disk, candidate, bases);
    forall i | 0 <= i < |bases| ensures IsPathContained(p, bases[i].canonical) <==> Below(p, bases[i].canonical) {
      ContainedIff(p, bases[i].canonical);
    }
  }

  lemma {:induction false} CanonicalNormal(disk: RealPath, candidate: Path, bases: seq<Base>)
    requires Normal(candidate) && GivesNormal(disk) && forall i | 0 <= i < |bases| :: Normal(bases[i].canonical)
    ensures Normal(CanonicalizeCandidatePath(disk, candidate, bases))
  {
    var i := FirstContaining(candidate, bases);
    if i.Some? && i.value < |bases| {
      ResolveNormal(bases[i.value].canonical, Relative(bases[i.value].input, candidate));
    }
  }

  /** A file that does not exist yet and lies lexically below an allowed base is moved to the canonical
      form of the first such base, and accepted. */
  lemma {:induction false} NewFileAccepted(
      disk: RealPath, cwd: Path, path: string, workDir: string, allowed: Option<seq<string>>, i: nat)
    requires Normal(cwd) && GivesNormal(disk) && '\0' !in path && i < |Dirs(workDir, allowed)|
    requires var candidate := Resolve(Resolve(cwd, workDir), path);
             var bases := Bases(disk, cwd, Dirs(workDir, allowed));
             && disk(Show(candidate)).None?
             && Below(candidate, bases[i].input)
             && forall j | 0 <= j < i :: !Below(candidate, bases[j].input)
    ensures var candidate := Resolve(Resolve(cwd, workDir), path);
            var base := Bases(disk, cwd, Dirs(workDir, allowed))[i];
            ValidateFilePath(disk, cwd, path, workDir, allowed) == Valid(base.canonical + candidate[|base.input|..])
  {
    var bases := Bases(disk, cwd, Dirs(workDir, allowed));
    var candidate := Resolve(Resolve(cwd, workDir), path);
    BasesNormal(disk, cwd, Dirs(workDir, allowed));
    ResolveNormal(cwd, workDir);
    ResolveNormal(Resolve(cwd, workDir), path);
    FirstIs(candidate, bases, i);
    Rebased(candidate, bases[i]);
    ResolveNormal(bases[i].canonical, Relative(bases[i].input, candidate));
    var p := CanonicalizeCandidatePath(disk, candidate, bases);
    ContainedIff(p, bases[i].canonical);
    assert AllowedBy(p, bases);
  }

  /** So a new file below any of the allowed bases is accepted. */
  lemma {:induction false} NewFileBelowAnyBase(
      disk: RealPath, cwd: Path, path: string, workDir: string, allowed: Option<seq<string>>, j: nat)
    requires Normal(cwd) && GivesNormal(disk) && '\0' !in path && j < |Dirs(workDir, allowed)|
    requires disk(Show(Resolve(Resolve(cwd, workDir), path))).None?
    requires Below(Resolve(Resolve(cwd, workDir), path), Bases(disk, cwd, Dirs(workDir, allowed))[j].input)
    ensures ValidateFilePath(disk, cwd, path, workDir, allowed).Valid?
  {
    var bases := Bases(disk, cwd, Dirs(workDir, allowed));
    var candidate := Resolve(Resolve(cwd, workDir), path);
    ResolveNormal(cwd, workDir);
    ResolveNormal(Resolve(cwd, workDir), path);
    var first := FirstContaining(candidate, bases);
    FirstContainingFacts(candidate, bases, first);
    NewFileAccepted(disk, cwd, path, workDir, allowed, first.value);
  }

  lemma {:induction false} FirstIs(candidate: Path, bases: seq<Base>, i: nat)
    requires Normal(candidate) && i < |bases| && Below(candidate, bases[i].input)
    requires forall j | 0 <= j < i :: !Below(candidate, bases[j].input)
    ensures FirstContaining(candidate, bases) == Some(i)
  {
    FirstContainingFacts(candidate, bases, FirstContaining(candidate, bases));
  }
}
