/** POSIX paths as `pathlib` splits and joins them, and the artifact directory of an execution. */
module Paths {
  import opened PyText

  const SLASH: CodePoint := '/' as int

  predicate SlashFree(s: PyStr) {
    forall i :: 0 <= i < |s| ==> s[i] != SLASH
  }

  const DOT: PyStr := ['.' as int]
  const DOTS: PyStr := ['.' as int, '.' as int]

  // A component that survives splitting; only `..` has a meaning of its own left.
  predicate IsPart(s: PyStr) {
    s != [] && SlashFree(s) && s != DOT
  }

  predicate AreParts(parts: seq<PyStr>) {
    forall i :: 0 <= i < |parts| ==> IsPart(parts[i])
  }

  predicate IsResolved(parts: seq<PyStr>) {
    AreParts(parts) && forall i :: 0 <= i < |parts| ==> parts[i] != DOTS
  }

  function Kept(s: PyStr): (r: seq<PyStr>) {
    if s == [] || s == DOT then [] else [s]
  }

  /** The parts of `Path(text)`: the text up to each slash, without empty parts and single dots.
      `pending` is the part read so far. */
  function SplitFrom(pending: PyStr, text: PyStr): (r: seq<PyStr>)
    decreases |text|
  {
    if text == [] then Kept(pending)
    else if text[0] == SLASH then Kept(pending) + SplitFrom([], text[1..])
    else SplitFrom(pending + [text[0]], text[1..])
  }

  function Split(text: PyStr): seq<PyStr> {
    SplitFrom([], text)
  }

  predicate IsAbsolute(text: PyStr) {
    text != [] && text[0] == SLASH
  }

  /** `as_posix()` of a relative path. */
  function Text(parts: seq<PyStr>): (r: PyStr) {
    if parts == [] then DOT else JoinParts(parts)
  }

  function JoinParts(parts: seq<PyStr>): PyStr
    requires parts != []
  {
    if |parts| == 1 then parts[0] else parts[0] + [SLASH] + JoinParts(parts[1..])
  }

  /** `resolve(strict=False)` without symbolic links: `..` steps up, and stays at the root. */
  function Resolve(base: seq<PyStr>, parts: seq<PyStr>): seq<PyStr>
    decreases |parts|
  {
    if parts == [] then base
    else if parts[0] == DOTS then Resolve(if base == [] then [] else base[..|base| - 1], parts[1..])
    else Resolve(base + [parts[0]], parts[1..])
  }

  // ----- splitting and joining -----

  lemma {:induction false} SplitAreParts(pending: PyStr, text: PyStr)
    requires SlashFree(pending)
    ensures AreParts(SplitFrom(pending, text))
    decreases |text|
  {
    if text != [] {
      SplitAreParts(if text[0] == SLASH then [] else pending + [text[0]], text[1..]);
    }
  }

  lemma {:induction false} SplitPart(pending: PyStr, part: PyStr, rest: PyStr)
    requires SlashFree(part)
    ensures SplitFrom(pending, part + rest) == SplitFrom(pending + part, rest)
    decreases |part|
  {
    if part == [] {
      assert part + rest == rest && pending + part == pending;
    } else {
      var t := part + rest;
      assert t[0] == part[0] && t[1..] == part[1..] + rest;
      SplitPart(pending + [part[0]], part[1..], rest);
      assert pending + part == pending + [part[0]] + part[1..];
    }
  }

  /** A slash between two texts separates their parts. */
  lemma {:induction false} SplitAtSlash(pending: PyStr, a: PyStr, b: PyStr)
    ensures SplitFrom(pending, a + [SLASH] + b) == SplitFrom(pending, a) + Split(b)
    decreases |a|
  {
    var t := a + [SLASH] + b;
    if a == [] {
      assert t[0] == SLASH && t[1..] == b;
    } else {
      assert t[0] == a[0] && t[1..] == a[1..] + [SLASH] + b;
      SplitAtSlash(if a[0] == SLASH then [] else pending + [a[0]], a[1..], b);
    }
  }

  /** Splitting inverts joining. */
  lemma {:induction false} SplitText(parts: seq<PyStr>)
    requires AreParts(parts)
    ensures Split(Text(parts)) == parts
  {
    if parts == [] {
      SplitPart([], DOT, []);
      assert DOT + [] == DOT && [] + DOT == DOT;
    } else {
      SplitPart([], parts[0], []);
      assert parts[0] + [] == parts[0] && [] + parts[0] == parts[0];
      if |parts| > 1 {
        SplitText(parts[1..]);
        SplitAtSlash([], parts[0], JoinParts(parts[1..]));
      }
    }
  }

  lemma TextHead(parts: seq<PyStr>)
    requires AreParts(parts)
    ensures Text(parts) != [] && !IsAbsolute(Text(parts))
    ensures parts != [] ==> Text(parts)[0] == parts[0][0]
  {
  }

  // ----- resolving -----

  lemma {:induction false} ResolveAppend(base: seq<PyStr>, a: seq<PyStr>, b: seq<PyStr>)
    ensures Resolve(base, a + b) == Resolve(Resolve(base, a), b)
    decreases |a|
  {
    if a == [] {
      assert a + b == b;
    } else {
      assert (a + b)[0] == a[0] && (a + b)[1..] == a[1..] + b;
      ResolveAppend(if a[0] == DOTS then (if base == [] then [] else base[..|base| - 1]) else base + [a[0]], a[1..], b);
    }
  }

  lemma {:induction false} ResolveResolved(base: seq<PyStr>, parts: seq<PyStr>)
    requires IsResolved(parts)
    ensures Resolve(base, parts) == base + parts
    decreases |parts|
  {
    if parts != [] {
      ResolveResolved(base + [parts[0]], parts[1..]);
      assert base + [parts[0]] + parts[1..] == base + parts;
    }
  }

  lemma {:induction false} ResolveIsResolved(base: seq<PyStr>, parts: seq<PyStr>)
    requires IsResolved(base) && AreParts(parts)
    ensures IsResolved(Resolve(base, parts))
    decreases |parts|
  {
    if parts != [] {
      ResolveIsResolved(if parts[0] == DOTS then (if base == [] then [] else base[..|base| - 1]) else base + [parts[0]], parts[1..]);
    }
  }

  /** `..` steps up one directory and stays at the root. */
  lemma ResolveUp(base: seq<PyStr>, p: PyStr)
    ensures Resolve(base + [p], [DOTS]) == base
    ensures Resolve([], [DOTS]) == []
  {
    assert (base + [p])[..|base|] == base;
  }

  /** A part followed by `..` leads nowhere, wherever it stands. */
  lemma ResolveCancels(base: seq<PyStr>, a: seq<PyStr>, p: PyStr, b: seq<PyStr>)
    requires p != DOTS
    ensures Resolve(base, a + [p, DOTS] + b) == Resolve(base, a + b)
  {
    var here := Resolve(base, a);
    ResolveAppend(base, a + [p, DOTS], b);
    ResolveAppend(base, a, [p, DOTS]);
    ResolveAppend(base, a, b);
    assert [p, DOTS] == [p] + [DOTS];
    ResolveAppend(here, [p], [DOTS]);
    assert Resolve(here, [p]) == here + [p];
    ResolveUp(here, p);
  }

  /** A text without a slash is one part, unless it is empty or a single dot. */
  lemma SplitOne(s: PyStr)
    requires SlashFree(s)
    ensures Split(s) == if s == [] || s == ['.' as int] then [] else [s]
  {
    SplitPart([], s, []);
    assert s + [] == s && [] + s == s;
  }

  /** The text of a path is its parts with one slash between them. */
  lemma {:induction false} TextAppend(a: seq<PyStr>, b: seq<PyStr>)
    requires a != [] && b != []
    ensures Text(a + b) == Text(a) + ['/' as int] + Text(b)
  {
    assert (a + b)[0] == a[0];
    if |a| == 1 {
      assert (a + b)[1..] == b;
    } else {
      assert (a + b)[1..] == a[1..] + b;
      TextAppend(a[1..], b);
      assert a[0] + [SLASH] + (Text(a[1..]) + [SLASH] + Text(b)) == a[0] + [SLASH] + Text(a[1..]) + [SLASH] + Text(b);
    }
  }

  lemma TextOfOne(p: PyStr)
    ensures Text([p]) == p && Text([]) == ['.' as int]
  {
  }

  // ----- artifact directories -----

  /** The directory `execute` gives to an attempt of a run. */
  function ArtifactDir(root: seq<PyStr>, runId: nat, attemptNumber: nat): seq<PyStr> {
    root + [U("run-" + Padded(runId, 6)), U("attempt-" + Padded(attemptNumber, 4))]
  }

  // `s` is `n` in decimal, with zeros in front up to `width` digits
  predicate IsPadded(s: string, n: nat, width: nat) {
    && AllDigits(s) && NatValue(s) == n && |s| >= width
    && (|s| > width && |s| > 1 ==> s[0] != '0')
  }

  /** The directory's two names, below the root: `run-` and `attempt-`, with the run id in at least six
      digits and the attempt number in at least four. */
  lemma ArtifactDirNames(root: seq<PyStr>, runId: nat, attemptNumber: nat)
    ensures exists r, n ::
              && IsPadded(r, runId, 6) && IsPadded(n, attemptNumber, 4)
              && ArtifactDir(root, runId, attemptNumber) == root + [U("run-" + r), U("attempt-" + n)]
  {
    PaddedIs(runId, 6);
    PaddedIs(attemptNumber, 4);
    assert IsPadded(Padded(runId, 6), runId, 6) && IsPadded(Padded(attemptNumber, 4), attemptNumber, 4);
  }

  lemma ArtifactDirParts(root: seq<PyStr>, runId: nat, attemptNumber: nat)
    requires AreParts(root)
    ensures AreParts(ArtifactDir(root, runId, attemptNumber))
  {
    PrefixedIsPart("run-", Padded(runId, 6));
    PrefixedIsPart("attempt-", Padded(attemptNumber, 4));
  }

  lemma PrefixedIsPart(prefix: string, digits: string)
    requires |prefix| > 1 && AllDigits(digits) && forall i :: 0 <= i < |prefix| ==> prefix[i] != '/'
    ensures IsPart(U(prefix + digits))
  {
    var s := U(prefix + digits);
    forall i | 0 <= i < |s| ensures s[i] != SLASH {
      assert (prefix + digits)[i] != '/';
    }
  }

  lemma PaddedIs(n: nat, width: nat)
    ensures IsPadded(Padded(n, width), n, width)
  {
    PaddedValue(n, width);
  }

  /** Different attempts have different directories, also beyond the width of the padding. */
  lemma ArtifactDirInjective(root: seq<PyStr>, runA: nat, numberA: nat, runB: nat, numberB: nat)
    ensures ArtifactDir(root, runA, numberA) == ArtifactDir(root, runB, numberB) <==> runA == runB && numberA == numberB
  {
    var a, b := ArtifactDir(root, runA, numberA), ArtifactDir(root, runB, numberB);
    if a == b {
      assert a[|root|] == b[|root|] && a[|root| + 1] == b[|root| + 1];
      PrefixedInjective("run-", Padded(runA, 6), Padded(runB, 6));
      PrefixedInjective("attempt-", Padded(numberA, 4), Padded(numberB, 4));
      PaddedInjective(runA, runB, 6);
      PaddedInjective(numberA, numberB, 4);
    }
  }

  lemma PrefixedInjective(prefix: string, a: string, b: string)
    requires U(prefix + a) == U(prefix + b)
    ensures a == b
  {
    UInjective(prefix + a, prefix + b);
    assert (prefix + a)[|prefix|..] == a && (prefix + b)[|prefix|..] == b;
  }
}
