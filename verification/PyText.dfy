/** Python strings as sequences of code points, surrogates included, together with the
    decimal and blank-string conventions the program relies on. */
module PyText {

  // Dafny's `char` leaves out the surrogates, which a Python `str` may hold.
  type CodePoint = n: int | 0 <= n < 0x11_0000
  type PyStr = seq<CodePoint>

  datatype Option<+T> = None | Some(value: T)

  /** The Python string written by a literal of this file. */
  function U(s: string): (r: PyStr)
    ensures |r| == |s|
    ensures forall i :: 0 <= i < |s| ==> r[i] == s[i] as int
  {
    seq(|s|, i requires 0 <= i < |s| => s[i] as int)
  }

  lemma UInjective(a: string, b: string)
    ensures U(a) == U(b) <==> a == b
  {
    if U(a) == U(b) {
      assert |a| == |b|;
      forall i | 0 <= i < |a| ensures a[i] == b[i] {
        assert U(a)[i] == U(b)[i];
      }
    }
  }

  // `str.isspace` on one code point.
  predicate IsSpace(c: CodePoint) {
    || 9 <= c <= 13 || 28 <= c <= 32 || c == 0x85 || c == 0xA0 || c == 0x1680
    || 0x2000 <= c <= 0x200A || c == 0x2028 || c == 0x2029 || c == 0x202F || c == 0x205F || c == 0x3000
  }

  const SPACES: seq<CodePoint> :=
    [0x09, 0x0A, 0x0B, 0x0C, 0x0D, 0x1C, 0x1D, 0x1E, 0x1F, 0x20, 0x85, 0xA0, 0x1680,
     0x2000, 0x2001, 0x2002, 0x2003, 0x2004, 0x2005, 0x2006, 0x2007, 0x2008, 0x2009, 0x200A,
     0x2028, 0x2029, 0x202F, 0x205F, 0x3000]

  /** The white space of the Unicode database, one code point after the other. */
  lemma SpacesAre(c: CodePoint)
    ensures IsSpace(c) <==> c in SPACES
  {
  }

  // `not s.strip()`
  predicate IsBlank(s: PyStr) {
    forall i :: 0 <= i < |s| ==> IsSpace(s[i])
  }

  // `s.strip()`
  function Stripped(s: PyStr): (r: PyStr)
    ensures r != [] ==> !IsSpace(r[0]) && !IsSpace(r[|r| - 1])
    decreases |s|
  {
    if s != [] && IsSpace(s[0]) then Stripped(s[1..])
    else if s != [] && IsSpace(s[|s| - 1]) then Stripped(s[..|s| - 1])
    else s
  }

  lemma {:induction false} StrippedParts(s: PyStr) returns (before: PyStr, after: PyStr)
    ensures IsBlank(before) && IsBlank(after) && s == before + Stripped(s) + after
    decreases |s|
  {
    before, after := [], [];
    if s != [] && IsSpace(s[0]) {
      before, after := StrippedParts(s[1..]);
      Regrouped([s[0]], before, Stripped(s[1..]), after);
      before := [s[0]] + before;
    } else if s != [] && IsSpace(s[|s| - 1]) {
      var n := |s| - 1;
      before, after := StrippedParts(s[..n]);
      assert s == s[..n] + [s[n]];
      RegroupedRight(before, Stripped(s[..n]), after, [s[n]]);
      after := after + [s[n]];
    }
  }

  lemma Regrouped(a: PyStr, b: PyStr, c: PyStr, d: PyStr)
    ensures a + (b + c + d) == (a + b) + c + d
  {
  }

  lemma RegroupedRight(a: PyStr, b: PyStr, c: PyStr, d: PyStr)
    ensures (a + b + c) + d == a + b + (c + d)
  {
  }

  lemma StrippedIsEmpty(s: PyStr)
    ensures Stripped(s) == [] <==> IsBlank(s)
  {
    var before, after := StrippedParts(s);
    if Stripped(s) != [] {
      assert s[|before|] == Stripped(s)[0];
    }
  }

  lemma {:induction false} StrippedTail(core: PyStr, after: PyStr)
    requires IsBlank(after) && core != [] && !IsSpace(core[0]) && !IsSpace(core[|core| - 1])
    ensures Stripped(core + after) == core
    decreases |after|
  {
    var s := core + after;
    if after != [] {
      var n := |after| - 1;
      StrippedTail(core, after[..n]);
      assert s[|s| - 1] == after[n] && s[..|s| - 1] == core + after[..n];
    }
  }

  /** Whatever blanks surround it, a text that begins and ends with other characters is what is left. */
  lemma {:induction false} StrippedIs(before: PyStr, core: PyStr, after: PyStr)
    requires IsBlank(before) && IsBlank(after) && core != [] && !IsSpace(core[0]) && !IsSpace(core[|core| - 1])
    ensures Stripped(before + core + after) == core
    decreases |before|
  {
    var s := before + core + after;
    if before == [] {
      StrippedTail(core, after);
      assert s == core + after;
    } else {
      StrippedIs(before[1..], core, after);
      assert s[0] == before[0] && s[1..] == before[1..] + core + after;
    }
  }

  // ----- decimal numerals -----

  predicate IsDigit(c: char) { '0' <= c <= '9' }

  predicate AllDigits(s: string) { forall i :: 0 <= i < |s| ==> IsDigit(s[i]) }

  function Digit(n: nat): (c: char)
    requires n < 10
    ensures IsDigit(c) && c as int == '0' as int + n
  {
    ('0' as int + n) as char
  }

  // `str(n)` for a natural number
  function Decimal(n: nat): (s: string)
    ensures |s| > 0 && AllDigits(s)
    ensures s[0] == '0' ==> |s| == 1
    ensures s == "0" <==> n == 0
  {
    if n < 10 then [Digit(n)] else Decimal(n / 10) + [Digit(n % 10)]
  }

  // the number the first `n` digits stand for
  function ValueUpTo(s: string, n: nat): nat
    requires AllDigits(s) && n <= |s|
  {
    if n == 0 then 0 else 10 * ValueUpTo(s, n - 1) + (s[n - 1] as int - '0' as int)
  }

  function NatValue(s: string): nat
    requires AllDigits(s)
  {
    ValueUpTo(s, |s|)
  }

  lemma {:induction false} SamePrefixValue(s: string, t: string, n: nat)
    requires AllDigits(s) && AllDigits(t) && n <= |s| && n <= |t| && s[..n] == t[..n]
    ensures ValueUpTo(s, n) == ValueUpTo(t, n)
  {
    if n > 0 {
      assert s[..n][n - 1] == t[..n][n - 1];
      assert s[..n - 1] == s[..n][..n - 1] == t[..n - 1];
      SamePrefixValue(s, t, n - 1);
    }
  }

  lemma {:induction false} NatValueDecimal(n: nat)
    ensures NatValue(Decimal(n)) == n
  {
    if n >= 10 {
      var d, s := Decimal(n / 10), Decimal(n);
      NatValueDecimal(n / 10);
      assert s[..|d|] == d[..|d|];
      SamePrefixValue(s, d, |d|);
    } else {
      assert Decimal(n) == [Digit(n)];
      assert ValueUpTo([Digit(n)], 0) == 0;
    }
  }

  function Zeros(n: nat): (s: string)
    ensures |s| == n && AllDigits(s) && forall i :: 0 <= i < n ==> s[i] == '0'
  {
    seq(n, _ => '0')
  }

  lemma {:induction false} LeadingZeros(k: nat, d: string, n: nat)
    requires AllDigits(d) && n <= |d|
    ensures AllDigits(Zeros(k) + d) && ValueUpTo(Zeros(k) + d, k + n) == ValueUpTo(d, n)
  {
    if n > 0 {
      LeadingZeros(k, d, n - 1);
      assert (Zeros(k) + d)[k + n - 1] == d[n - 1];
    } else {
      ZerosAreNothing(Zeros(k) + d, k);
    }
  }

  lemma {:induction false} ZerosAreNothing(s: string, k: nat)
    requires AllDigits(s) && k <= |s| && forall i :: 0 <= i < k ==> s[i] == '0'
    ensures ValueUpTo(s, k) == 0
  {
    if k > 0 {
      ZerosAreNothing(s, k - 1);
    }
  }

  function ZeroFill(d: string, width: nat): (s: string)
    requires AllDigits(d)
    ensures AllDigits(s) && |s| >= width
  {
    if |d| < width then Zeros(width - |d|) + d else d
  }

  lemma ZeroFillValue(d: string, width: nat)
    requires AllDigits(d)
    ensures NatValue(ZeroFill(d, width)) == NatValue(d)
  {
    if |d| < width {
      LeadingZeros(width - |d|, d, |d|);
    }
  }

  // `f"{n:0{width}d}"` for a natural number
  function Padded(n: nat, width: nat): (s: string)
    ensures AllDigits(s) && |s| >= width
  {
    ZeroFill(Decimal(n), width)
  }

  /** Zero padding loses nothing, also for numbers wider than the padding. */
  lemma PaddedInjective(a: nat, b: nat, width: nat)
    ensures Padded(a, width) == Padded(b, width) <==> a == b
  {
    PaddedValue(a, width);
    PaddedValue(b, width);
  }

  lemma PaddedValue(n: nat, width: nat)
    ensures NatValue(Padded(n, width)) == n
  {
    var d := Decimal(n);
    ZeroFillValue(d, width);
    NatValueDecimal(n);
  }

  // `str(i)` for any integer
  function IntText(i: int): (s: string)
    ensures |s| > 0
  {
    if i < 0 then "-" + Decimal(-i) else Decimal(i)
  }
}
