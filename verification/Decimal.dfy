/** Digit strings, powers of ten and the exact value of a scaled integer. */
module Decimal {

  predicate IsDigit(c: char) { '0' <= c <= '9' }

  predicate AllDigits(s: string) { forall k :: 0 <= k < |s| ==> IsDigit(s[k]) }

  function DigitOf(c: char): nat
    requires IsDigit(c)
  {
    (c as int) - ('0' as int)
  }

  function DigitsVal(s: string): nat
    requires AllDigits(s)
  {
    if s == "" then 0 else 10 * DigitsVal(s[..|s| - 1]) + DigitOf(s[|s| - 1])
  }

  function Pow10(n: nat): (p: nat)
    ensures p > 0
  {
    if n == 0 then 1 else 10 * Pow10(n - 1)
  }

  function Zeros(n: nat): (s: string)
    ensures |s| == n && AllDigits(s)
  {
    if n == 0 then "" else Zeros(n - 1) + "0"
  }

  /** m * 10^-scale, exactly. */
  ghost function Scaled(m: int, scale: int): real
    decreases if scale < 0 then -scale else scale
  {
    if scale == 0 then m as real
    else if scale > 0 then Scaled(m, scale - 1) / 10.0
    else 10.0 * Scaled(m, scale + 1)
  }

  lemma {:induction false} Pow10Add(a: nat, b: nat)
    ensures Pow10(a + b) == Pow10(a) * Pow10(b)
  {
    if a > 0 {
      Pow10Add(a - 1, b);
    }
  }

  lemma {:induction false} Pow10Mono(a: nat, b: nat)
    requires a <= b
    ensures 0 < Pow10(a) <= Pow10(b)
  {
    if a < b { Pow10Mono(a, b - 1); }
  }

  lemma {:induction false} DigitsConcat(a: string, b: string)
    requires AllDigits(a) && AllDigits(b)
    ensures AllDigits(a + b)
    ensures DigitsVal(a + b) == DigitsVal(a) * Pow10(|b|) + DigitsVal(b)
  {
    if b == "" {
      assert a + b == a;
    } else {
      var b' := b[..|b| - 1];
      DigitsConcat(a, b');
      assert (a + b)[..|a + b| - 1] == a + b';
      Carry(DigitsVal(a), Pow10(|b'|), DigitsVal(b'), DigitOf(b[|b| - 1]));
    }
  }

  lemma Carry(v: int, p: int, w: int, d: int)
    ensures 10 * (v * p + w) + d == v * (10 * p) + (10 * w + d)
  {
    assert v * (10 * p) == 10 * (v * p);
  }

  lemma {:induction false} DigitsBound(s: string)
    requires AllDigits(s)
    ensures DigitsVal(s) < Pow10(|s|)
  {
    if s != "" { DigitsBound(s[..|s| - 1]); }
  }

  lemma {:induction false} ZerosVal(n: nat)
    ensures DigitsVal(Zeros(n)) == 0
  {
    if n > 0 {
      ZerosVal(n - 1);
      assert Zeros(n)[..n - 1] == Zeros(n - 1);
    }
  }

  lemma AppendZeros(s: string, n: nat)
    requires AllDigits(s)
    ensures AllDigits(s + Zeros(n))
    ensures DigitsVal(s + Zeros(n)) == DigitsVal(s) * Pow10(n)
  {
    DigitsConcat(s, Zeros(n));
    ZerosVal(n);
  }

  lemma PrependZeros(s: string, n: nat)
    requires AllDigits(s)
    ensures AllDigits(Zeros(n) + s)
    ensures DigitsVal(Zeros(n) + s) == DigitsVal(s)
  {
    DigitsConcat(Zeros(n), s);
    ZerosVal(n);
  }

  lemma OneDigit(c: char)
    requires IsDigit(c)
    ensures AllDigits([c]) && DigitsVal([c]) == DigitOf(c)
  {
    assert [c][..0] == "";
  }

  lemma HeadDigit(s: string)
    requires AllDigits(s) && s != ""
    ensures DigitsVal(s) == DigitOf(s[0]) * Pow10(|s| - 1) + DigitsVal(s[1..])
  {
    OneDigit(s[0]);
    DigitsConcat([s[0]], s[1..]);
    assert s == [s[0]] + s[1..];
  }

  lemma {:induction false} DigitsInjective(a: string, b: string)
    requires AllDigits(a) && AllDigits(b) && |a| == |b|
    requires DigitsVal(a) == DigitsVal(b)
    ensures a == b
  {
    if a != "" {
      DigitsInjective(a[..|a| - 1], b[..|b| - 1]);
      assert a == a[..|a| - 1] + [a[|a| - 1]];
      assert b == b[..|b| - 1] + [b[|b| - 1]];
    }
  }

  lemma {:induction false} TenfoldScaled(m: int, scale: int)
    ensures Scaled(10 * m, scale) == 10.0 * Scaled(m, scale)
    decreases if scale < 0 then -scale else scale
  {
    if scale > 0 { TenfoldScaled(m, scale - 1); }
    if scale < 0 { TenfoldScaled(m, scale + 1); }
  }

  lemma {:induction false} ScaledShift(m: int, scale: int, k: nat)
    ensures Scaled(m * Pow10(k), scale + k) == Scaled(m, scale)
    decreases k
  {
    if k > 0 {
      ScaledShift(m, scale, k - 1);
      Regroup(m, 10, Pow10(k - 1));
      Regroup(10, m, Pow10(k - 1));
      TenfoldScaled(m * Pow10(k - 1), scale + k);
      assert m * Pow10(k) == 10 * (m * Pow10(k - 1));
    }
  }

  lemma Regroup(a: int, b: int, c: int)
    ensures a * (b * c) == a * b * c
  {
  }

  /** At one scale, values compare as their integers do. */
  lemma {:induction false} ScaledOrder(m: int, n: int, scale: nat)
    ensures Scaled(m, scale) < Scaled(n, scale) <==> m < n
    ensures Scaled(m, scale) == Scaled(n, scale) <==> m == n
  {
    if scale > 0 { ScaledOrder(m, n, scale - 1); }
  }

  lemma {:induction false} ScaledSum(m: int, n: int, scale: nat)
    ensures Scaled(m + n, scale) == Scaled(m, scale) + Scaled(n, scale)
    ensures Scaled(-m, scale) == -Scaled(m, scale)
  {
    if scale > 0 { ScaledSum(m, n, scale - 1); }
  }

  function SumInts(ns: seq<int>): int {
    if ns == [] then 0 else SumInts(ns[..|ns| - 1]) + ns[|ns| - 1]
  }

  ghost function SumReals(xs: seq<real>): real {
    if xs == [] then 0.0 else SumReals(xs[..|xs| - 1]) + xs[|xs| - 1]
  }

  /** Integers at one scale add up to the sum of their values. */
  lemma {:induction false} SumsAreExact(ns: seq<int>, xs: seq<real>, scale: nat)
    requires |ns| == |xs| && forall k :: 0 <= k < |ns| ==> Scaled(ns[k], scale) == xs[k]
    ensures Scaled(SumInts(ns), scale) == SumReals(xs)
  {
    if ns == [] {
      ZeroValue(scale);
    } else {
      var last := |ns| - 1;
      SumsAreExact(ns[..last], xs[..last], scale);
      ScaledSum(SumInts(ns[..last]), ns[last], scale);
    }
  }

  // ------------------------------------------------------------ signs and scanning

  function Signed(neg: bool, n: int): int { if neg then -n else n }

  predicate IsDot(c: char) { c == '.' }

  /** The first index whose character satisfies p, or |s|. */
  function Find(s: string, p: char -> bool): (i: nat)
    ensures i <= |s|
  {
    if s == "" then 0 else if p(s[0]) then 0 else 1 + Find(s[1..], p)
  }

  lemma {:induction false} FindAt(s: string, p: char -> bool)
    ensures forall k :: 0 <= k < Find(s, p) ==> !p(s[k])
    ensures Find(s, p) < |s| ==> p(s[Find(s, p)])
  {
    if s != "" && !p(s[0]) { FindAt(s[1..], p); }
  }

  lemma FindIs(s: string, p: char -> bool, i: nat)
    requires i <= |s| && forall k :: 0 <= k < i ==> !p(s[k])
    requires i < |s| ==> p(s[i])
    ensures Find(s, p) == i
  {
    FindAt(s, p);
  }

  /** Both sides of the decimal point. */
  function WholePart(t: string): string { t[..Find(t, IsDot)] }

  function FracPart(t: string): string { if Find(t, IsDot) < |t| then t[Find(t, IsDot) + 1..] else "" }

  lemma Negated(neg: bool, n: int, p: int)
    ensures Signed(neg, n * p) == Signed(neg, n) * p
  {
  }

  lemma ZeroValue(scale: nat)
    ensures Scaled(0, scale) == 0.0
  {
    ScaledSum(0, 0, scale);
  }

  /** Appending zeros to the digits of a signed number while raising its scale keeps it. */
  lemma PaddedValue(neg: bool, digits: string, scale: nat, k: nat)
    requires AllDigits(digits)
    ensures AllDigits(digits + Zeros(k))
    ensures Scaled(Signed(neg, DigitsVal(digits + Zeros(k))), scale + k)
         == Scaled(Signed(neg, DigitsVal(digits)), scale)
  {
    AppendZeros(digits, k);
    Negated(neg, DigitsVal(digits), Pow10(k));
    ScaledShift(Signed(neg, DigitsVal(digits)), scale, k);
  }

  lemma PiecesValue(neg: bool, whole: string, frac: string, scale: nat)
    requires AllDigits(whole) && AllDigits(frac) && |frac| <= scale
    ensures Scaled(PiecesInt(neg, whole, frac, scale), scale) == Scaled(Signed(neg, DigitsVal(whole + frac)), |frac|)
  {
    PaddedValue(neg, whole + frac, |frac|, scale - |frac|);
  }

  function PiecesInt(neg: bool, whole: string, frac: string, scale: nat): int
    requires AllDigits(whole) && AllDigits(frac) && |frac| <= scale
  {
    Signed(neg, DigitsVal(whole + frac + Zeros(scale - |frac|)))
  }

  // ------------------------------------------------------------ printing a natural number

  function DigitChar(d: nat): (c: char)
    requires d < 10
    ensures IsDigit(c) && DigitOf(c) == d
  {
    ('0' as int + d) as char
  }

  function NatText(n: nat): (s: string)
    ensures AllDigits(s) && s != "" && DigitsVal(s) == n
  {
    if n < 10 then
      var s := [DigitChar(n)];
      assert s[..0] == "";
      s
    else
      var init := NatText(n / 10);
      var s := init + [DigitChar(n % 10)];
      assert s[..|s| - 1] == init;
      s
  }
}
