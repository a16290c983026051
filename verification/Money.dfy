/** Exact decimal amounts in canonical string form: canonicalize, Neg, Scale, String and Cmp. */
module Money {
  import opened Wrappers
  import opened Decimal

  const MAX_EXPONENT := 1000

  // ------------------------------------------------------------ the accepted literals

  /** An exponent suffix: marker e or E, an optional sign, digits. */
  datatype Exponent = Exponent(marker: char, sign: string, digits: string) {
    predicate Valid() {
      && marker in {'e', 'E'} && sign in {"", "+", "-"}
      && digits != "" && AllDigits(digits) && DigitsVal(digits) <= MAX_EXPONENT
    }

    function Value(): int
      requires Valid()
    {
      Signed(sign == "-", DigitsVal(digits))
    }

    function Text(): string { [marker] + (sign + digits) }
  }

  /** The documented grammar: -?digits(.digits)?([eE][+-]?digits)? */
  datatype Literal = Literal(neg: bool, whole: string, frac: Option<string>, exp: Option<Exponent>) {
    predicate Valid() {
      && whole != "" && AllDigits(whole)
      && (frac.Some? ==> frac.value != "" && AllDigits(frac.value))
      && (exp.Some? ==> exp.value.Valid())
    }

    function Fraction(): string { if frac.Some? then frac.value else "" }

    function Mantissa(): string { whole + if frac.Some? then "." + frac.value else "" }

    function Unsigned(): string { Mantissa() + if exp.Some? then exp.value.Text() else "" }

    function Text(): string { (if neg then "-" else "") + Unsigned() }

    ghost function Value(): real
      requires Valid()
    {
      Scaled(Signed(neg, DigitsVal(whole + Fraction())), |Fraction()| - if exp.Some? then exp.value.Value() else 0)
    }
  }

  ghost predicate Spells(l: Literal, s: string) { l.Valid() && l.Text() == s }

  /** The canonical form: no exponent, no leading zero except a lone one, no trailing zero
      in the fraction, and zero only as the empty string. */
  ghost predicate CanonicalLiteral(l: Literal) {
    && l.Valid() && l.exp.None?
    && (l.whole == "0" || l.whole[0] != '0')
    && (l.frac.Some? ==> l.frac.value[|l.frac.value| - 1] != '0')
    && (l.whole == "0" ==> l.frac.Some?)
  }

  ghost predicate Canonical(s: string) {
    s == "" || exists l :: CanonicalLiteral(l) && l.Text() == s
  }

  // ------------------------------------------------------------ reading a literal

  predicate IsMarker(c: char) { c == 'e' || c == 'E' }

  /** strconv.ParseInt(u, 10, 32) followed by the exponent bound. */
  function ReadExponent(marker: char, u: string): Option<Exponent> {
    var n := if u != "" && u[0] in {'+', '-'} then 1 else 0;
    var digits := u[n..];
    if digits != "" && AllDigits(digits) && DigitsVal(digits) <= MAX_EXPONENT
    then Some(Exponent(marker, u[..n], digits)) else None
  }

  function ReadMantissa(neg: bool, mant: string, exp: Option<Exponent>): Option<Literal> {
    var i := Find(mant, IsDot);
    var whole := mant[..i];
    var frac := if i < |mant| then Some(mant[i + 1..]) else None;
    if whole == "" || !AllDigits(whole) || (frac.Some? && (frac.value == "" || !AllDigits(frac.value)))
    then None else Some(Literal(neg, whole, frac, exp))
  }

  function ReadUnsigned(neg: bool, t: string): Option<Literal> {
    var i := Find(t, IsMarker);
    if i == |t| then ReadMantissa(neg, t, None)
    else
      match ReadExponent(t[i], t[i + 1..])
      case None => None
      case Some(e) => ReadMantissa(neg, t[..i], Some(e))
  }

  function Read(s: string): Option<Literal> {
    if s != "" && s[0] == '-' then ReadUnsigned(true, s[1..]) else ReadUnsigned(false, s)
  }

  /** Read accepts exactly the grammar, and in one way. */
  lemma ReadSpells(s: string, l: Literal)
    ensures Spells(l, s) <==> Read(s) == Some(l)
  {
    if Spells(l, s) { SpelledIsRead(l); }
    if Read(s) == Some(l) { ReadIsSpelled(s, l); }
  }

  lemma MantissaIsRead(l: Literal)
    requires l.Valid()
    ensures ReadMantissa(l.neg, l.Mantissa(), l.exp) == Some(l)
    ensures forall k :: 0 <= k < |l.Mantissa()| ==> !IsMarker(l.Mantissa()[k])
    ensures l.Mantissa() != "" && l.Mantissa()[0] != '-'
  {
    var mant := l.Mantissa();
    FindIs(mant, IsDot, |l.whole|);
    assert mant[..|l.whole|] == l.whole;
    assert mant[0] == l.whole[0];
    if l.frac.Some? {
      assert mant[|l.whole| + 1..] == l.frac.value;
    }
  }

  lemma ExponentIsRead(e: Exponent)
    requires e.Valid()
    ensures ReadExponent(e.marker, e.sign + e.digits) == Some(e)
  {
    var u := e.sign + e.digits;
    assert u[|e.sign|..] == e.digits;
    assert u[..|e.sign|] == e.sign;
    assert e.sign == "" ==> u[0] == e.digits[0];
  }

  ghost predicate NoMarker(s: string) { forall k :: 0 <= k < |s| ==> !IsMarker(s[k]) }

  lemma PlainUnsigned(neg: bool, mant: string)
    requires NoMarker(mant)
    ensures ReadUnsigned(neg, mant) == ReadMantissa(neg, mant, None)
  {
    FindIs(mant, IsMarker, |mant|);
  }

  lemma MarkedUnsigned(neg: bool, mant: string, marker: char, u: string)
    requires NoMarker(mant) && IsMarker(marker)
    ensures ReadUnsigned(neg, mant + ([marker] + u)) ==
            match ReadExponent(marker, u) { case None => None case Some(e) => ReadMantissa(neg, mant, Some(e)) }
  {
    var t := mant + ([marker] + u);
    FindIs(t, IsMarker, |mant|);
    assert t[..|mant|] == mant;
    assert t[|mant| + 1..] == u;
  }

  lemma UnsignedIsRead(l: Literal)
    requires l.Valid()
    ensures ReadUnsigned(l.neg, l.Unsigned()) == Some(l)
  {
    var mant := l.Mantissa();
    MantissaIsRead(l);
    if l.exp.Some? {
      var e := l.exp.value;
      ExponentIsRead(e);
      MarkedUnsigned(l.neg, mant, e.marker, e.sign + e.digits);
    } else {
      PlainUnsigned(l.neg, mant);
      assert l.Unsigned() == mant;
    }
  }

  lemma SpelledIsRead(l: Literal)
    requires l.Valid()
    ensures Read(l.Text()) == Some(l)
  {
    UnsignedIsRead(l);
    MantissaIsRead(l);
    assert l.Unsigned()[0] == l.Mantissa()[0];
    assert l.neg ==> l.Text()[1..] == l.Unsigned();
    assert !l.neg ==> l.Text() == l.Unsigned();
  }

  lemma MantissaIsSpelled(neg: bool, mant: string, exp: Option<Exponent>, l: Literal)
    requires ReadMantissa(neg, mant, exp) == Some(l)
    ensures l.Mantissa() == mant && l.neg == neg && l.exp == exp
    ensures (exp.Some? ==> exp.value.Valid()) ==> l.Valid()
  {
    FindAt(mant, IsDot);
  }

  lemma ExponentIsSpelled(marker: char, u: string, e: Exponent)
    requires ReadExponent(marker, u) == Some(e) && IsMarker(marker)
    ensures e.Valid() && e.sign + e.digits == u && e.marker == marker
  {
    assert u != "" ==> u[..1] == [u[0]];
    assert u != "" && u[0] == '+' ==> u[..1] == "+";
    assert u != "" && u[0] == '-' ==> u[..1] == "-";
  }

  lemma UnsignedIsSpelled(neg: bool, t: string, l: Literal)
    requires ReadUnsigned(neg, t) == Some(l)
    ensures l.Valid() && l.Unsigned() == t && l.neg == neg
  {
    var i := Find(t, IsMarker);
    FindAt(t, IsMarker);
    var mant := t[..i];
    if i == |t| {
      assert t == mant;
      PlainUnsigned(neg, mant);
      MantissaIsSpelled(neg, mant, None, l);
      assert l.Unsigned() == mant;
    } else {
      var marker, u := t[i], t[i + 1..];
      assert t == mant + ([marker] + u);
      MarkedUnsigned(neg, mant, marker, u);
      var e := ReadExponent(marker, u).value;
      MantissaIsSpelled(neg, mant, Some(e), l);
      ExponentIsSpelled(marker, u, e);
      assert e.Text() == [marker] + u;
    }
  }

  lemma ReadIsSpelled(s: string, l: Literal)
    requires Read(s) == Some(l)
    ensures Spells(l, s)
  {
    if s != "" && s[0] == '-' {
      UnsignedIsSpelled(true, s[1..], l);
      assert s == "-" + s[1..];
    } else {
      UnsignedIsSpelled(false, s, l);
      assert l.Text() == s;
    }
  }

  // ------------------------------------------------------------ canonicalize

  function TrimLeftZeros(s: string): string {
    if s != "" && s[0] == '0' then TrimLeftZeros(s[1..]) else s
  }

  lemma {:induction false} TrimKeepsValue(s: string)
    requires AllDigits(s)
    ensures AllDigits(TrimLeftZeros(s)) && DigitsVal(TrimLeftZeros(s)) == DigitsVal(s)
    ensures TrimLeftZeros(s) != "" ==> TrimLeftZeros(s)[0] != '0'
  {
    if s != "" && s[0] == '0' {
      HeadDigit(s);
      TrimKeepsValue(s[1..]);
    }
  }

  /** The text of digits * 10^-scale. */
  function Render(neg: bool, digits: string, scale: nat): Literal
    requires digits != "" && AllDigits(digits)
  {
    if scale == 0 then Literal(neg, digits, None, None)
    else if |digits| <= scale then Literal(neg, "0", Some(Zeros(scale - |digits|) + digits), None)
    else Literal(neg, digits[..|digits| - scale], Some(digits[|digits| - scale..]), None)
  }

  lemma RenderKeepsDigits(neg: bool, digits: string, scale: nat)
    requires digits != "" && AllDigits(digits)
    ensures var l := Render(neg, digits, scale);
            && l.Valid() && |l.Fraction()| == scale
            && AllDigits(l.whole + l.Fraction()) && DigitsVal(l.whole + l.Fraction()) == DigitsVal(digits)
  {
    var l := Render(neg, digits, scale);
    if scale == 0 {
      assert digits + "" == digits;
    } else if |digits| <= scale {
      PrependZeros(digits, scale - |digits|);
      assert Zeros(1) == "0";
      PrependZeros(l.frac.value, 1);
    } else {
      assert l.whole + l.frac.value == digits;
    }
  }

  /** Dropping the last zero of the digits and one from the scale keeps the value. */
  lemma DropZero(neg: bool, digits: string, scale: nat)
    requires AllDigits(digits) && digits != "" && digits[|digits| - 1] == '0' && scale > 0
    ensures Scaled(Signed(neg, DigitsVal(digits[..|digits| - 1])), scale - 1)
         == Scaled(Signed(neg, DigitsVal(digits)), scale)
  {
    var m := Signed(neg, DigitsVal(digits[..|digits| - 1]));
    assert Pow10(1) == 10;
    assert m * Pow10(1) == Signed(neg, DigitsVal(digits));
    ScaledShift(m, scale - 1, 1);
  }

  /** The number a string denotes; zero for the empty (canonical zero) string. */
  ghost function Value(s: string): real {
    match Read(s)
    case Some(l) => ReadIsSpelled(s, l); l.Value()
    case None => 0.0
  }

  /** A canonicalization is right: it accepts the grammar and nothing else, keeps the exact
      value, and answers in canonical form. */
  ghost predicate IsCanonicalization(s: string, canon: string, ok: bool) {
    && (ok <==> exists l :: Spells(l, s))
    && (ok ==> Canonical(canon))
    && (forall l :: Spells(l, s) ==> Value(canon) == l.Value())
  }

  lemma Rejected(s: string)
    requires Read(s).None?
    ensures IsCanonicalization(s, "", false)
  {
    forall l ensures !Spells(l, s) { ReadSpells(s, l); }
  }

  lemma Accepted(s: string, l: Literal, canon: string)
    requires Read(s) == Some(l)
    requires Canonical(canon) && Value(canon) == Value(s)
    ensures IsCanonicalization(s, canon, true)
  {
    ReadIsSpelled(s, l);
    forall l' | Spells(l', s) ensures l' == l { ReadSpells(s, l'); }
  }

  lemma RenderedValue(neg: bool, digits: string, scale: nat)
    requires digits != "" && AllDigits(digits) && digits[0] != '0'
    requires scale > 0 ==> digits[|digits| - 1] != '0'
    ensures var canon := Render(neg, digits, scale).Text();
            Canonical(canon) && Value(canon) == Scaled(Signed(neg, DigitsVal(digits)), scale)
  {
    var l := Render(neg, digits, scale);
    RenderKeepsDigits(neg, digits, scale);
    SpelledIsRead(l);
    assert CanonicalLiteral(l);
  }

  /** Moving a negative scale into the digits keeps the value. */
  lemma PadDigits(neg: bool, digits: string, scale: int)
    requires AllDigits(digits) && scale < 0
    ensures AllDigits(digits + Zeros(-scale))
    ensures Scaled(Signed(neg, DigitsVal(digits + Zeros(-scale))), 0) == Scaled(Signed(neg, DigitsVal(digits)), scale)
  {
    AppendZeros(digits, -scale);
    Negated(neg, DigitsVal(digits), Pow10(-scale));
    ScaledShift(Signed(neg, DigitsVal(digits)), scale, -scale);
  }

  /** Digits and scale of a literal: no leading zero, and none behind the decimal point. */
  method Normalize(l: Literal) returns (digits: string, scale: nat)
    requires l.Valid()
    ensures AllDigits(digits) && (digits != "" ==> digits[0] != '0')
    ensures scale > 0 && digits != "" ==> digits[|digits| - 1] != '0'
    ensures Scaled(Signed(l.neg, DigitsVal(digits)), scale) == l.Value()
  {
    ghost var v := l.Value();
    digits := l.whole + l.Fraction();
    var sc := |l.Fraction()| - if l.exp.Some? then l.exp.value.Value() else 0;
    if sc < 0 {
      PadDigits(l.neg, digits, sc);
      digits, sc := digits + Zeros(-sc), 0;
    }
    TrimKeepsValue(digits);
    digits, scale := TrimLeftZeros(digits), sc;
    while scale > 0 && |digits| > 0 && digits[|digits| - 1] == '0'
      invariant AllDigits(digits) && (digits != "" ==> digits[0] != '0')
      invariant Scaled(Signed(l.neg, DigitsVal(digits)), scale) == v
    {
      DropZero(l.neg, digits, scale);
      digits, scale := digits[..|digits| - 1], scale - 1;
    }
  }

  method Canonicalize(s: string) returns (canon: string, ok: bool)
    ensures IsCanonicalization(s, canon, ok)
  {
    var read := Read(s);
    if read.None? {
      Rejected(s);
      return "", false;
    }
    var l := read.value;
    ReadIsSpelled(s, l);
    var digits, scale := Normalize(l);
    if digits == "" {
      ZeroValue(scale);
      canon := "";
    } else {
      RenderedValue(l.neg, digits, scale);
      canon := Render(l.neg, digits, scale).Text();
    }
    ok := true;
    Accepted(s, l, canon);
  }

  // ------------------------------------------------------------ amounts

  function String(a: string): string { if a == "" then "0" else a }

  predicate IsNegative(a: string) { a != "" && a[0] == '-' }

  function Neg(a: string): string {
    if a == "" then "" else if a[0] == '-' then a[1..] else "-" + a
  }

  function Scale(a: string): nat {
    var i := Find(a, IsDot);
    if i == |a| then 0 else |a| - i - 1
  }

  /** The literal behind a canonical string; the empty string is printed as "0". */
  ghost function LiteralOf(a: string): (l: Literal)
    requires Canonical(a)
    ensures l.Valid() && l.exp.None? && l.Text() == String(a)
    ensures a != "" ==> CanonicalLiteral(l)
  {
    if a == "" then Literal(false, "0", None, None)
    else var l :| CanonicalLiteral(l) && l.Text() == a; l
  }

  lemma LiteralReads(a: string)
    requires Canonical(a)
    ensures Read(String(a)) == Some(LiteralOf(a))
    ensures Value(String(a)) == Value(a) == LiteralOf(a).Value()
  {
    SpelledIsRead(LiteralOf(a));
    if a == "" {
      assert DigitsVal("0") == 0 by { assert "0"[..0] == ""; }
      assert "0" + "" == "0";
      ZeroValue(0);
    }
  }

  /** What follows the sign. */
  function Body(s: string): string { if s != "" && s[0] == '-' then s[1..] else s }

  lemma BodyOf(a: string)
    requires Canonical(a)
    ensures Body(String(a)) == LiteralOf(a).Mantissa()
    ensures String(a)[0] == '-' <==> LiteralOf(a).neg
    ensures String(a) == (if LiteralOf(a).neg then "-" else "") + LiteralOf(a).Mantissa()
  {
    var l := LiteralOf(a);
    MantissaIsRead(l);
    assert l.Unsigned() == l.Mantissa();
  }

  lemma DotOf(l: Literal)
    requires l.Valid()
    ensures Find(l.Mantissa(), IsDot) == |l.whole| && Find("-" + l.Mantissa(), IsDot) == 1 + |l.whole|
  {
    FindIs(l.Mantissa(), IsDot, |l.whole|);
    FindIs("-" + l.Mantissa(), IsDot, 1 + |l.whole|);
  }

  lemma PartsOf(l: Literal)
    requires l.Valid()
    ensures WholePart(l.Mantissa()) == l.whole
    ensures FracPart(l.Mantissa()) == l.Fraction()
    ensures Scale(l.Mantissa()) == Scale("-" + l.Mantissa()) == |l.Fraction()|
  {
    DotOf(l);
  }

  lemma PiecesOf(a: string)
    requires Canonical(a)
    ensures WholePart(Body(String(a))) == LiteralOf(a).whole
    ensures FracPart(Body(String(a))) == LiteralOf(a).Fraction()
    ensures String(a)[0] == '-' <==> LiteralOf(a).neg
    ensures Scale(a) == |LiteralOf(a).Fraction()|
  {
    BodyOf(a);
    PartsOf(LiteralOf(a));
  }

  /** a * 10^scale as an integer. */
  function ScaledInt(a: string, scale: nat): int
    requires Canonical(a) && scale >= Scale(a)
  {
    PiecesOf(a);
    var t := Body(String(a));
    PiecesInt(String(a)[0] == '-', WholePart(t), FracPart(t), scale)
  }

  function Cmp(a: string, b: string): int
    requires Canonical(a) && Canonical(b)
  {
    var scale := if Scale(a) >= Scale(b) then Scale(a) else Scale(b);
    var x, y := ScaledInt(a, scale), ScaledInt(b, scale);
    if x < y then -1 else if x == y then 0 else 1
  }

  lemma ScaledIntIsExact(a: string, scale: nat)
    requires Canonical(a) && scale >= Scale(a)
    ensures Scaled(ScaledInt(a, scale), scale) == Value(a)
  {
    var l := LiteralOf(a);
    PiecesOf(a);
    assert ScaledInt(a, scale) == PiecesInt(l.neg, l.whole, l.Fraction(), scale);
    PiecesValue(l.neg, l.whole, l.Fraction(), scale);
    LiteralReads(a);
  }

  /** Cmp is the order of the exact values. */
  lemma CmpIsValueOrder(a: string, b: string)
    requires Canonical(a) && Canonical(b)
    ensures Cmp(a, b) == (if Value(a) < Value(b) then -1 else if Value(a) == Value(b) then 0 else 1)
  {
    var scale := if Scale(a) >= Scale(b) then Scale(a) else Scale(b);
    ScaledIntIsExact(a, scale);
    ScaledIntIsExact(b, scale);
    ScaledOrder(ScaledInt(a, scale), ScaledInt(b, scale), scale);
  }

  // ------------------------------------------------------------ one string per value

  lemma DigitsOfCanonical(l: Literal)
    requires CanonicalLiteral(l)
    ensures var d := l.whole + l.Fraction();
            && AllDigits(d) && DigitsVal(d) > 0
            && (l.frac.Some? ==> DigitsVal(d) % 10 != 0)
            && DigitsVal(d) < Pow10(|d|)
            && (l.whole != "0" ==> DigitsVal(d) >= Pow10(|d| - 1))
            && (l.whole == "0" ==> DigitsVal(d) < Pow10(|d| - 1))
  {
    var d := l.whole + l.Fraction();
    DigitsBound(d);
    LeadingDigit(d);
    assert d[0] == l.whole[0];
    if l.frac.Some? {
      LastDigit(d);
      assert d[|d| - 1] == l.frac.value[|l.frac.value| - 1];
    }
  }

  lemma LeadingDigit(d: string)
    requires d != "" && AllDigits(d)
    ensures d[0] != '0' ==> DigitsVal(d) >= Pow10(|d| - 1)
    ensures d[0] == '0' ==> DigitsVal(d) < Pow10(|d| - 1)
  {
    HeadDigit(d);
    DigitsBound(d[1..]);
  }

  lemma LastDigit(d: string)
    requires d != "" && AllDigits(d)
    ensures DigitsVal(d) % 10 == DigitOf(d[|d| - 1])
  {
  }

  lemma SameScale(l1: Literal, l2: Literal)
    requires CanonicalLiteral(l1) && CanonicalLiteral(l2) && l1.Value() == l2.Value()
    requires |l1.Fraction()| <= |l2.Fraction()|
    ensures |l1.Fraction()| == |l2.Fraction()|
    ensures l1.neg == l2.neg && DigitsVal(l1.whole + l1.Fraction()) == DigitsVal(l2.whole + l2.Fraction())
  {
    DigitsOfCanonical(l1);
    DigitsOfCanonical(l2);
    var k := |l2.Fraction()| - |l1.Fraction()|;
    var n1, n2 := DigitsVal(l1.whole + l1.Fraction()), DigitsVal(l2.whole + l2.Fraction());
    EqualScaled(l1.neg, n1, l2.neg, n2, |l1.Fraction()|, k);
    if k > 0 {
      TenDivides(n1, k);
      assert false;
    }
  }

  lemma EqualScaled(neg1: bool, n1: nat, neg2: bool, n2: nat, scale: nat, k: nat)
    requires n1 > 0 && n2 > 0
    requires Scaled(Signed(neg1, n1), scale) == Scaled(Signed(neg2, n2), scale + k)
    ensures neg1 == neg2 && n2 == n1 * Pow10(k)
  {
    ScaledShift(Signed(neg1, n1), scale, k);
    Negated(neg1, n1, Pow10(k));
    ScaledOrder(Signed(neg1, n1 * Pow10(k)), Signed(neg2, n2), scale + k);
  }

  lemma TenDivides(n: nat, k: nat)
    requires k > 0
    ensures n * Pow10(k) % 10 == 0
  {
    var m := n * Pow10(k - 1);
    Regroup(n, 10, Pow10(k - 1));
    Regroup(10, n, Pow10(k - 1));
    assert n * Pow10(k) == 10 * m;
  }

  lemma SameLiteral(l1: Literal, l2: Literal)
    requires CanonicalLiteral(l1) && CanonicalLiteral(l2) && l1.Value() == l2.Value()
    ensures l1 == l2
  {
    if |l1.Fraction()| <= |l2.Fraction()| { SameScale(l1, l2); } else { SameScale(l2, l1); }
    DigitsOfCanonical(l1);
    DigitsOfCanonical(l2);
    var d1, d2 := l1.whole + l1.Fraction(), l2.whole + l2.Fraction();
    if |d1| < |d2| { Pow10Mono(|d1|, |d2| - 1); }
    if |d2| < |d1| { Pow10Mono(|d2|, |d1| - 1); }
    if |d1| == |d2| { DigitsInjective(d1, d2); }
    assert |d1| == |d2|;
    assert l1.whole == d1[..|l1.whole|] && l2.whole == d2[..|l2.whole|];
    assert l1.Fraction() == d1[|l1.whole|..] && l2.Fraction() == d2[|l2.whole|..];
  }

  /** Amounts with equal values are the same string, so == on them is numeric equality. */
  lemma CanonicalIsUnique(a: string, b: string)
    requires Canonical(a) && Canonical(b)
    ensures a == b <==> Value(a) == Value(b)
  {
    if Value(a) == Value(b) {
      if a != "" && b != "" {
        LiteralReads(a);
        LiteralReads(b);
        SameLiteral(LiteralOf(a), LiteralOf(b));
      } else if a != "" {
        NonZero(a);
      } else if b != "" {
        NonZero(b);
      }
    }
  }

  lemma NonZero(a: string)
    requires Canonical(a) && a != ""
    ensures Value(a) != 0.0
    ensures IsNegative(a) <==> Value(a) < 0.0
  {
    var l := LiteralOf(a);
    LiteralReads(a);
    PiecesOf(a);
    DigitsOfCanonical(l);
    var n, sc := DigitsVal(l.whole + l.Fraction()), |l.Fraction()|;
    ZeroValue(sc);
    ScaledOrder(Signed(l.neg, n), 0, sc);
  }

  /** Parsing what String prints gives the amount back. */
  lemma ParseOfString(a: string, canon: string, ok: bool)
    requires Canonical(a) && IsCanonicalization(String(a), canon, ok)
    ensures ok && canon == a
  {
    LiteralReads(a);
    ReadIsSpelled(String(a), LiteralOf(a));
    CanonicalIsUnique(canon, a);
  }

  /** Neg stays canonical and negates the exact value. */
  lemma NegNegates(a: string)
    requires Canonical(a)
    ensures Canonical(Neg(a)) && Value(Neg(a)) == -Value(a) && Neg(Neg(a)) == a
  {
    if a != "" {
      var l := LiteralOf(a);
      LiteralReads(a);
      NegText(l);
      NegLiteral(l);
      SpelledIsRead(l.(neg := !l.neg));
      assert a == l.Text();
    }
  }

  lemma NegLiteral(l: Literal)
    requires CanonicalLiteral(l)
    ensures CanonicalLiteral(l.(neg := !l.neg)) && l.(neg := !l.neg).Value() == -l.Value()
  {
    assert l.(neg := !l.neg).Fraction() == l.Fraction();
    ScaledSum(Signed(l.neg, DigitsVal(l.whole + l.Fraction())), 0, |l.Fraction()|);
  }

  lemma NegText(l: Literal)
    requires l.Valid()
    ensures Neg(l.Text()) == l.(neg := !l.neg).Text() && Neg(Neg(l.Text())) == l.Text()
  {
    MantissaIsRead(l);
    var u := l.Unsigned();
    assert u[0] == l.Mantissa()[0] && l.(neg := !l.neg).Unsigned() == u;
    assert "-" + u != "" && ("-" + u)[1..] == u;
    assert "" + u == u;
  }
}
