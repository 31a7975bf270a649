/** Decimal digits, and `Number::toString` of ECMAScript on top of them. */
module Decimal {
  import opened Utf16

  type Digit = d: int | 0 <= d < 10

  const ZERO: Unit := 0x30
  const MINUS: Unit := 0x2D
  const PLUS: Unit := 0x2B
  const POINT: Unit := 0x2E
  const EXPONENT: Unit := 0x65

  predicate IsDigitUnit(u: Unit) { ZERO <= u < ZERO + 10 }

  /** The text of a digit sequence. */
  function Text(ds: seq<Digit>): (r: Str)
    ensures |r| == |ds| && forall i | 0 <= i < |r| :: r[i] == ZERO + ds[i]
  {
    seq(|ds|, i requires 0 <= i < |ds| => ZERO + ds[i])
  }

  function Digits(s: Str): (r: seq<Digit>)
    ensures |r| == |s|
  {
    seq(|s|, i requires 0 <= i < |s| => if IsDigitUnit(s[i]) then s[i] - ZERO else 0)
  }

  lemma DigitsOfText(ds: seq<Digit>)
    ensures Digits(Text(ds)) == ds
    ensures forall u | u in Text(ds) :: IsDigitUnit(u)
  {
  }

  function NatDigits(n: nat): (r: seq<Digit>)
    ensures |r| > 0 && (n > 0 ==> r[0] != 0)
  {
    if n < 10 then [n] else NatDigits(n / 10) + [n % 10]
  }

  function Value(ds: seq<Digit>): nat {
    if ds == [] then 0 else Value(ds[..|ds| - 1]) * 10 + ds[|ds| - 1]
  }

  lemma {:induction false} ValueOfNatDigits(n: nat)
    ensures Value(NatDigits(n)) == n
  {
    if n >= 10 {
      ValueOfNatDigits(n / 10);
      assert NatDigits(n)[..|NatDigits(n)| - 1] == NatDigits(n / 10);
    } else {
      assert NatDigits(n)[..0] == [];
    }
  }

  /** `String(n)` for a non-negative integer. */
  function NatText(n: nat): Str { Text(NatDigits(n)) }

  /** `/^(0|[1-9][0-9]*)$/`: the only decimal spelling the cursor parsers accept. */
  predicate IsNatText(s: Str) {
    s != [] && (forall i | 0 <= i < |s| :: IsDigitUnit(s[i])) && (|s| > 1 ==> s[0] != ZERO)
  }

  function ParseNat(s: Str): nat { Value(Digits(s)) }

  lemma NatTextRoundTrip(n: nat)
    ensures IsNatText(NatText(n)) && ParseNat(NatText(n)) == n
  {
    ValueOfNatDigits(n);
    DigitsOfText(NatDigits(n));
    if n >= 10 {
      assert |NatDigits(n)| > 1 && NatDigits(n)[0] != 0;
    }
  }

  // ---------------------------------------------------------------------------
  // Number::toString (ECMA-262, section 6.1.6.1.20)
  // ---------------------------------------------------------------------------

  /**
   * A JavaScript number. A finite non-zero double is represented by its shortest
   * decimal: sign, digits d1..dk with no zero at either end, and the position of
   * the decimal point, so that the value is 0.d1..dk * 10^point.
   */
  datatype Number =
    | NaN
    | Infinite(negative: bool)
    | Zero(negative: bool)
    | Finite(negative: bool, digits: seq<Digit>, point: int)
  {
    predicate Valid() { Finite? ==> ShortestDigits(digits) }

    predicate IsFinite() { Zero? || Finite? }
  }

  predicate ShortestDigits(ds: seq<Digit>) { ds != [] && ds[0] != 0 && ds[|ds| - 1] != 0 }

  function Zeros(n: nat): (r: seq<Digit>)
    ensures |r| == n && forall i | 0 <= i < n :: r[i] == 0
  {
    seq(n, i => 0)
  }

  function ExponentText(e: int): Str {
    if e < 0 then [EXPONENT, MINUS] + NatText(-e) else [EXPONENT, PLUS] + NatText(e)
  }

  function Dotted(fraction: seq<Digit>): Str { if fraction == [] then [] else [POINT] + Text(fraction) }

  function Notation(whole: seq<Digit>, fraction: seq<Digit>, exponent: Str): Str {
    Text(whole) + Dotted(fraction) + exponent
  }

  /** Plain notation between 10^-7 and 10^21, exponential outside. */
  function Layout(ds: seq<Digit>, point: int): Str
    requires ShortestDigits(ds)
  {
    if |ds| <= point <= 21 then Notation(ds + Zeros(point - |ds|), [], [])
    else if 0 < point <= 21 then Notation(ds[..point], ds[point..], [])
    else if -6 < point <= 0 then Notation([0], Zeros(-point) + ds, [])
    else Notation([ds[0]], ds[1..], ExponentText(point - 1))
  }

  function NumberText(n: Number): Str
    requires n.Valid() && n.IsFinite()
  {
    if n.Zero? then [ZERO] else (if n.negative then [MINUS] else []) + Layout(n.digits, n.point)
  }

  // -- reading it back ---------------------------------------------------------------

  function IndexOf(s: Str, u: Unit): (r: nat)
    ensures r <= |s| && (r < |s| ==> s[r] == u) && forall i | 0 <= i < r :: s[i] != u
  {
    if s == [] || s[0] == u then 0 else 1 + IndexOf(s[1..], u)
  }

  lemma IndexOfIs(s: Str, u: Unit, k: nat)
    requires k <= |s| && (k < |s| ==> s[k] == u) && forall i | 0 <= i < k :: s[i] != u
    ensures IndexOf(s, u) == k
  {
  }

  function StripLeading(ds: seq<Digit>): seq<Digit> {
    if ds == [] || ds[0] != 0 then ds else StripLeading(ds[1..])
  }

  function StripTrailing(ds: seq<Digit>): seq<Digit> {
    if ds == [] || ds[|ds| - 1] != 0 then ds else StripTrailing(ds[..|ds| - 1])
  }

  lemma {:induction false} StripPadding(ds: seq<Digit>, lead: nat, trail: nat)
    requires ShortestDigits(ds)
    ensures StripLeading(Zeros(lead) + ds + Zeros(trail)) == ds + Zeros(trail)
    ensures StripTrailing(ds + Zeros(trail)) == ds
    decreases lead + trail
  {
    var all := Zeros(lead) + ds + Zeros(trail);
    if lead > 0 {
      StripPadding(ds, lead - 1, trail);
      assert all[1..] == Zeros(lead - 1) + ds + Zeros(trail);
    } else if trail > 0 {
      StripPadding(ds, 0, trail - 1);
      assert all == ds + Zeros(trail);
      assert (ds + Zeros(trail))[..|ds| + trail - 1] == ds + Zeros(trail - 1);
    } else {
      assert all == ds && ds + Zeros(0) == ds;
    }
  }

  function ReadExponent(s: Str): int {
    if s == [] then 0 else if s[0] == MINUS then 0 - ParseNat(s[1..]) else ParseNat(s[1..])
  }

  /** The text before and after the first `u`; all of it if there is none. */
  function Cut(s: Str, u: Unit): (Str, Str) {
    var i := IndexOf(s, u);
    if i < |s| then (s[..i], s[i + 1..]) else (s, [])
  }

  /** Significant digits and decimal point of `whole.fraction` times ten to the `exponent`. */
  function Normalise(whole: seq<Digit>, fraction: seq<Digit>, exponent: int): (seq<Digit>, int) {
    var all := whole + fraction;
    var rest := StripLeading(all);
    (StripTrailing(rest), |whole| - (|all| - |rest|) + exponent)
  }

  function ReadLayout(s: Str): (seq<Digit>, int) {
    var (mantissa, exponent) := Cut(s, EXPONENT);
    var (whole, fraction) := Cut(mantissa, POINT);
    Normalise(Digits(whole), Digits(fraction), ReadExponent(exponent))
  }

  lemma ReadExponentText(e: int)
    ensures ReadExponent(ExponentText(e)[1..]) == e
  {
    var n := if e < 0 then -e else e;
    NatTextRoundTrip(n);
    assert ExponentText(e)[1..][1..] == NatText(n);
  }

  lemma CutAt(x: Str, u: Unit, y: Str)
    requires u !in x
    ensures Cut(x + [u] + y, u) == (x, y) && Cut(x, u) == (x, [])
  {
    var s := x + [u] + y;
    IndexOfIs(s, u, |x|);
    IndexOfIs(x, u, |x|);
    assert s[..|x|] == x && s[|x| + 1..] == y;
  }

  lemma TextHas(ds: seq<Digit>)
    ensures EXPONENT !in Text(ds) && POINT !in Text(ds)
  {
  }

  lemma NormaliseParts(whole: seq<Digit>, fraction: seq<Digit>, exponent: int, ds: seq<Digit>, lead: nat, trail: nat)
    requires ShortestDigits(ds) && whole + fraction == Zeros(lead) + ds + Zeros(trail)
    ensures Normalise(whole, fraction, exponent) == (ds, |whole| - lead + exponent)
  {
    StripPadding(ds, lead, trail);
  }

  lemma CutExponent(mantissa: Str, tail: Str)
    requires EXPONENT !in mantissa && (tail == [] || tail[0] == EXPONENT)
    ensures Cut(mantissa + tail, EXPONENT) == (mantissa, if tail == [] then [] else tail[1..])
  {
    if tail == [] {
      CutAt(mantissa, EXPONENT, []);
      assert mantissa + tail == mantissa;
    } else {
      CutAt(mantissa, EXPONENT, tail[1..]);
      assert mantissa + tail == mantissa + [EXPONENT] + tail[1..];
    }
  }

  lemma CutPoint(whole: seq<Digit>, fraction: seq<Digit>)
    ensures Cut(Text(whole) + Dotted(fraction), POINT) == (Text(whole), Text(fraction))
    ensures EXPONENT !in Text(whole) + Dotted(fraction)
  {
    TextHas(whole);
    TextHas(fraction);
    CutAt(Text(whole), POINT, Text(fraction));
    if fraction == [] {
      assert Text(whole) + Dotted(fraction) == Text(whole) && Text(fraction) == [];
    } else {
      assert Text(whole) + Dotted(fraction) == Text(whole) + [POINT] + Text(fraction);
    }
  }

  /** One lemma for all notations: the text is integer digits, dotted fraction digits and exponent. */
  lemma ReadParts(whole: seq<Digit>, fraction: seq<Digit>, tail: Str)
    requires tail == [] || tail[0] == EXPONENT
    ensures ReadLayout(Notation(whole, fraction, tail))
         == Normalise(whole, fraction, if tail == [] then 0 else ReadExponent(tail[1..]))
  {
    hide Text, Dotted, Digits, Cut, Normalise, ParseNat;
    DigitsOfText(whole);
    DigitsOfText(fraction);
    CutPoint(whole, fraction);
    CutExponent(Text(whole) + Dotted(fraction), tail);
  }

  lemma ReadNotation(whole: seq<Digit>, fraction: seq<Digit>, exponent: Str, ds: seq<Digit>, lead: nat, trail: nat)
    requires ShortestDigits(ds) && whole + fraction == Zeros(lead) + ds + Zeros(trail)
    requires exponent == [] || exponent[0] == EXPONENT
    ensures ReadLayout(Notation(whole, fraction, exponent))
         == (ds, |whole| - lead + if exponent == [] then 0 else ReadExponent(exponent[1..]))
  {
    hide ReadLayout, Notation, ReadExponent, Normalise, ShortestDigits, Zeros;
    ReadParts(whole, fraction, exponent);
    NormaliseParts(whole, fraction, if exponent == [] then 0 else ReadExponent(exponent[1..]), ds, lead, trail);
  }

  lemma ReadPadded(ds: seq<Digit>, point: int)
    requires ShortestDigits(ds) && |ds| <= point
    ensures ReadLayout(Notation(ds + Zeros(point - |ds|), [], [])) == (ds, point)
  {
    hide ReadLayout, Notation;
    var pad := point - |ds|;
    assert ds + Zeros(pad) + [] == Zeros(0) + ds + Zeros(pad);
    ReadNotation(ds + Zeros(pad), [], [], ds, 0, pad);
  }

  lemma ReadSmall(ds: seq<Digit>, point: int)
    requires ShortestDigits(ds) && point <= 0
    ensures ReadLayout(Notation([0], Zeros(-point) + ds, [])) == (ds, point)
  {
    hide ReadLayout, Notation;
    assert [0] + (Zeros(-point) + ds) == Zeros(1 - point) + ds + Zeros(0);
    ReadNotation([0], Zeros(-point) + ds, [], ds, 1 - point, 0);
  }

  lemma ReadExponential(ds: seq<Digit>, point: int)
    requires ShortestDigits(ds)
    ensures ReadLayout(Notation([ds[0]], ds[1..], ExponentText(point - 1))) == (ds, point)
  {
    var tail := ExponentText(point - 1);
    hide ReadLayout, Notation, ReadExponent;
    assert tail != [] && tail[0] == EXPONENT;
    hide ExponentText;
    ReadExponentText(point - 1);
    assert [ds[0]] + ds[1..] == Zeros(0) + ds + Zeros(0);
    ReadNotation([ds[0]], ds[1..], tail, ds, 0, 0);
  }

  /** The layout keeps every digit and the place of the point. */
  lemma ReadLayoutRoundTrip(ds: seq<Digit>, point: int)
    requires ShortestDigits(ds)
    ensures ReadLayout(Layout(ds, point)) == (ds, point)
  {
    hide ExponentText, Notation, ReadExponent, ReadLayout, Zeros;

    if |ds| <= point <= 21 {
      ReadPadded(ds, point);
    } else if 0 < point <= 21 {
      assert ds[..point] + ds[point..] == Zeros(0) + ds + Zeros(0);
      ReadNotation(ds[..point], ds[point..], [], ds, 0, 0);
    } else if -6 < point <= 0 {
      ReadSmall(ds, point);
    } else {
      ReadExponential(ds, point);
    }
  }

  predicate IsNumberUnit(u: Unit) {
    IsDigitUnit(u) || u == MINUS || u == PLUS || u == POINT || u == EXPONENT
  }

  predicate NumberUnits(s: Str) { forall i | 0 <= i < |s| :: IsNumberUnit(s[i]) }

  lemma NotationShape(whole: seq<Digit>, fraction: seq<Digit>, exponent: Str)
    requires whole != [] && NumberUnits(exponent)
    ensures NumberUnits(Notation(whole, fraction, exponent))
    ensures Notation(whole, fraction, exponent) != [] && IsDigitUnit(Notation(whole, fraction, exponent)[0])
  {
  }

  lemma ExponentShape(e: int)
    ensures NumberUnits(ExponentText(e))
  {
  }

  lemma LayoutShape(ds: seq<Digit>, point: int)
    requires ShortestDigits(ds)
    ensures NumberUnits(Layout(ds, point)) && Layout(ds, point) != [] && IsDigitUnit(Layout(ds, point)[0])
  {
    hide Notation, ExponentText, IsDigitUnit;
    assert NumberUnits([]);
    if |ds| <= point <= 21 {
      NotationShape(ds + Zeros(point - |ds|), [], []);
    } else if 0 < point <= 21 {
      NotationShape(ds[..point], ds[point..], []);
    } else if -6 < point <= 0 {
      NotationShape([0], Zeros(-point) + ds, []);
    } else {
      ExponentShape(point - 1);
      NotationShape([ds[0]], ds[1..], ExponentText(point - 1));
    }
  }

  lemma NumberTextShape(n: Number)
    requires n.Valid() && n.IsFinite()
    ensures NumberText(n) != [] && NumberUnits(NumberText(n))
    ensures NumberText(n)[0] == MINUS <==> n.Finite? && n.negative
  {
    if n.Finite? {
      LayoutShape(n.digits, n.point);
      hide Layout;
    }
  }

  /** The text of a number determines it, but for the sign of zero. */
  lemma NumberTextInjective(a: Number, b: Number)
    requires a.Valid() && a.IsFinite() && b.Valid() && b.IsFinite() && NumberText(a) == NumberText(b)
    ensures a == b || (a.Zero? && b.Zero?)
  {
    NumberTextShape(a);
    NumberTextShape(b);
    if a.Finite? { ReadLayoutRoundTrip(a.digits, a.point); }
    if b.Finite? { ReadLayoutRoundTrip(b.digits, b.point); }
    hide Layout;
    ReadZero();
    if a.Finite? && b.Finite? {
      SameLayout(a.negative, Layout(a.digits, a.point), Layout(b.digits, b.point));
    }
  }

  lemma SameLayout(negative: bool, x: Str, y: Str)
    requires (if negative then [MINUS] else []) + x == (if negative then [MINUS] else []) + y
    ensures x == y
  {
    if negative {
      assert ([MINUS] + x)[1..] == x && ([MINUS] + y)[1..] == y;
    } else {
      assert [] + x == x && [] + y == y;
    }
  }

  /** A zero has no significant digits. */
  lemma ReadZero()
    ensures ReadLayout([ZERO]).0 == []
  {
    ReadParts([0], [], []);
    assert Notation([0], [], []) == [ZERO];
    assert [0] + [] == [0] && StripLeading([0]) == StripLeading([0][1..]);
  }
}
