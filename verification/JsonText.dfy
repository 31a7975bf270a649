/** `JSON.stringify` of a string (section 7 of RFC 8259, with the well-formed escapes of ECMA-262). */
module JsonText {
  import opened Utf16

  const QUOTE: Unit := 0x22
  const BACKSLASH: Unit := 0x5C

  function HexUnit(d: int): Unit
    requires 0 <= d < 16
  {
    if d < 10 then 0x30 + d else 0x61 + d - 10
  }

  /** `\uXXXX` in lower-case hexadecimal. */
  function UnicodeEscape(u: Unit): (r: Str)
    ensures |r| == 6 && r[0] == BACKSLASH && r[1] == 0x75
  {
    [BACKSLASH, 0x75, HexUnit(u / 0x1000), HexUnit(u / 0x100 % 16), HexUnit(u / 0x10 % 16), HexUnit(u % 16)]
  }

  /** The letter of a two-character escape, or 0. */
  function ShortEscape(u: Unit): Unit {
    if u == QUOTE || u == BACKSLASH then u
    else if u == 8 then 0x62
    else if u == 9 then 0x74
    else if u == 10 then 0x6E
    else if u == 12 then 0x66
    else if u == 13 then 0x72
    else 0
  }

  /** One code unit that is not part of a surrogate pair. */
  function EscapeUnit(u: Unit): (r: Str)
    ensures r != []
  {
    if ShortEscape(u) != 0 then [BACKSLASH, ShortEscape(u)]
    else if u < 0x20 || IsHigh(u) || IsLow(u) then UnicodeEscape(u)
    else [u]
  }

  function QuoteBody(s: Str): Str {
    if s == [] then []
    else if PairAt0(s) then s[..2] + QuoteBody(s[2..])
    else EscapeUnit(s[0]) + QuoteBody(s[1..])
  }

  function Quote(s: Str): (r: Str)
    ensures |r| == |QuoteBody(s)| + 2
  {
    [QUOTE] + QuoteBody(s) + [QUOTE]
  }

  // ---------------------------------------------------------------------------
  // lengths add up, except across a split surrogate pair
  // ---------------------------------------------------------------------------

  /** Concatenation saves exactly ten characters when the cut splits a surrogate pair, and none otherwise. */
  lemma {:induction false} QuoteLengthAdds(a: Str, b: Str)
    ensures |QuoteBody(a + b)| + (if SplitsPair(a, b) then 10 else 0) == |QuoteBody(a)| + |QuoteBody(b)|
    decreases |a|
  {
    if a == [] {
      assert a + b == b;
    } else if PairAt0(a) {
      assert (a + b)[2..] == a[2..] + b && (a + b)[..2] == a[..2];
      QuoteLengthAdds(a[2..], b);
    } else if |a| == 1 && SplitsPair(a, b) {
      assert (a + b)[..2] == [a[0], b[0]] && (a + b)[2..] == b[1..];
      assert a[1..] == [];
      assert !PairAt0(b);
      assert |EscapeUnit(a[0])| == 6 && |EscapeUnit(b[0])| == 6;
    } else {
      assert (a + b)[1..] == a[1..] + b;
      QuoteLengthAdds(a[1..], b);
    }
  }

  // ---------------------------------------------------------------------------
  // unambiguity
  // ---------------------------------------------------------------------------

  /** What the first encoding step of a non-empty string consumes. */
  function HeadUnits(s: Str): Str
    requires s != []
  {
    if PairAt0(s) then s[..2] else s[..1]
  }

  function HeadText(s: Str): Str
    requires s != []
  {
    if PairAt0(s) then s[..2] else EscapeUnit(s[0])
  }

  function HexValue(u: Unit): int { if u < 0x61 then u - 0x30 else u - 0x61 + 10 }

  lemma FourDigits(n: int)
    requires 0 <= n < 0x10000
    ensures n == n / 0x1000 * 0x1000 + n / 0x100 % 16 * 0x100 + n / 0x10 % 16 * 0x10 + n % 16
  {
    assert n / 0x1000 == n / 0x10 / 0x10 / 0x10 && n / 0x100 == n / 0x10 / 0x10;
  }

  function ReadEscape(e: Str): int
    requires |e| == 6
  {
    HexValue(e[2]) * 0x1000 + HexValue(e[3]) * 0x100 + HexValue(e[4]) * 0x10 + HexValue(e[5])
  }

  lemma HexRoundTrip(u: Unit)
    ensures ReadEscape(UnicodeEscape(u)) == u
  {
    FourDigits(u);
  }

  /** No head text is a proper prefix of another, and none starts like the closing quote. */
  lemma HeadUnambiguous(a: Str, b: Str, x: Str, y: Str)
    requires a != [] && b != []
    requires HeadText(a) + x == HeadText(b) + y
    ensures HeadUnits(a) == HeadUnits(b) && x == y
  {
    var s, t := HeadText(a) + x, HeadText(b) + y;
    assert s[0] == t[0];
    assert s[0] == HeadText(a)[0] && t[0] == HeadText(b)[0];
    if PairAt0(a) || PairAt0(b) {
      assert PairAt0(a) && PairAt0(b);
      assert s[1] == a[1] && t[1] == b[1];
      assert s[2..] == x && t[2..] == y;
    } else if s[0] == BACKSLASH {
      assert s[1] == HeadText(a)[1] && t[1] == HeadText(b)[1];
      if |HeadText(a)| == 2 {
        assert |HeadText(b)| == 2;
        assert s[2..] == x && t[2..] == y;
      } else {
        assert |HeadText(b)| == 6;
        assert HeadText(a) == s[..6] && HeadText(b) == t[..6];
        HexRoundTrip(a[0]);
        HexRoundTrip(b[0]);
        assert s[6..] == x && t[6..] == y;
      }
    } else {
      assert s[1..] == x && t[1..] == y;
    }
  }

  /** A string body with its closing quote, followed by `x`. */
  function Closed(s: Str, x: Str): Str { QuoteBody(s) + [QUOTE] + x }

  lemma ClosedSplits(s: Str, x: Str)
    requires s != []
    ensures Closed(s, x) == HeadText(s) + Closed(s[|HeadUnits(s)|..], x)
    ensures Closed(s, x)[0] != QUOTE
  {
  }

  /** A string body, its closing quote and anything after it can be taken apart in one way only. */
  lemma {:induction false} QuoteBodyUnambiguous(a: Str, b: Str, x: Str, y: Str)
    requires Closed(a, x) == Closed(b, y)
    ensures a == b && x == y
    decreases |a|
  {
    assert b == [] ==> Closed(b, y)[0] == QUOTE;
    if a != [] { ClosedSplits(a, x); }
    if b != [] { ClosedSplits(b, y); }
    if a == [] {
      assert Closed(a, x)[0] == QUOTE;
      assert Closed(a, x)[1..] == x && Closed(b, y)[1..] == y;
    } else {
      var ra, rb := a[|HeadUnits(a)|..], b[|HeadUnits(b)|..];
      HeadUnambiguous(a, b, Closed(ra, x), Closed(rb, y));
      QuoteBodyUnambiguous(ra, rb, x, y);
    }
  }

  lemma QuoteUnambiguous(a: Str, b: Str, x: Str, y: Str)
    requires Quote(a) + x == Quote(b) + y
    ensures a == b && x == y
  {
    var s, t := Quote(a) + x, Quote(b) + y;
    assert s[1..] == Closed(a, x) && t[1..] == Closed(b, y);
    QuoteBodyUnambiguous(a, b, x, y);
  }

  /** The text of a string never holds a lone surrogate, so its UTF-8 form loses nothing. */
  lemma {:induction false} QuoteWellFormed(s: Str)
    ensures WellFormed(Quote(s))
  {
    QuoteBodyWellFormed(s);
    assert Quote(s)[1..] == QuoteBody(s) + [QUOTE];
    WellFormedConcat(QuoteBody(s), [QUOTE]);
  }

  lemma {:induction false} QuoteBodyWellFormed(s: Str)
    ensures WellFormed(QuoteBody(s))
  {
    if s != [] {
      var rest := s[|HeadUnits(s)|..];
      QuoteBodyWellFormed(rest);
      HeadTextWellFormed(s);
      WellFormedConcat(HeadText(s), QuoteBody(rest));
    }
  }

  lemma HeadTextWellFormed(s: Str)
    requires s != []
    ensures WellFormed(HeadText(s))
  {
    if PairAt0(s) {
      assert s[..2][2..] == [];
    } else if |HeadText(s)| != 1 {
      PlainIsWellFormed(HeadText(s));
    }
  }
}
