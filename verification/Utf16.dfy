/** JavaScript strings: sequences of UTF-16 code units, and the UTF-8 bytes Node writes for them. */
module Utf16 {
  type Unit = u: int | 0 <= u < 0x10000
  type Str = seq<Unit>
  type Byte = b: int | 0 <= b < 0x100

  predicate IsHigh(u: Unit) { 0xD800 <= u < 0xDC00 }

  predicate IsLow(u: Unit) { 0xDC00 <= u < 0xE000 }

  /** A surrogate pair starts the string. */
  predicate PairAt0(s: Str) { |s| >= 2 && IsHigh(s[0]) && IsLow(s[1]) }

  /** No surrogate stands alone (`String.prototype.isWellFormed`). */
  predicate WellFormed(s: Str) {
    if s == [] then true
    else if PairAt0(s) then WellFormed(s[2..])
    else !IsHigh(s[0]) && !IsLow(s[0]) && WellFormed(s[1..])
  }

  /** The cut between `a` and `b` separates the halves of a surrogate pair. */
  predicate SplitsPair(a: Str, b: Str) {
    a != [] && b != [] && IsHigh(a[|a| - 1]) && IsLow(b[0])
  }

  lemma {:induction false} WellFormedConcat(a: Str, b: Str)
    requires WellFormed(a)
    ensures WellFormed(a + b) <==> WellFormed(b)
  {
    if a == [] {
      assert a + b == b;
    } else if PairAt0(a) {
      assert (a + b)[2..] == a[2..] + b;
      WellFormedConcat(a[2..], b);
    } else {
      assert (a + b)[1..] == a[1..] + b;
      WellFormedConcat(a[1..], b);
    }
  }

  lemma {:induction false} PlainIsWellFormed(s: Str)
    requires forall i | 0 <= i < |s| :: s[i] < 0xD800
    ensures WellFormed(s)
  {
    if s != [] {
      PlainIsWellFormed(s[1..]);
    }
  }

  // ---------------------------------------------------------------------------
  // UTF-8 as `Buffer.from(s, 'utf8')` produces it
  // ---------------------------------------------------------------------------

  /** The scalar value `toString`/`from` substitute for a lone surrogate. */
  const REPLACEMENT: int := 0xFFFD

  function PairValue(hi: Unit, lo: Unit): (c: int)
    requires IsHigh(hi) && IsLow(lo)
    ensures 0x10000 <= c < 0x110000
  {
    0x10000 + (hi - 0xD800) * 0x400 + (lo - 0xDC00)
  }

  /** UTF-8 bytes of one scalar value (RFC 3629, section 3). */
  function ScalarBytes(c: int): (r: seq<Byte>)
    requires 0 <= c < 0x110000
    ensures |r| > 0
  {
    if c < 0x80 then [c]
    else if c < 0x800 then [0xC0 + c / 0x40, 0x80 + c % 0x40]
    else if c < 0x10000 then [0xE0 + c / 0x1000, 0x80 + c / 0x40 % 0x40, 0x80 + c % 0x40]
    else [0xF0 + c / 0x40000, 0x80 + c / 0x1000 % 0x40, 0x80 + c / 0x40 % 0x40, 0x80 + c % 0x40]
  }

  /** Lone surrogates are written as U+FFFD, so this is not injective on all strings. */
  function Utf8(s: Str): seq<Byte> {
    if s == [] then []
    else if PairAt0(s) then ScalarBytes(PairValue(s[0], s[1])) + Utf8(s[2..])
    else if IsHigh(s[0]) || IsLow(s[0]) then ScalarBytes(REPLACEMENT) + Utf8(s[1..])
    else ScalarBytes(s[0]) + Utf8(s[1..])
  }

  /** The units of one scalar value. */
  function ScalarUnits(c: int): (r: Str)
    requires 0 <= c < 0x110000
  {
    if c < 0x10000 then [c] else [0xD800 + (c - 0x10000) / 0x400, 0xDC00 + (c - 0x10000) % 0x400]
  }

  /** Six payload bits of a continuation byte. */
  function Low6(b: int): int { b % 0x40 }

  function Join2(a: int, b: int): int { (a - 0xC0) * 0x40 + Low6(b) }

  function Join3(a: int, b: int, c: int): int { (a - 0xE0) * 0x1000 + Low6(b) * 0x40 + Low6(c) }

  function Join4(a: int, b: int, c: int, d: int): int {
    (a - 0xF0) * 0x40000 + Low6(b) * 0x1000 + Low6(c) * 0x40 + Low6(d)
  }

  /** First scalar of a byte string that starts with a complete sequence, and how many bytes it took. */
  function FirstScalar(b: seq<Byte>): (r: (int, nat))
    ensures 0 <= r.0 < 0x110000 && (b != [] ==> 0 < r.1 <= |b|)
  {
    if b == [] then (0, 0)
    else if b[0] < 0x80 then (b[0], 1)
    else if 0xC0 <= b[0] < 0xE0 && |b| >= 2 then (Join2(b[0], b[1]), 2)
    else if 0xE0 <= b[0] < 0xF0 && |b| >= 3 then (Join3(b[0], b[1], b[2]), 3)
    else if 0xF0 <= b[0] < 0xF5 && |b| >= 4 && Join4(b[0], b[1], b[2], b[3]) < 0x110000 then
      (Join4(b[0], b[1], b[2], b[3]), 4)
    else (REPLACEMENT, 1)
  }

  /** `Buffer.toString('utf8')`, exact on every byte string that is well-formed UTF-8. */
  function FromUtf8(b: seq<Byte>): Str
    decreases |b|
  {
    if b == [] then []
    else var (c, n) := FirstScalar(b); ScalarUnits(c) + FromUtf8(b[n..])
  }

  lemma JoinSplits(c: int)
    requires 0 <= c < 0x110000
    ensures c < 0x800 ==> Join2(0xC0 + c / 0x40, 0x80 + c % 0x40) == c
    ensures c < 0x10000 ==> Join3(0xE0 + c / 0x1000, 0x80 + c / 0x40 % 0x40, 0x80 + c % 0x40) == c
    ensures Join4(0xF0 + c / 0x40000, 0x80 + c / 0x1000 % 0x40, 0x80 + c / 0x40 % 0x40, 0x80 + c % 0x40) == c
  {
    assert c / 0x1000 == c / 0x40 / 0x40 && c / 0x40000 == c / 0x1000 / 0x40;
  }

  lemma FirstScalarRoundTrip(c: int, rest: seq<Byte>)
    requires 0 <= c < 0x110000
    ensures FirstScalar(ScalarBytes(c) + rest) == (c, |ScalarBytes(c)|)
  {
    JoinSplits(c);
    var bytes := ScalarBytes(c);
    var b := bytes + rest;
    assert forall i | 0 <= i < |bytes| :: b[i] == bytes[i];
  }

  lemma PairUnits(hi: Unit, lo: Unit)
    requires IsHigh(hi) && IsLow(lo)
    ensures ScalarUnits(PairValue(hi, lo)) == [hi, lo]
  {
  }

  /** What Node reads back: the string with every lone surrogate replaced by U+FFFD. */
  function ToWellFormed(s: Str): Str {
    if s == [] then []
    else if PairAt0(s) then s[..2] + ToWellFormed(s[2..])
    else if IsHigh(s[0]) || IsLow(s[0]) then [REPLACEMENT] + ToWellFormed(s[1..])
    else [s[0]] + ToWellFormed(s[1..])
  }

  lemma {:induction false} Utf8RoundTrip(s: Str)
    ensures FromUtf8(Utf8(s)) == ToWellFormed(s)
    decreases |s|
  {
    if s == [] {
    } else {
      var c := if PairAt0(s) then PairValue(s[0], s[1]) else if IsHigh(s[0]) || IsLow(s[0]) then REPLACEMENT else s[0];
      var rest := if PairAt0(s) then s[2..] else s[1..];
      FirstScalarRoundTrip(c, Utf8(rest));
      assert (ScalarBytes(c) + Utf8(rest))[|ScalarBytes(c)|..] == Utf8(rest);
      Utf8RoundTrip(rest);
      if PairAt0(s) {
        PairUnits(s[0], s[1]);
        assert s[..2] == [s[0], s[1]];
      }
    }
  }

  /** The replacement is visible exactly on strings that have a lone surrogate. */
  lemma {:induction false} ToWellFormedIdentity(s: Str)
    ensures ToWellFormed(s) == s <==> WellFormed(s)
    ensures |ToWellFormed(s)| == |s|
  {
    if s == [] {
    } else if PairAt0(s) {
      ToWellFormedIdentity(s[2..]);
      assert s == s[..2] + s[2..];
      assert ToWellFormed(s)[2..] == ToWellFormed(s[2..]);
    } else {
      ToWellFormedIdentity(s[1..]);
      assert s == [s[0]] + s[1..];
      assert ToWellFormed(s)[1..] == ToWellFormed(s[1..]);
      assert ToWellFormed(s)[0] == if IsHigh(s[0]) || IsLow(s[0]) then REPLACEMENT else s[0];
    }
  }

  /** On well-formed strings the bytes determine the string. */
  lemma Utf8Injective(a: Str, b: Str)
    requires WellFormed(a) && WellFormed(b) && Utf8(a) == Utf8(b)
    ensures a == b
  {
    Utf8RoundTrip(a);
    Utf8RoundTrip(b);
    ToWellFormedIdentity(a);
    ToWellFormedIdentity(b);
  }

  lemma {:induction false} Utf8Concat(a: Str, b: Str)
    requires WellFormed(a)
    ensures Utf8(a + b) == Utf8(a) + Utf8(b)
  {
    if a == [] {
      assert a + b == b;
    } else if PairAt0(a) {
      assert (a + b)[2..] == a[2..] + b;
      Utf8Concat(a[2..], b);
    } else {
      assert (a + b)[1..] == a[1..] + b;
      Utf8Concat(a[1..], b);
    }
  }
}
