/** The `raw:` escape of the reference table: base64url over UTF-8. */
module Literals {
  import opened Options
  import opened Utf16

  /** One of the 64 characters of the URL-safe alphabet (section 5 of RFC 4648). */
  function Sextet(n: int): Unit
    requires 0 <= n < 64
  {
    if n < 26 then 0x41 + n
    else if n < 52 then 0x61 + (n - 26)
    else if n < 62 then 0x30 + (n - 52)
    else if n == 62 then 0x2D else 0x5F
  }

  function Unsextet(u: Unit): (n: int)
    ensures 0 <= n < 64
  {
    if 0x41 <= u < 0x5B then u - 0x41
    else if 0x61 <= u < 0x7B then u - 0x61 + 26
    else if 0x30 <= u < 0x3A then u - 0x30 + 52
    else if u == 0x2D then 62
    else if u == 0x5F then 63
    else 0
  }

  /** Unpadded base64url. */
  function Base64(b: seq<Byte>): Str {
    if b == [] then []
    else if |b| == 1 then [Sextet(b[0] / 4), Sextet(b[0] % 4 * 16)]
    else if |b| == 2 then [Sextet(b[0] / 4), Sextet(b[0] % 4 * 16 + b[1] / 16), Sextet(b[1] % 16 * 4)]
    else
      [Sextet(b[0] / 4), Sextet(b[0] % 4 * 16 + b[1] / 16), Sextet(b[1] % 16 * 4 + b[2] / 64), Sextet(b[2] % 64)]
      + Base64(b[3..])
  }

  /** Exact on what `Base64` writes; of any other text the caller only learns that it is not canonical. */
  function FromBase64(s: Str): seq<Byte> {
    if |s| < 2 then []
    else
      var a, b := Unsextet(s[0]), Unsextet(s[1]);
      var first := a * 4 + b / 16;
      if |s| == 2 then [first]
      else
        var c := Unsextet(s[2]);
        var second := b % 16 * 16 + c / 4;
        if |s| == 3 then [first, second]
        else [first, second, c % 4 * 64 + Unsextet(s[3])] + FromBase64(s[4..])
  }

  lemma SextetRoundTrip(n: int)
    requires 0 <= n < 64
    ensures Unsextet(Sextet(n)) == n
  {
  }

  lemma SixBits(x: Byte, y: Byte, z: Byte)
    ensures x / 4 * 4 + (x % 4 * 16 + y / 16) / 16 == x
    ensures (x % 4 * 16 + y / 16) % 16 * 16 + (y % 16 * 4 + z / 64) / 4 == y
    ensures (y % 16 * 4 + z / 64) % 4 * 64 + z % 64 == z
  {
  }

  lemma {:induction false} Base64RoundTrip(b: seq<Byte>)
    ensures FromBase64(Base64(b)) == b
  {
    hide Sextet, Unsextet;
    if b == [] {
    } else {
      var x, y, z := b[0], if |b| > 1 then b[1] else 0, if |b| > 2 then b[2] else 0;
      SixBits(x, y, z);
      SextetRoundTrip(x / 4);
      SextetRoundTrip(x % 4 * 16 + y / 16);
      SextetRoundTrip(y % 16 * 4 + z / 64);
      SextetRoundTrip(z % 64);
      if |b| >= 3 {
        Base64RoundTrip(b[3..]);
        assert Base64(b)[4..] == Base64(b[3..]);
        assert b == [x, y, z] + b[3..];
      }
    }
  }

  const AT: Unit := 0x40

  /** `raw:` */
  const RAW: Str := [0x72, 0x61, 0x77, 0x3A]

  predicate StartsRaw(s: Str) { |s| >= 4 && s[..4] == RAW }

  /** A value that could be taken for an alias or an escape. */
  predicate NeedsEscaping(s: Str) { (s != [] && s[0] == AT) || StartsRaw(s) }

  function LiteralValue(s: Str): Str { if NeedsEscaping(s) then RAW + Base64(Utf8(s)) else s }

  datatype Fault = InvalidArgument | HandleExpired | ResourceLimit

  datatype Result<+T> = Ok(value: T) | Err(fault: Fault)

  function DecodeLiteral(s: Str): Result<Str>
    requires StartsRaw(s)
  {
    var encoded := s[4..];
    if encoded == [] then Err(InvalidArgument)
    else
      var decoded := FromUtf8(FromBase64(encoded));
      if Base64(Utf8(decoded)) != encoded then Err(InvalidArgument)
      else if !NeedsEscaping(decoded) then Err(InvalidArgument)
      else Ok(decoded)
  }

  /** Replacing lone surrogates cannot turn a value into one that needs no escape, or back. */
  lemma EscapingSurvives(s: Str)
    requires NeedsEscaping(s)
    ensures NeedsEscaping(ToWellFormed(s))
  {
    if s[0] == AT {
      assert ToWellFormed(s)[0] == AT;
    } else {
      assert s[0] == 0x72 && s[1] == 0x61 && s[2] == 0x77 && s[3] == 0x3A by { assert s[..4] == RAW; }
      var a := s[1..];
      var b := a[1..];
      assert ToWellFormed(b) == [b[0]] + ToWellFormed(b[1..]) && ToWellFormed(b[1..])[0] == 0x3A;
      assert ToWellFormed(a) == [a[0]] + ToWellFormed(b);
      assert ToWellFormed(s) == [s[0]] + ToWellFormed(a);
      assert ToWellFormed(s)[..4] == RAW;
    }
  }

  lemma {:induction false} BytesOfRead(s: Str)
    ensures Utf8(ToWellFormed(s)) == Utf8(s)
  {
    if s == [] {
    } else if PairAt0(s) {
      BytesOfRead(s[2..]);
      assert ToWellFormed(s)[2..] == ToWellFormed(s[2..]);
    } else {
      BytesOfRead(s[1..]);
      assert ToWellFormed(s)[1..] == ToWellFormed(s[1..]);
    }
  }

  /** Exactly the escapes of well-formed values that need one are accepted, and they decode to that value. */
  lemma LiteralExact(s: Str, d: Str)
    requires StartsRaw(s)
    ensures DecodeLiteral(s) == Ok(d) <==> (NeedsEscaping(d) && WellFormed(d) && s == RAW + Base64(Utf8(d)))
  {
    assert s == RAW + s[4..];
    Utf8RoundTrip(d);
    Base64RoundTrip(Utf8(d));
    ToWellFormedIdentity(d);
    assert (RAW + Base64(Utf8(d)))[4..] == Base64(Utf8(d));
  }

  /** The escape loses a value exactly when the value has a lone surrogate and needs escaping. */
  lemma LiteralRoundTrip(s: Str)
    ensures StartsRaw(LiteralValue(s)) <==> NeedsEscaping(s)
    ensures NeedsEscaping(s) ==> DecodeLiteral(LiteralValue(s)) == Ok(ToWellFormed(s))
    ensures NeedsEscaping(s) ==> (DecodeLiteral(LiteralValue(s)) == Ok(s) <==> WellFormed(s))
  {
    if NeedsEscaping(s) {
      assert LiteralValue(s)[..4] == RAW;
      EscapingSurvives(s);
      BytesOfRead(s);
      ReadIsWellFormed(s);
      LiteralExact(LiteralValue(s), ToWellFormed(s));
      ToWellFormedIdentity(s);
    }
  }

  lemma {:induction false} ReadIsWellFormed(s: Str)
    ensures WellFormed(ToWellFormed(s))
  {
    if s == [] {
    } else if PairAt0(s) {
      ReadIsWellFormed(s[2..]);
      assert ToWellFormed(s)[2..] == ToWellFormed(s[2..]);
    } else {
      ReadIsWellFormed(s[1..]);
      assert ToWellFormed(s)[1..] == ToWellFormed(s[1..]);
    }
  }
}
