/** Continuation cursors: what is written can be read back, and nothing else is accepted. */
module Cursors {
  import opened Options
  import opened Utf16
  import opened Decimal

  /** `chg_`, `pg_` and `dir_` */
  const CHANGES: Str := [0x63, 0x68, 0x67, 0x5F]
  const PAGE: Str := [0x70, 0x67, 0x5F]
  const DIRECTORY: Str := [0x64, 0x69, 0x72, 0x5F]
  const DOT: Unit := 0x2E

  predicate StartsWith(s: Str, prefix: Str) { |s| >= |prefix| && s[..|prefix|] == prefix }

  function ReadNat(s: Str): Option<nat> { if IsNatText(s) then Some(ParseNat(s)) else None }

  function MakeChanges(n: nat): Str { CHANGES + NatText(n) }

  function ParseChanges(s: Str): Option<nat> { if StartsWith(s, CHANGES) then ReadNat(s[4..]) else None }

  function MakeDirectory(n: nat): Str { DIRECTORY + NatText(n) }

  function ParseDirectory(s: Str): Option<nat> { if StartsWith(s, DIRECTORY) then ReadNat(s[4..]) else None }

  /** A page of cells is bound to a structural revision. */
  datatype Position = Position(revision: Str, offset: nat)

  function MakePage(p: Position): Str { PAGE + p.revision + [DOT] + NatText(p.offset) }

  /** `lastIndexOf`, or -1. */
  function LastIndexOf(s: Str, u: Unit): (r: int)
    ensures -1 <= r < |s|
  {
    if s == [] then -1 else if s[|s| - 1] == u then |s| - 1 else LastIndexOf(s[..|s| - 1], u)
  }

  function ParsePage(s: Str): Option<Position> {
    if !StartsWith(s, PAGE) then None
    else
      var body := s[3..];
      var dot := LastIndexOf(body, DOT);
      if dot <= 0 then None
      else
        match ReadNat(body[dot + 1..])
        case None => None
        case Some(offset) => Some(Position(body[..dot], offset))
  }

  lemma {:induction false} LastIndexIs(a: Str, u: Unit, b: Str)
    requires u !in b
    ensures LastIndexOf(a + [u] + b, u) == |a|
  {
    var s := a + [u] + b;
    if b == [] {
      assert s[|s| - 1] == u;
    } else {
      assert s[|s| - 1] == b[|b| - 1];
      assert s[..|s| - 1] == a + [u] + b[..|b| - 1];
      LastIndexIs(a, u, b[..|b| - 1]);
    }
  }

  lemma {:induction false} LastIndexFound(s: Str, u: Unit)
    requires LastIndexOf(s, u) >= 0
    ensures s[LastIndexOf(s, u)] == u
  {
    if s != [] && s[|s| - 1] != u {
      LastIndexFound(s[..|s| - 1], u);
    }
  }

  lemma {:induction false} DigitsBack(ds: seq<Digit>)
    requires ds != [] && (|ds| > 1 ==> ds[0] != 0)
    ensures NatDigits(Value(ds)) == ds && (ds[0] != 0 ==> Value(ds) > 0)
  {
    var last := |ds| - 1;
    if last == 0 {
      assert Value(ds[..0]) == 0;
      assert ds == [ds[0]];
    } else {
      DigitsBack(ds[..last]);
      var v := Value(ds[..last]);
      assert Value(ds) == v * 10 + ds[last] && v > 0;
      assert Value(ds) / 10 == v && Value(ds) % 10 == ds[last];
      assert ds == ds[..last] + [ds[last]];
    }
  }

  /** The accepted decimal spellings are exactly the canonical ones. */
  lemma NatTextBack(s: Str)
    requires IsNatText(s)
    ensures NatText(ParseNat(s)) == s
  {
    DigitsBack(Digits(s));
    assert Text(Digits(s)) == s;
  }

  lemma ChangesExact(s: Str, n: nat)
    ensures ParseChanges(s) == Some(n) <==> s == MakeChanges(n)
  {
    NatTextRoundTrip(n);
    assert MakeChanges(n)[..4] == CHANGES && MakeChanges(n)[4..] == NatText(n);
    if StartsWith(s, CHANGES) && IsNatText(s[4..]) {
      NatTextBack(s[4..]);
      assert s == CHANGES + s[4..];
    }
  }

  lemma DirectoryExact(s: Str, n: nat)
    ensures ParseDirectory(s) == Some(n) <==> s == MakeDirectory(n)
  {
    NatTextRoundTrip(n);
    assert MakeDirectory(n)[..4] == DIRECTORY && MakeDirectory(n)[4..] == NatText(n);
    if StartsWith(s, DIRECTORY) && IsNatText(s[4..]) {
      NatTextBack(s[4..]);
      assert s == DIRECTORY + s[4..];
    }
  }

  lemma PageRead(p: Position)
    ensures ParsePage(MakePage(p)) == if p.revision == [] then None else Some(p)
    ensures LastIndexOf(MakePage(p), DOT) == 3 + |p.revision|
  {
    hide LastIndexOf, NatText, ParseNat;
    var s := MakePage(p);
    var body := p.revision + [DOT] + NatText(p.offset);
    NatTextRoundTrip(p.offset);
    LastIndexIs(p.revision, DOT, NatText(p.offset));
    LastIndexIs(PAGE + p.revision, DOT, NatText(p.offset));
    assert s == PAGE + body && s == PAGE + p.revision + [DOT] + NatText(p.offset);
    assert s[..3] == PAGE && s[3..] == body;
    assert body[..|p.revision|] == p.revision && body[|p.revision| + 1..] == NatText(p.offset);
  }

  /** Whatever is accepted is what would be written. */
  lemma PageParsed(s: Str)
    requires ParsePage(s).Some?
    ensures s == MakePage(ParsePage(s).value) && ParsePage(s).value.revision != []
  {
    hide LastIndexOf, NatText, ParseNat, IsNatText;
    var body := s[3..];
    var dot := LastIndexOf(body, DOT);
    LastIndexFound(body, DOT);
    NatTextBack(body[dot + 1..]);
    assert body == body[..dot] + [DOT] + body[dot + 1..];
    assert s == PAGE + body;
    assert s == PAGE + body[..dot] + [DOT] + body[dot + 1..];
  }

  /** A page cursor is read back as written, whatever dots the revision contains, if there is a revision. */
  lemma PageExact(s: Str, p: Position)
    ensures ParsePage(s) == Some(p) <==> (s == MakePage(p) && p.revision != [])
  {
    hide ParsePage, MakePage;
    PageRead(p);
    if ParsePage(s).Some? {
      PageParsed(s);
    }
  }
}
