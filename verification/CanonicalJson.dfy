/**
 * The canonical serialiser behind the revision digests: what it prints, and that the
 * print determines the value.
 */
module CanonicalJson {
  import opened Utf16
  import opened Decimal
  import opened JsonText

  /** A JavaScript value the serialiser accepts. Object members are in insertion order. */
  datatype Json =
    | Undefined
    | Null
    | Bool(b: bool)
    | Num(n: Number)
    | String(s: Str)
    | Array(items: seq<Json>)
    | Object(members: seq<Member>)

  datatype Member = Member(key: Str, value: Json)

  /** What a digest is about: members unordered, absent members gone, numbers normalised. */
  datatype Meaning =
    | MNull
    | MBool(b: bool)
    | MNum(n: Number)
    | MString(s: Str)
    | MArray(items: seq<Meaning>)
    | MObject(members: map<Str, Meaning>)

  predicate UniqueKeys(ms: seq<Member>) {
    forall i, j | 0 <= i < j < |ms| :: ms[i].key != ms[j].key
  }

  /** Object keys are unique, as the language guarantees, and numbers are in shortest form. */
  ghost predicate Valid(v: Json) {
    match v
    case Num(n) => n.Valid()
    case Array(items) => forall i | 0 <= i < |items| :: Valid(items[i])
    case Object(ms) => UniqueKeys(ms) && forall i | 0 <= i < |ms| :: Valid(ms[i].value)
    case _ => true
  }

  function Denote(v: Json): Meaning {
    match v
    case Undefined => MNull
    case Null => MNull
    case Bool(b) => MBool(b)
    case Num(n) => if n.IsFinite() then MNum(if n.Zero? then Zero(false) else n) else MNull
    case String(s) => MString(s)
    case Array(items) => MArray(seq(|items|, i requires 0 <= i < |items| => Denote(items[i])))
    case Object(ms) => MObject(DenoteMembers(ms))
  }

  function DenoteMembers(ms: seq<Member>): map<Str, Meaning> {
    if ms == [] then map[]
    else
      var rest := DenoteMembers(ms[1..]);
      if ms[0].value.Undefined? then rest else rest[ms[0].key := Denote(ms[0].value)]
  }

  // ---------------------------------------------------------------------------
  // key order
  // ---------------------------------------------------------------------------

  /** Strict order by code unit: `Array.prototype.sort` on strings, section 3.2.3 of RFC 8785. */
  predicate Before(a: Str, b: Str) {
    if b == [] then false
    else if a == [] then true
    else a[0] < b[0] || (a[0] == b[0] && Before(a[1..], b[1..]))
  }

  lemma {:induction false} BeforeTotal(a: Str, b: Str)
    ensures Before(a, b) || Before(b, a) || a == b
    ensures !(Before(a, b) && Before(b, a)) && (a == b ==> !Before(a, b))
  {
    if a != [] && b != [] && a[0] == b[0] {
      BeforeTotal(a[1..], b[1..]);
      assert a == [a[0]] + a[1..] && b == [b[0]] + b[1..];
    }
  }

  lemma {:induction false} BeforeTransitive(a: Str, b: Str, c: Str)
    requires Before(a, b) && Before(b, c)
    ensures Before(a, c)
  {
    if a != [] && a[0] == b[0] && b[0] == c[0] {
      BeforeTransitive(a[1..], b[1..], c[1..]);
    }
  }

  ghost predicate StrictlySorted(ms: seq<Member>) {
    ms == [] || (StrictlySorted(ms[1..]) && forall m | m in ms[1..] :: Before(ms[0].key, m.key))
  }

  /** Members that are printed: `undefined` ones are skipped. */
  function Defined(ms: seq<Member>): seq<Member> {
    if ms == [] then []
    else (if ms[0].value.Undefined? then [] else [ms[0]]) + Defined(ms[1..])
  }

  function Insert(m: Member, ms: seq<Member>): seq<Member> {
    if ms == [] || Before(m.key, ms[0].key) then [m] + ms else [ms[0]] + Insert(m, ms[1..])
  }

  /** The members ordered by key. */
  function Sort(ms: seq<Member>): seq<Member> {
    if ms == [] then [] else Insert(ms[0], Sort(ms[1..]))
  }

  function Size(v: Json): nat {
    match v
    case Array(items) => 1 + SizeItems(items)
    case Object(ms) => 1 + SizeMembers(ms)
    case _ => 1
  }

  function SizeItems(items: seq<Json>): nat {
    if items == [] then 0 else Size(items[0]) + SizeItems(items[1..])
  }

  function SizeMembers(ms: seq<Member>): nat {
    if ms == [] then 0 else Size(ms[0].value) + SizeMembers(ms[1..])
  }

  lemma {:induction false} InsertSize(m: Member, ms: seq<Member>)
    ensures SizeMembers(Insert(m, ms)) == Size(m.value) + SizeMembers(ms)
  {
    if ms == [] || Before(m.key, ms[0].key) {
      assert ([m] + ms)[1..] == ms;
    } else {
      InsertSize(m, ms[1..]);
      assert ([ms[0]] + Insert(m, ms[1..]))[1..] == Insert(m, ms[1..]);
    }
  }

  lemma {:induction false} PrintedSize(ms: seq<Member>)
    ensures SizeMembers(Sort(Defined(ms))) <= SizeMembers(ms)
  {
    if ms != [] {
      PrintedSize(ms[1..]);
      if !ms[0].value.Undefined? {
        assert Defined(ms)[1..] == Defined(ms[1..]);
        InsertSize(ms[0], Sort(Defined(ms[1..])));
      } else {
        assert Defined(ms) == Defined(ms[1..]);
      }
    }
  }

  // ---------------------------------------------------------------------------
  // the printer
  // ---------------------------------------------------------------------------

  const COMMA: Unit := 0x2C
  const COLON: Unit := 0x3A
  const OPEN_ARRAY: Unit := 0x5B
  const CLOSE_ARRAY: Unit := 0x5D
  const OPEN_OBJECT: Unit := 0x7B
  const CLOSE_OBJECT: Unit := 0x7D

  /** The members in the order they are printed. */
  function Printed(ms: seq<Member>): (r: seq<Member>)
    ensures SizeMembers(r) <= SizeMembers(ms)
  {
    PrintedSize(ms);
    Sort(Defined(ms))
  }

  const NULL_TEXT: Str := [0x6E, 0x75, 0x6C, 0x6C]
  const TRUE_TEXT: Str := [0x74, 0x72, 0x75, 0x65]
  const FALSE_TEXT: Str := [0x66, 0x61, 0x6C, 0x73, 0x65]

  function Encode(v: Json): Str
    decreases Size(v), 1
  {
    match v
    case Undefined => NULL_TEXT
    case Null => NULL_TEXT
    case Bool(b) => if b then TRUE_TEXT else FALSE_TEXT
    case Num(n) => if n.Valid() && n.IsFinite() then NumberText(n) else NULL_TEXT
    case String(s) => Quote(s)
    case Array(items) => [OPEN_ARRAY] + EncodeItems(items) + [CLOSE_ARRAY]
    case Object(ms) => [OPEN_OBJECT] + EncodeMembers(Printed(ms)) + [CLOSE_OBJECT]
  }

  /** `items.map(encode).join(',')`. */
  function EncodeItems(items: seq<Json>): Str
    decreases SizeItems(items), 2
  {
    if items == [] then []
    else Encode(items[0]) + (if |items| == 1 then [] else [COMMA] + EncodeItems(items[1..]))
  }

  /** `ms.map(m => JSON.stringify(m.key) + ':' + encode(m.value)).join(',')`. */
  function EncodeMembers(ms: seq<Member>): Str
    decreases SizeMembers(ms), 2
  {
    if ms == [] then []
    else Quote(ms[0].key) + [COLON] + Encode(ms[0].value)
         + (if |ms| == 1 then [] else [COMMA] + EncodeMembers(ms[1..]))
  }

  // ---------------------------------------------------------------------------
  // sorting changes nothing but the order
  // ---------------------------------------------------------------------------

  ghost predicate AllDefined(ms: seq<Member>) {
    forall m | m in ms :: !m.value.Undefined?
  }

  ghost predicate AllValid(ms: seq<Member>) {
    forall m | m in ms :: Valid(m.value)
  }

  ghost predicate KeyAbsent(k: Str, ms: seq<Member>) {
    forall m | m in ms :: m.key != k
  }

  lemma {:induction false} InsertElements(m: Member, ms: seq<Member>)
    ensures forall x :: x in Insert(m, ms) <==> x == m || x in ms
  {
    if ms != [] && !Before(m.key, ms[0].key) {
      InsertElements(m, ms[1..]);
      assert forall x :: x in ms <==> x == ms[0] || x in ms[1..];
    }
  }

  lemma {:induction false} InsertSorted(m: Member, ms: seq<Member>)
    requires StrictlySorted(ms) && KeyAbsent(m.key, ms)
    ensures StrictlySorted(Insert(m, ms))
  {
    if ms == [] {
    } else if Before(m.key, ms[0].key) {
      assert ([m] + ms)[1..] == ms;
      forall x | x in ms ensures Before(m.key, x.key) {
        if x != ms[0] { BeforeTransitive(m.key, ms[0].key, x.key); }
      }
    } else {
      BeforeTotal(m.key, ms[0].key);
      InsertSorted(m, ms[1..]);
      InsertElements(m, ms[1..]);
      assert ([ms[0]] + Insert(m, ms[1..]))[1..] == Insert(m, ms[1..]);
    }
  }

  /** Where a new member is inserted does not matter for the meaning. */
  lemma {:induction false} InsertDenotes(m: Member, ms: seq<Member>)
    requires KeyAbsent(m.key, ms) && !m.value.Undefined?
    ensures DenoteMembers(Insert(m, ms)) == DenoteMembers(ms)[m.key := Denote(m.value)]
  {
    if ms == [] || Before(m.key, ms[0].key) {
      assert ([m] + ms)[1..] == ms;
    } else {
      InsertDenotes(m, ms[1..]);
      assert ([ms[0]] + Insert(m, ms[1..]))[1..] == Insert(m, ms[1..]);
    }
  }

  lemma {:induction false} PrintedElements(ms: seq<Member>)
    ensures forall m :: m in Printed(ms) <==> m in ms && !m.value.Undefined?
  {
    if ms != [] {
      PrintedElements(ms[1..]);
      if ms[0].value.Undefined? {
        assert Defined(ms) == Defined(ms[1..]);
      } else {
        assert Defined(ms)[1..] == Defined(ms[1..]);
        InsertElements(ms[0], Printed(ms[1..]));
      }
    }
  }

  /** The printed members are the defined ones in strict key order, and mean the same object. */
  lemma {:induction false} PrintedKeeps(ms: seq<Member>)
    requires UniqueKeys(ms)
    ensures StrictlySorted(Printed(ms)) && AllDefined(Printed(ms))
    ensures DenoteMembers(Printed(ms)) == DenoteMembers(ms)
  {
    PrintedElements(ms);
    if ms != [] {
      PrintedKeeps(ms[1..]);
      if ms[0].value.Undefined? {
        assert Defined(ms) == Defined(ms[1..]);
      } else {
        assert Defined(ms)[1..] == Defined(ms[1..]);
        PrintedElements(ms[1..]);
        InsertSorted(ms[0], Printed(ms[1..]));
        InsertDenotes(ms[0], Printed(ms[1..]));
      }
    }
  }

  // ---------------------------------------------------------------------------
  // equal texts mean equal values
  // ---------------------------------------------------------------------------

  /** What may follow a value inside a larger text. */
  predicate IsStop(u: Unit) { u == COMMA || u == CLOSE_ARRAY || u == CLOSE_OBJECT }

  predicate Stops(r: Str) { r == [] || IsStop(r[0]) }

  /** The value's text is a literal or a number: it holds no stop and no opening unit. */
  predicate IsPlain(v: Json) { !v.String? && !v.Array? && !v.Object? }

  predicate PlainText(s: Str) {
    s != [] && forall i | 0 <= i < |s| :: !IsStop(s[i]) && s[i] != QUOTE && s[i] != OPEN_ARRAY && s[i] != OPEN_OBJECT
  }

  function StopIndex(s: Str): nat {
    if s == [] || IsStop(s[0]) then 0 else 1 + StopIndex(s[1..])
  }

  lemma {:induction false} StopIndexOf(p: Str, x: Str)
    requires (forall i | 0 <= i < |p| :: !IsStop(p[i])) && Stops(x)
    ensures StopIndex(p + x) == |p|
  {
    if p == [] {
      assert p + x == x;
    } else {
      assert (p + x)[1..] == p[1..] + x;
      StopIndexOf(p[1..], x);
    }
  }

  lemma PlainCut(p: Str, q: Str, x: Str, y: Str)
    requires PlainText(p) && PlainText(q) && Stops(x) && Stops(y)
    requires p + x == q + y
    ensures p == q && x == y
  {
    var s, t := p + x, q + y;
    StopIndexOf(p, x);
    StopIndexOf(q, y);
    assert p == s[..|p|] && q == t[..|q|] && x == s[|p|..] && y == t[|q|..];
  }

  lemma PlainIsPlain(v: Json)
    requires IsPlain(v) && Valid(v)
    ensures PlainText(Encode(v))
  {
    if v.Num? && v.n.IsFinite() {
      NumberTextShape(v.n);
    }
  }

  /** Encoded literals and numbers differ unless they denote the same. */
  lemma PlainUnambiguous(a: Json, b: Json)
    requires IsPlain(a) && IsPlain(b) && Valid(a) && Valid(b)
    requires Encode(a) == Encode(b)
    ensures Denote(a) == Denote(b)
  {
    var numeric := a.Num? && a.n.IsFinite();
    if numeric { NumberTextShape(a.n); }
    if b.Num? && b.n.IsFinite() { NumberTextShape(b.n); }
    assert Encode(a)[0] == Encode(b)[0];
    if numeric {
      NumberTextInjective(a.n, b.n);
    }
  }

  /** The first unit tells strings, arrays, objects and plain values apart. */
  lemma FirstUnit(v: Json, x: Str)
    requires Valid(v)
    ensures Encode(v) != [] && (Encode(v) + x)[0] == Encode(v)[0] && !IsStop(Encode(v)[0])
    ensures v.String? <==> Encode(v)[0] == QUOTE
    ensures v.Array? <==> Encode(v)[0] == OPEN_ARRAY
    ensures v.Object? <==> Encode(v)[0] == OPEN_OBJECT
  {
  }

  lemma Regroup(a: Str, b: Str, c: Str, d: Str)
    ensures a + b + c + d == a + (b + c + d)
  {
  }

  lemma NestRight(a: Str, b: Str, c: Str, d: Str)
    ensures a + b + c + d == a + (b + (c + d))
  {
  }

  lemma DropFirst(u: Unit, a: Str, b: Str)
    requires [u] + a == [u] + b
    ensures a == b
  {
    assert ([u] + a)[1..] == a && ([u] + b)[1..] == b;
  }

  /** `items` without its first element, as the rest of the array text. */
  function ItemsRest(items: seq<Json>): Str
    requires items != []
  {
    if |items| == 1 then [] else [COMMA] + EncodeItems(items[1..])
  }

  function MembersRest(ms: seq<Member>): Str
    requires ms != []
  {
    if |ms| == 1 then [] else [COMMA] + EncodeMembers(ms[1..])
  }

  function ItemsTail(items: seq<Json>, x: Str): Str
    requires items != []
  {
    ItemsRest(items) + [CLOSE_ARRAY] + x
  }

  function MembersTail(ms: seq<Member>, x: Str): Str
    requires ms != []
  {
    MembersRest(ms) + [CLOSE_OBJECT] + x
  }

  lemma ItemsSplit(items: seq<Json>, x: Str)
    requires items != []
    ensures EncodeItems(items) + [CLOSE_ARRAY] + x == Encode(items[0]) + ItemsTail(items, x)
    ensures ItemsTail(items, x)[0] == if |items| == 1 then CLOSE_ARRAY else COMMA
    ensures ItemsTail(items, x)[1..] == if |items| == 1 then x else EncodeItems(items[1..]) + [CLOSE_ARRAY] + x
  {
    Regroup(Encode(items[0]), ItemsRest(items), [CLOSE_ARRAY], x);
    if |items| > 1 {
      Regroup([COMMA], EncodeItems(items[1..]), [CLOSE_ARRAY], x);
    }
  }

  function MemberHead(m: Member): Str { Quote(m.key) + [COLON] + Encode(m.value) }

  lemma MembersSplit(ms: seq<Member>, x: Str)
    requires ms != []
    ensures EncodeMembers(ms) + [CLOSE_OBJECT] + x
         == Quote(ms[0].key) + ([COLON] + (Encode(ms[0].value) + MembersTail(ms, x)))
    ensures MembersTail(ms, x)[0] == if |ms| == 1 then CLOSE_OBJECT else COMMA
    ensures MembersTail(ms, x)[1..] == if |ms| == 1 then x else EncodeMembers(ms[1..]) + [CLOSE_OBJECT] + x
  {
    var tail := MembersTail(ms, x);
    Regroup(MemberHead(ms[0]), MembersRest(ms), [CLOSE_OBJECT], x);
    assert EncodeMembers(ms) + [CLOSE_OBJECT] + x == MemberHead(ms[0]) + tail;
    NestRight(Quote(ms[0].key), [COLON], Encode(ms[0].value), tail);
    if |ms| > 1 {
      Regroup([COMMA], EncodeMembers(ms[1..]), [CLOSE_OBJECT], x);
    }
  }

  /** A value's text can be cut off any longer text in one way only, and determines the meaning. */
  lemma {:induction false} Unambiguous(a: Json, b: Json, x: Str, y: Str)
    requires Valid(a) && Valid(b) && Stops(x) && Stops(y)
    requires Encode(a) + x == Encode(b) + y
    ensures Denote(a) == Denote(b) && x == y
    decreases Size(a), 1
  {
    FirstUnit(a, x);
    FirstUnit(b, y);
    match a
    case String(s) => QuoteUnambiguous(s, b.s, x, y);
    case Array(items) =>
      Regroup([OPEN_ARRAY], EncodeItems(items), [CLOSE_ARRAY], x);
      Regroup([OPEN_ARRAY], EncodeItems(b.items), [CLOSE_ARRAY], y);
      DropFirst(OPEN_ARRAY, EncodeItems(items) + [CLOSE_ARRAY] + x, EncodeItems(b.items) + [CLOSE_ARRAY] + y);
      ItemsUnambiguous(items, b.items, x, y);
    case Object(ms) =>
      var p, q := Printed(ms), Printed(b.members);
      Regroup([OPEN_OBJECT], EncodeMembers(p), [CLOSE_OBJECT], x);
      Regroup([OPEN_OBJECT], EncodeMembers(q), [CLOSE_OBJECT], y);
      DropFirst(OPEN_OBJECT, EncodeMembers(p) + [CLOSE_OBJECT] + x, EncodeMembers(q) + [CLOSE_OBJECT] + y);
      PrintedElements(ms);
      PrintedElements(b.members);
      MembersUnambiguous(p, q, x, y);
      PrintedKeeps(ms);
      PrintedKeeps(b.members);
    case _ =>
      PlainIsPlain(a);
      PlainIsPlain(b);
      PlainCut(Encode(a), Encode(b), x, y);
      PlainUnambiguous(a, b);
  }

  lemma {:induction false} ItemsUnambiguous(as_: seq<Json>, bs: seq<Json>, x: Str, y: Str)
    requires (forall i | 0 <= i < |as_| :: Valid(as_[i])) && (forall i | 0 <= i < |bs| :: Valid(bs[i]))
    requires EncodeItems(as_) + [CLOSE_ARRAY] + x == EncodeItems(bs) + [CLOSE_ARRAY] + y
    ensures |as_| == |bs| && x == y && forall i | 0 <= i < |as_| :: Denote(as_[i]) == Denote(bs[i])
    decreases SizeItems(as_), 2
  {
    var s, t := EncodeItems(as_) + [CLOSE_ARRAY] + x, EncodeItems(bs) + [CLOSE_ARRAY] + y;
    if as_ != [] { ItemsSplit(as_, x); FirstUnit(as_[0], ItemsTail(as_, x)); }
    if bs != [] { ItemsSplit(bs, y); FirstUnit(bs[0], ItemsTail(bs, y)); }
    if as_ == [] {
      assert s[0] == CLOSE_ARRAY;
      assert s[1..] == x && t[1..] == y;
    } else {
      assert t[0] != CLOSE_ARRAY;
      Unambiguous(as_[0], bs[0], ItemsTail(as_, x), ItemsTail(bs, y));
      if |as_| > 1 {
        ItemsUnambiguous(as_[1..], bs[1..], x, y);
      }
      assert forall i | 1 <= i < |as_| :: as_[i] == as_[1..][i - 1] && bs[i] == bs[1..][i - 1];
    }
  }

  /** The first keys of two equal member texts are equal, and what follows them. */
  lemma FirstMember(as_: seq<Member>, bs: seq<Member>, x: Str, y: Str)
    requires as_ != [] && bs != []
    requires EncodeMembers(as_) + [CLOSE_OBJECT] + x == EncodeMembers(bs) + [CLOSE_OBJECT] + y
    ensures as_[0].key == bs[0].key
    ensures Encode(as_[0].value) + MembersTail(as_, x) == Encode(bs[0].value) + MembersTail(bs, y)
  {
    MembersSplit(as_, x);
    MembersSplit(bs, y);
    var va, vb := Encode(as_[0].value) + MembersTail(as_, x), Encode(bs[0].value) + MembersTail(bs, y);
    QuoteUnambiguous(as_[0].key, bs[0].key, [COLON] + va, [COLON] + vb);
    DropFirst(COLON, va, vb);
  }

  lemma MembersStart(ms: seq<Member>, x: Str)
    ensures var s := EncodeMembers(ms) + [CLOSE_OBJECT] + x;
            s != [] && (ms == [] ==> s[0] == CLOSE_OBJECT && s[1..] == x) && (ms != [] ==> s[0] == QUOTE)
  {
  }

  lemma {:induction false} MembersUnambiguous(as_: seq<Member>, bs: seq<Member>, x: Str, y: Str)
    requires AllValid(as_) && AllValid(bs)
    requires AllDefined(as_) && AllDefined(bs)
    requires EncodeMembers(as_) + [CLOSE_OBJECT] + x == EncodeMembers(bs) + [CLOSE_OBJECT] + y
    ensures DenoteMembers(as_) == DenoteMembers(bs) && x == y
    decreases SizeMembers(as_), 2
  {
    MembersStart(as_, x);
    MembersStart(bs, y);
    if as_ != [] {
      FirstMember(as_, bs, x, y);
      MembersSplit(as_, x);
      MembersSplit(bs, y);
      Unambiguous(as_[0].value, bs[0].value, MembersTail(as_, x), MembersTail(bs, y));
      if |as_| > 1 {
        MembersUnambiguous(as_[1..], bs[1..], x, y);
      }
    }
  }

  // ---------------------------------------------------------------------------
  // equal values have equal texts
  // ---------------------------------------------------------------------------

  lemma {:induction false} DenotedKeys(ms: seq<Member>)
    requires AllDefined(ms)
    ensures forall k :: k in DenoteMembers(ms) <==> exists m :: m in ms && m.key == k
  {
    if ms != [] {
      DenotedKeys(ms[1..]);
      assert forall m :: m in ms <==> m == ms[0] || m in ms[1..];
      assert ms[0] in ms;
    }
  }

  /** In strict order the meaning of an object lists its members in one way only. */
  lemma SortedHead(as_: seq<Member>, bs: seq<Member>)
    requires StrictlySorted(as_) && StrictlySorted(bs) && AllDefined(as_) && AllDefined(bs)
    requires DenoteMembers(as_) == DenoteMembers(bs)
    ensures (as_ == []) == (bs == [])
    ensures as_ != [] ==> as_[0].key == bs[0].key && Denote(as_[0].value) == Denote(bs[0].value)
    ensures as_ != [] ==> DenoteMembers(as_[1..]) == DenoteMembers(bs[1..])
  {
    DenotedKeys(as_);
    DenotedKeys(bs);
    if as_ != [] {
      assert as_[0] in as_ && as_[0].key in DenoteMembers(as_);
    }
    if bs != [] {
      assert bs[0] in bs && bs[0].key in DenoteMembers(bs);
    }
    if as_ != [] {
      BeforeTotal(as_[0].key, bs[0].key);
      DenotedKeys(as_[1..]);
      DenotedKeys(bs[1..]);
      BeforeTotal(as_[0].key, as_[0].key);
      RestOf(as_);
      RestOf(bs);
    }
  }

  lemma RestOf(ms: seq<Member>)
    requires ms != [] && StrictlySorted(ms) && AllDefined(ms)
    ensures DenoteMembers(ms[1..]) == DenoteMembers(ms) - {ms[0].key}
  {
    DenotedKeys(ms[1..]);
    BeforeTotal(ms[0].key, ms[0].key);
    Unextend(DenoteMembers(ms[1..]), ms[0].key, Denote(ms[0].value));
  }

  lemma Unextend(rest: map<Str, Meaning>, k: Str, v: Meaning)
    requires k !in rest
    ensures rest[k := v] - {k} == rest
  {
  }

  lemma {:induction false} EncodeFollowsMeaning(a: Json, b: Json)
    requires Valid(a) && Valid(b) && Denote(a) == Denote(b)
    ensures Encode(a) == Encode(b)
    decreases Size(a), 1
  {
    match a
    case Array(items) =>
      assert |items| == |b.items|;
      forall i | 0 <= i < |items| ensures Denote(items[i]) == Denote(b.items[i]) {
        assert Denote(a).items[i] == Denote(b).items[i];
      }
      EncodeItemsFollows(items, b.items);
    case Object(ms) =>
      PrintedKeeps(ms);
      PrintedKeeps(b.members);
      PrintedElements(ms);
      PrintedElements(b.members);
      EncodeMembersFollows(Printed(ms), Printed(b.members));
    case _ =>
  }

  lemma {:induction false} EncodeItemsFollows(as_: seq<Json>, bs: seq<Json>)
    requires |as_| == |bs|
    requires forall i | 0 <= i < |as_| :: Valid(as_[i]) && Valid(bs[i]) && Denote(as_[i]) == Denote(bs[i])
    ensures EncodeItems(as_) == EncodeItems(bs)
    decreases SizeItems(as_), 2
  {
    if as_ != [] {
      EncodeFollowsMeaning(as_[0], bs[0]);
      EncodeItemsFollows(as_[1..], bs[1..]);
    }
  }

  lemma {:induction false} EncodeMembersFollows(as_: seq<Member>, bs: seq<Member>)
    requires StrictlySorted(as_) && StrictlySorted(bs) && AllDefined(as_) && AllDefined(bs)
    requires AllValid(as_) && AllValid(bs) && DenoteMembers(as_) == DenoteMembers(bs)
    ensures EncodeMembers(as_) == EncodeMembers(bs)
    decreases SizeMembers(as_), 2
  {
    SortedHead(as_, bs);
    if as_ != [] {
      EncodeFollowsMeaning(as_[0].value, bs[0].value);
      EncodeMembersFollows(as_[1..], bs[1..]);
      SortedHead(as_[1..], bs[1..]);
    }
  }

  /**
   * The canonical text is exact: two values print alike if and only if they are the same
   * up to key order, absent members, and the normalisation of undefined, non-finite and -0.
   */
  lemma CanonicalExact(a: Json, b: Json)
    requires Valid(a) && Valid(b)
    ensures Encode(a) == Encode(b) <==> Denote(a) == Denote(b)
  {
    if Encode(a) == Encode(b) {
      assert Encode(a) + [] == Encode(b) + [];
      Unambiguous(a, b, [], []);
    }
    if Denote(a) == Denote(b) {
      EncodeFollowsMeaning(a, b);
    }
  }

  // ---------------------------------------------------------------------------
  // the hashed pre-image
  // ---------------------------------------------------------------------------

  datatype Kind = Source | Outputs | Cell | NotebookMetadata | Structure

  /** `source`, `outputs`, `cell`, `notebookMetadata`, `structure`, in code units. */
  function KindName(k: Kind): Str {
    match k
    case Source => [0x73, 0x6F, 0x75, 0x72, 0x63, 0x65]
    case Outputs => [0x6F, 0x75, 0x74, 0x70, 0x75, 0x74, 0x73]
    case Cell => [0x63, 0x65, 0x6C, 0x6C]
    case NotebookMetadata => [0x6E, 0x6F, 0x74, 0x65, 0x62, 0x6F, 0x6F, 0x6B, 0x4D, 0x65, 0x74, 0x61, 0x64, 0x61, 0x74, 0x61]
    case Structure => [0x73, 0x74, 0x72, 0x75, 0x63, 0x74, 0x75, 0x72, 0x65]
  }

  const SPACE: Byte := 0x20

  /** The bytes `digest` feeds to the hash: kind, a space, and the canonical text, each in UTF-8. */
  function PreImage(k: Kind, v: Json): seq<Byte> {
    Utf8(KindName(k)) + [SPACE] + Utf8(Encode(v))
  }

  lemma {:induction false} EncodeWellFormed(v: Json)
    requires Valid(v)
    ensures WellFormed(Encode(v))
    decreases Size(v), 1
  {
    match v
    case String(s) => QuoteWellFormed(s);
    case Array(items) =>
      ItemsWellFormed(items);
      Enclosed(OPEN_ARRAY, EncodeItems(items), CLOSE_ARRAY);
    case Object(ms) =>
      PrintedElements(ms);
      MembersWellFormed(Printed(ms));
      Enclosed(OPEN_OBJECT, EncodeMembers(Printed(ms)), CLOSE_OBJECT);
    case Num(n) =>
      if n.IsFinite() { NumberTextShape(n); }
      PlainIsWellFormed(Encode(v));
    case _ => PlainIsWellFormed(Encode(v));
  }

  lemma Enclosed(open: Unit, s: Str, close: Unit)
    requires WellFormed(s) && open < 0xD800 && close < 0xD800
    ensures WellFormed([open] + s + [close])
  {
    PlainIsWellFormed([open]);
    PlainIsWellFormed([close]);
    WellFormedConcat([open], s);
    WellFormedConcat([open] + s, [close]);
  }

  lemma {:induction false} ItemsWellFormed(items: seq<Json>)
    requires forall i | 0 <= i < |items| :: Valid(items[i])
    ensures WellFormed(EncodeItems(items))
    decreases SizeItems(items), 2
  {
    if items != [] {
      EncodeWellFormed(items[0]);
      if |items| > 1 {
        ItemsWellFormed(items[1..]);
        PlainIsWellFormed([COMMA]);
        WellFormedConcat([COMMA], EncodeItems(items[1..]));
      }
      WellFormedConcat(Encode(items[0]), ItemsRest(items));
    }
  }

  lemma {:induction false} MembersWellFormed(ms: seq<Member>)
    requires AllValid(ms)
    ensures WellFormed(EncodeMembers(ms))
    decreases SizeMembers(ms), 2
  {
    if ms != [] {
      QuoteWellFormed(ms[0].key);
      PlainIsWellFormed([COLON]);
      WellFormedConcat(Quote(ms[0].key), [COLON]);
      EncodeWellFormed(ms[0].value);
      WellFormedConcat(Quote(ms[0].key) + [COLON], Encode(ms[0].value));
      if |ms| > 1 {
        MembersWellFormed(ms[1..]);
        PlainIsWellFormed([COMMA]);
        WellFormedConcat([COMMA], EncodeMembers(ms[1..]));
      }
      WellFormedConcat(MemberHead(ms[0]), MembersRest(ms));
    }
  }

  function SpaceIndex(s: seq<Byte>): nat {
    if s == [] || s[0] == SPACE then 0 else 1 + SpaceIndex(s[1..])
  }

  lemma {:induction false} SpaceIndexOf(p: seq<Byte>, x: seq<Byte>)
    requires forall i | 0 <= i < |p| :: p[i] != SPACE
    ensures SpaceIndex(p + [SPACE] + x) == |p|
  {
    if p != [] {
      assert (p + [SPACE] + x)[1..] == p[1..] + [SPACE] + x;
      SpaceIndexOf(p[1..], x);
    }
  }

  lemma CutAtSpace(p: seq<Byte>, q: seq<Byte>, x: seq<Byte>, y: seq<Byte>)
    requires (forall i | 0 <= i < |p| :: p[i] != SPACE) && (forall i | 0 <= i < |q| :: q[i] != SPACE)
    requires p + [SPACE] + x == q + [SPACE] + y
    ensures p == q && x == y
  {
    var s, t := p + [SPACE] + x, q + [SPACE] + y;
    SpaceIndexOf(p, x);
    SpaceIndexOf(q, y);
    assert p == s[..|p|] && q == t[..|q|] && x == s[|p| + 1..] && y == t[|q| + 1..];
  }

  lemma {:induction false} AsciiBytes(s: Str)
    requires forall i | 0 <= i < |s| :: s[i] < 0x80
    ensures Utf8(s) == s
  {
    if s != [] {
      AsciiBytes(s[1..]);
      assert s == [s[0]] + s[1..];
    }
  }

  /** Kind names hold no space, and their lengths tell them apart. */
  lemma KindNames(k: Kind)
    ensures Utf8(KindName(k)) == KindName(k)
    ensures forall i | 0 <= i < |KindName(k)| :: KindName(k)[i] != SPACE
  {
    AsciiBytes(KindName(k));
  }

  /** No two different (kind, value) pairs are hashed from the same bytes. */
  lemma PreImageExact(k: Kind, j: Kind, a: Json, b: Json)
    requires Valid(a) && Valid(b)
    ensures PreImage(k, a) == PreImage(j, b) <==> k == j && Denote(a) == Denote(b)
  {
    if PreImage(k, a) == PreImage(j, b) {
      KindNames(k);
      KindNames(j);
      CutAtSpace(Utf8(KindName(k)), Utf8(KindName(j)), Utf8(Encode(a)), Utf8(Encode(b)));
      EncodeWellFormed(a);
      EncodeWellFormed(b);
      Utf8Injective(Encode(a), Encode(b));
      assert |KindName(k)| == |KindName(j)|;
    }
    CanonicalExact(a, b);
  }

  // ---------------------------------------------------------------------------
  // the recursive printer with its loops
  // ---------------------------------------------------------------------------

  /** `s1 + ',' + s2 + ...`: `Array.prototype.join`. */
  function Join(parts: seq<Str>): Str {
    if parts == [] then [] else parts[0] + (if |parts| == 1 then [] else [COMMA] + Join(parts[1..]))
  }

  lemma {:induction false} JoinItems(items: seq<Json>, parts: seq<Str>)
    requires |parts| == |items| && forall i | 0 <= i < |items| :: parts[i] == Encode(items[i])
    ensures Join(parts) == EncodeItems(items)
  {
    if |items| > 1 {
      JoinItems(items[1..], parts[1..]);
    }
  }

  lemma {:induction false} JoinMembers(ms: seq<Member>, parts: seq<Str>)
    requires |parts| == |ms| && forall i | 0 <= i < |ms| :: parts[i] == MemberHead(ms[i])
    ensures Join(parts) == EncodeMembers(ms)
  {
    if |ms| > 1 {
      JoinMembers(ms[1..], parts[1..]);
    }
  }

  lemma {:induction false} ItemSize(items: seq<Json>, i: nat)
    requires i < |items|
    ensures Size(items[i]) <= SizeItems(items)
  {
    if i > 0 {
      ItemSize(items[1..], i - 1);
    }
  }

  lemma {:induction false} MemberSize(ms: seq<Member>, i: nat)
    requires i < |ms|
    ensures Size(ms[i].value) <= SizeMembers(ms)
  {
    if i > 0 {
      MemberSize(ms[1..], i - 1);
    }
  }

  /** Sorting all members and then skipping absent ones is the same as the other way round. */
  lemma {:induction false} SortThenSkip(ms: seq<Member>)
    requires UniqueKeys(ms)
    ensures StrictlySorted(Sort(ms)) && (forall m :: m in Sort(ms) <==> m in ms)
    ensures Defined(Sort(ms)) == Printed(ms)
  {
    if ms != [] {
      SortThenSkip(ms[1..]);
      InsertSorted(ms[0], Sort(ms[1..]));
      InsertElements(ms[0], Sort(ms[1..]));
      SkipInsert(ms[0], Sort(ms[1..]));
      if ms[0].value.Undefined? {
        assert Defined(ms) == Defined(ms[1..]);
      } else {
        assert Defined(ms)[1..] == Defined(ms[1..]);
      }
    }
  }

  lemma {:induction false} SkipInsert(m: Member, ms: seq<Member>)
    requires StrictlySorted(ms) && KeyAbsent(m.key, ms)
    ensures Defined(Insert(m, ms)) == if m.value.Undefined? then Defined(ms) else Insert(m, Defined(ms))
  {
    if ms == [] {
      assert Defined([m]) == if m.value.Undefined? then [] else [m];
    } else if Before(m.key, ms[0].key) {
      assert ([m] + ms)[1..] == ms;
      forall x | x in ms ensures Before(m.key, x.key) {
        if x != ms[0] { BeforeTransitive(m.key, ms[0].key, x.key); }
      }
      DefinedElements(ms);
      assert Defined(ms) != [] ==> Defined(ms)[0] in Defined(ms);
    } else {
      SkipInsert(m, ms[1..]);
      assert ([ms[0]] + Insert(m, ms[1..]))[1..] == Insert(m, ms[1..]);
      if !ms[0].value.Undefined? {
        assert Defined(ms)[1..] == Defined(ms[1..]);
      } else {
        assert Defined(ms) == Defined(ms[1..]);
      }
    }
  }

  lemma {:induction false} DefinedElements(ms: seq<Member>)
    ensures forall m :: m in Defined(ms) <==> m in ms && !m.value.Undefined?
  {
    if ms != [] {
      DefinedElements(ms[1..]);
    }
  }

  /** The text of an own, defined member, pushed by the key loop. */
  function Parts(ms: seq<Member>): seq<Str> {
    if ms == [] then []
    else Parts(ms[..|ms| - 1])
         + (if ms[|ms| - 1].value.Undefined? then [] else [MemberHead(ms[|ms| - 1])])
  }

  lemma {:induction false} PartsOfDefined(ms: seq<Member>)
    ensures Parts(ms) == seq(|Defined(ms)|, i requires 0 <= i < |Defined(ms)| => MemberHead(Defined(ms)[i]))
  {
    if ms != [] {
      var init := ms[..|ms| - 1];
      PartsOfDefined(init);
      DefinedAppend(init, ms[|ms| - 1]);
      assert init + [ms[|ms| - 1]] == ms;
    }
  }

  lemma {:induction false} DefinedAppend(ms: seq<Member>, m: Member)
    ensures Defined(ms + [m]) == Defined(ms) + (if m.value.Undefined? then [] else [m])
  {
    if ms == [] {
      assert [] + [m] == [m];
    } else {
      assert (ms + [m])[1..] == ms[1..] + [m];
      DefinedAppend(ms[1..], m);
    }
  }

  /** The recursive serialiser: items are pushed in order, members after sorting all keys. */
  method EncodeJson(v: Json) returns (text: Str)
    requires Valid(v)
    ensures text == Encode(v)
    decreases Size(v)
  {
    match v {
      case Array(items) =>
        var parts: seq<Str> := [];
        for i := 0 to |items|
          invariant |parts| == i && forall j | 0 <= j < i :: parts[j] == Encode(items[j])
        {
          ItemSize(items, i);
          var part := EncodeJson(items[i]);
          parts := parts + [part];
        }
        JoinItems(items, parts);
        text := [OPEN_ARRAY] + Join(parts) + [CLOSE_ARRAY];
      case Object(ms) =>
        var sorted := Sort(ms);
        SortThenSkip(ms);
        SortSize(ms);
        var parts: seq<Str> := [];
        for i := 0 to |sorted|
          invariant parts == Parts(sorted[..i])
        {
          var m := sorted[i];
          assert sorted[..i + 1][..i] == sorted[..i];
          if !m.value.Undefined? {
            assert m in ms;
            MemberSize(sorted, i);
            var part := EncodeJson(m.value);
            parts := parts + [Quote(m.key) + [COLON] + part];
          }
        }
        assert sorted[..|sorted|] == sorted;
        PartsOfDefined(sorted);
        JoinMembers(Printed(ms), parts);
        text := [OPEN_OBJECT] + Join(parts) + [CLOSE_OBJECT];
      case Num(n) => text := if n.IsFinite() then NumberText(n) else NULL_TEXT;
      case String(s) => text := Quote(s);
      case Bool(b) => text := if b then TRUE_TEXT else FALSE_TEXT;
      case _ => text := NULL_TEXT;
    }
  }

  lemma {:induction false} SortSize(ms: seq<Member>)
    ensures SizeMembers(Sort(ms)) == SizeMembers(ms)
  {
    if ms != [] {
      SortSize(ms[1..]);
      InsertSize(ms[0], Sort(ms[1..]));
    }
  }

  /** The code units of an ASCII text. */
  function Ascii(text: string): Str
    requires forall i | 0 <= i < |text| :: text[i] < 128 as char
  {
    seq(|text|, i requires 0 <= i < |text| => text[i] as int)
  }

  /** The three literal names of section 3 of RFC 8259, and what is printed as which. */
  lemma LiteralNames(n: Number)
    ensures Encode(Bool(true)) == Ascii("true") && Encode(Bool(false)) == Ascii("false")
    ensures Encode(Null) == Ascii("null") && Encode(Undefined) == Ascii("null")
    ensures !n.IsFinite() ==> Encode(Num(n)) == Ascii("null")
  {
    assert TRUE_TEXT == Ascii("true") && FALSE_TEXT == Ascii("false") && NULL_TEXT == Ascii("null");
  }
}
