/** The reduction to a byte budget on the objects themselves: what is written, and what never is. */
module Payloads {
  import opened Options
  import opened Utf16
  import opened Decimal
  import opened Cursors
  import opened Wires
  import opened Paging

  /** A member of an object. Arrays are never written here; objects may be. */
  datatype Slot = Slot(key: string, value: Value)

  datatype Value = Leaf(w: Wire) | List(items: seq<Value>) | Record(o: WireObject)

  class WireObject {
    var slots: seq<Slot>
    ghost var repr: set<WireObject>   // of a copy: the object and the copies below its members

    constructor (slots: seq<Slot>, ghost own: set<WireObject>)
      ensures this.slots == slots && repr == own + {this}
    {
      this.slots := slots;
      repr := own + {this};
    }

    /** Assignment to a member. */
    method Set(key: string, value: Value, ghost w: Wire, ghost x: Wire, ghost h: set<WireObject>)
      requires Spine(this, w, h) && !value.Record? && Shows(value, x, h)
      modifies this`slots
      ensures Spine(this, Obj(Put(w.fields, key, x)), h)
    {
      PutOk(slots, w.fields, repr - {this}, h, key, value, x);
      slots := PutSlots(slots, key, value);
    }

    method SetLeaf(key: string, x: Wire, ghost w: Wire, ghost h: set<WireObject>)
      requires Spine(this, w, h) && !x.Arr? && !x.Obj?
      modifies this`slots
      ensures Spine(this, Obj(Put(w.fields, key, x)), h)
    {
      Set(key, Leaf(x), w, x, h);
    }

    /** `delete` of members. */
    method DeleteAll(keys: set<string>, ghost w: Wire, ghost h: set<WireObject>)
      requires Spine(this, w, h)
      modifies this`slots
      ensures Spine(this, Obj(Without(w.fields, keys)), h)
    {
      WithoutOk(slots, w.fields, repr - {this}, h, keys);
      slots := WithoutSlots(slots, keys);
    }
  }

  // ---------------------------------------------------------------------------
  // what objects show
  // ---------------------------------------------------------------------------

  /** The JSON text of a value, with all its objects in `h`. */
  ghost predicate Shows(v: Value, w: Wire, h: set<WireObject>)
    reads h
    decreases w
  {
    match v
    case Leaf(x) => x == w && !w.Arr? && !w.Obj?
    case List(items) => w.Arr? && |items| == |w.items| && forall i | 0 <= i < |items| :: Shows(items[i], w.items[i], h)
    case Record(o) => o in h && w.Obj? && ShowsAll(o.slots, w.fields, h)
  }

  ghost predicate ShowsAll(slots: seq<Slot>, fields: seq<Field>, h: set<WireObject>)
    reads h
    decreases fields
  {
    |slots| == |fields| && forall i | 0 <= i < |slots| :: slots[i].key == fields[i].key && Shows(slots[i].value, fields[i].value, h)
  }

  /** A fresh object whose members that may be looked into are fresh as well, each in one place. */
  ghost predicate Spine(o: WireObject, w: Wire, h: set<WireObject>)
    reads o, o.repr, h
    decreases w
  {
    o in o.repr && o.repr !! h && w.Obj? && SlotsOk(o.slots, w.fields, o.repr - {o}, h)
  }

  ghost predicate SlotsOk(slots: seq<Slot>, fields: seq<Field>, own: set<WireObject>, h: set<WireObject>)
    reads own, h
    decreases fields
  {
    && |slots| == |fields|
    && (forall i | 0 <= i < |slots| :: SlotOk(slots[i], fields[i], own, h))
    && forall i, j | 0 <= i < j < |slots| && Copied(slots[i]) && Copied(slots[j]) :: slots[i].value.o.repr !! slots[j].value.o.repr
  }

  predicate Copied(s: Slot) { s.key !in OPAQUE_KEYS && s.value.Record? }

  ghost predicate SlotOk(s: Slot, f: Field, own: set<WireObject>, h: set<WireObject>)
    reads own, h
    decreases f
  {
    && s.key == f.key
    && if Copied(s) then s.value.o in own && s.value.o.repr <= own && Spine(s.value.o, f.value, h) else Shows(s.value, f.value, h)
  }

  ghost predicate Placed(v: Value, w: Wire, h: set<WireObject>)
    reads if v.Record? then {v.o} + v.o.repr + h else h
  {
    if v.Record? then Spine(v.o, w, h) else Shows(v, w, h)
  }

  ghost function Own(v: Value): set<WireObject>
    reads if v.Record? then {v.o} else {}
  {
    if v.Record? then v.o.repr else {}
  }

  // ---------------------------------------------------------------------------
  // growing the universe
  // ---------------------------------------------------------------------------

  lemma {:induction false} Grow(v: Value, w: Wire, h: set<WireObject>, more: set<WireObject>)
    requires Shows(v, w, h) && h <= more
    ensures Shows(v, w, more)
    decreases w
  {
    match v
    case Leaf(_) =>
    case List(items) =>
      forall i | 0 <= i < |items| ensures Shows(items[i], w.items[i], more) {
        Grow(items[i], w.items[i], h, more);
      }
    case Record(o) =>
      forall i | 0 <= i < |o.slots| ensures Shows(o.slots[i].value, w.fields[i].value, more) {
        Grow(o.slots[i].value, w.fields[i].value, h, more);
      }
  }

  lemma {:induction false} GrowSpine(o: WireObject, w: Wire, h: set<WireObject>, more: set<WireObject>)
    requires Spine(o, w, h) && h <= more && o.repr !! more
    ensures Spine(o, w, more)
    decreases w
  {
    forall i | 0 <= i < |o.slots| ensures SlotOk(o.slots[i], w.fields[i], o.repr - {o}, more) {
      GrowSlot(o.slots[i], w.fields[i], o.repr - {o}, h, more);
    }
  }

  lemma {:induction false} GrowSlot(s: Slot, f: Field, own: set<WireObject>, h: set<WireObject>, more: set<WireObject>)
    requires SlotOk(s, f, own, h) && h <= more && own !! more
    ensures SlotOk(s, f, own, more)
    decreases f
  {
    if Copied(s) {
      GrowSpine(s.value.o, f.value, h, more);
    } else {
      Grow(s.value, f.value, h, more);
    }
  }

  /** A copy that is not written any more. */
  lemma {:induction false} Freeze(o: WireObject, w: Wire, h: set<WireObject>)
    requires Spine(o, w, h)
    ensures Shows(Record(o), w, h + o.repr)
    decreases w
  {
    forall i | 0 <= i < |o.slots|
      ensures o.slots[i].key == w.fields[i].key && Shows(o.slots[i].value, w.fields[i].value, h + o.repr)
    {
      var s, f := o.slots[i], w.fields[i];
      assert SlotOk(s, f, o.repr - {o}, h);
      if Copied(s) {
        Freeze(s.value.o, f.value, h);
        Grow(s.value, f.value, h + s.value.o.repr, h + o.repr);
      } else {
        Grow(s.value, f.value, h, h + o.repr);
      }
    }
  }

  // ---------------------------------------------------------------------------
  // reading members
  // ---------------------------------------------------------------------------

  function IndexIn(slots: seq<Slot>, key: string): (r: nat)
    ensures r <= |slots| && (r < |slots| ==> slots[r].key == key)
    ensures forall k | 0 <= k < r :: slots[k].key != key
  {
    if slots == [] then 0 else if slots[0].key == key then 0 else 1 + IndexIn(slots[1..], key)
  }

  function Read(slots: seq<Slot>, key: string): Value {
    if IndexIn(slots, key) < |slots| then slots[IndexIn(slots, key)].value else Leaf(Null)
  }

  lemma {:induction false} SameIndex(slots: seq<Slot>, fields: seq<Field>, key: string)
    requires |slots| == |fields| && forall i | 0 <= i < |slots| :: slots[i].key == fields[i].key
    ensures IndexIn(slots, key) == Wires.IndexOf(fields, key)
  {
    if slots != [] {
      SameIndex(slots[1..], fields[1..], key);
    }
  }

  lemma KeysMatch(slots: seq<Slot>, fields: seq<Field>, own: set<WireObject>, h: set<WireObject>)
    requires SlotsOk(slots, fields, own, h)
    ensures |slots| == |fields| && forall i | 0 <= i < |slots| :: slots[i].key == fields[i].key
  {
    forall i | 0 <= i < |slots| ensures slots[i].key == fields[i].key {
      assert SlotOk(slots[i], fields[i], own, h);
    }
  }

  /** Kind and content of a member, as far as the reduction looks. */
  ghost predicate Like(v: Value, w: Wire) {
    (v.Record? <==> w.Obj?) && (v.List? <==> w.Arr?) && (v.Leaf? ==> v.w == w)
  }

  lemma ReadShown(slots: seq<Slot>, fields: seq<Field>, h: set<WireObject>, key: string)
    requires ShowsAll(slots, fields, h)
    ensures Shows(Read(slots, key), Get(fields, key), h) && Like(Read(slots, key), Get(fields, key))
  {
    SameIndex(slots, fields, key);
  }

  lemma ReadOk(slots: seq<Slot>, fields: seq<Field>, own: set<WireObject>, h: set<WireObject>, key: string)
    requires SlotsOk(slots, fields, own, h)
    ensures Like(Read(slots, key), Get(fields, key)) && (!Read(slots, key).Record? ==> Shows(Read(slots, key), Get(fields, key), h))
  {
    KeysMatch(slots, fields, own, h);
    SameIndex(slots, fields, key);
    var i := IndexIn(slots, key);
    if i < |slots| {
      assert SlotOk(slots[i], fields[i], own, h);
      assert Read(slots, key) == slots[i].value && Get(fields, key) == fields[i].value;
      assert Copied(slots[i]) ==> Spine(slots[i].value.o, fields[i].value, h);
      assert !Copied(slots[i]) ==> Shows(slots[i].value, fields[i].value, h);
    } else {
      assert Get(fields, key) == Null;
    }
  }

  function PutSlots(slots: seq<Slot>, key: string, value: Value): seq<Slot> {
    var i := IndexIn(slots, key);
    if i < |slots| then slots[i := Slot(key, value)] else slots + [Slot(key, value)]
  }

  lemma PutOk(slots: seq<Slot>, fields: seq<Field>, own: set<WireObject>, h: set<WireObject>, key: string, value: Value, x: Wire)
    requires SlotsOk(slots, fields, own, h) && !value.Record? && Shows(value, x, h)
    ensures SlotsOk(PutSlots(slots, key, value), Put(fields, key, x), own, h)
  {
    hide Spine, Shows;
    KeysMatch(slots, fields, own, h);
    SameIndex(slots, fields, key);
    var all, gs := PutSlots(slots, key, value), Put(fields, key, x);
    hide IndexIn, Wires.IndexOf;
    assert SlotOk(Slot(key, value), Field(key, x), own, h);
    forall i | 0 <= i < |all| ensures SlotOk(all[i], gs[i], own, h) {
      assert i < |slots| ==> SlotOk(slots[i], fields[i], own, h);
    }
  }

  function WithoutSlots(slots: seq<Slot>, keys: set<string>): (r: seq<Slot>)
    ensures forall s | s in r :: s in slots
  {
    if slots == [] then []
    else if slots[0].key in keys then WithoutSlots(slots[1..], keys)
    else [slots[0]] + WithoutSlots(slots[1..], keys)
  }

  lemma {:induction false} WithoutOk(slots: seq<Slot>, fields: seq<Field>, own: set<WireObject>, h: set<WireObject>, keys: set<string>)
    requires SlotsOk(slots, fields, own, h)
    ensures SlotsOk(WithoutSlots(slots, keys), Without(fields, keys), own, h)
    decreases fields
  {
    if slots != [] {
      assert SlotOk(slots[0], fields[0], own, h);
      WithoutOk(slots[1..], fields[1..], own, h, keys);
      if slots[0].key !in keys && Copied(slots[0]) {
        forall s | s in WithoutSlots(slots[1..], keys) && Copied(s) ensures slots[0].value.o.repr !! s.value.o.repr {
          var j :| 0 <= j < |slots[1..]| && slots[1..][j] == s;
          assert s == slots[j + 1];
        }
      }
    }
  }

  // ---------------------------------------------------------------------------
  // copying without the inlined outputs
  // ---------------------------------------------------------------------------

  /** One shown item that says it was truncated and is no image. */
  method IsTruncated(v: Value, ghost w: Wire, ghost h: set<WireObject>) returns (r: bool)
    requires Shows(v, w, h)
    ensures r == CutOutput(w)
  {
    r := false;
    if v.Record? {
      ReadShown(v.o.slots, w.fields, h, "truncated");
      ReadShown(v.o.slots, w.fields, h, "delivered_as");
      r := Read(v.o.slots, "truncated") == Leaf(Bool(true)) && Read(v.o.slots, "delivered_as") != Leaf(Text(IMAGE));
    }
  }

  method SomeTruncated(items: seq<Value>, ghost ws: seq<Wire>, ghost h: set<WireObject>) returns (r: bool)
    requires |items| == |ws| && forall i | 0 <= i < |items| :: Shows(items[i], ws[i], h)
    ensures r == ShowsTruncated(ws)
  {
    r := false;
    for i := 0 to |items|
      invariant r == ShowsTruncated(ws[..i])
    {
      var one := IsTruncated(items[i], ws[i], h);
      assert ws[..i + 1] == ws[..i] + [ws[i]];
      assert ShowsTruncated(ws[..i + 1]) <==> ShowsTruncated(ws[..i]) || one by { TruncatedAppend(ws[..i], ws[i]); }
      r := r || one;
    }
    assert ws[..|items|] == ws;
  }

  lemma TruncatedAppend(ws: seq<Wire>, w: Wire)
    ensures ShowsTruncated(ws + [w]) <==> ShowsTruncated(ws) || CutOutput(w)
  {
    hide CutOutput;
    if i :| 0 <= i < |ws| && CutOutput(ws[i]) {
      assert (ws + [w])[i] == ws[i];
    }
    assert (ws + [w])[|ws|] == w;
  }

  method CanRecover(o: WireObject, ghost w: Wire, ghost h: set<WireObject>) returns (r: bool)
    requires Spine(o, w, h)
    ensures r == Recoverable(w.fields)
  {
    ghost var own := o.repr - {o};
    ReadOk(o.slots, w.fields, own, h, "snapshot");
    ReadOk(o.slots, w.fields, own, h, "output_id");
    KeysMatch(o.slots, w.fields, own, h);
    SameIndex(o.slots, w.fields, "output");
    SameIndex(o.slots, w.fields, "text_preview");
    var id := Read(o.slots, "output_id");
    r := (Read(o.slots, "snapshot").Record? || (id.Leaf? && id.w.Text?))
      && (IndexIn(o.slots, "output") < |o.slots| || IndexIn(o.slots, "text_preview") < |o.slots|);
  }

  /** What the walk does to its own copy of an object after its members. */
  method DropFrom(o: WireObject, ghost w: Wire, ghost h: set<WireObject>) returns (dropped: nat)
    requires w.Obj? && Spine(o, w, h)
    modifies o`slots
    ensures Spine(o, Obj(StripObject(w.fields)), h) && dropped == if Recoverable(w.fields) then 1 else 0
  {
    hide Get, Put, Without, Has, Shows, Spine, SlotsOk, ShowsTruncated;
    ghost var now := w;
    dropped := 0;
    var recoverable := CanRecover(o, w, h);
    if recoverable {
      o.DeleteAll({"output", "text_preview"}, now, h);
      now := Obj(Without(now.fields, {"output", "text_preview"}));
      o.SetLeaf("output_inlined", Bool(false), now, h);
      now := Obj(Put(now.fields, "output_inlined", Bool(false)));
      o.SetLeaf("truncated", Bool(true), now, h);
      now := Obj(Put(now.fields, "truncated", Bool(true)));
      dropped := 1;
    }
    var truncated := OutputsTruncated(o, now, h);
    if truncated {
      o.SetLeaf("outputs_truncated", Bool(true), now, h);
    }
  }

  method OutputsTruncated(o: WireObject, ghost w: Wire, ghost h: set<WireObject>) returns (r: bool)
    requires Spine(o, w, h)
    ensures r == (Get(w.fields, "outputs").Arr? && ShowsTruncated(Get(w.fields, "outputs").items))
  {
    ReadOk(o.slots, w.fields, o.repr - {o}, h, "outputs");
    var list := Read(o.slots, "outputs");
    r := false;
    if list.List? {
      r := SomeTruncated(list.items, Get(w.fields, "outputs").items, h);
    }
  }

  /** `walk`: everything that may be looked into is copied, the rest is shared. */
  method Walk(v: Value, ghost w: Wire, ghost h: set<WireObject>)
    returns (r: Value, dropped: nat, ghost frozen: set<WireObject>)
    requires Shows(v, w, h)
    ensures h <= frozen && fresh(frozen - h) && fresh(Own(r))
    ensures Placed(r, Strip(w), frozen) && dropped == Dropped(w)
    decreases w, 1
  {
    match v
    case Leaf(x) =>
      r, dropped, frozen := v, 0, h;
    case List(items) =>
      var copies: seq<Value>;
      copies, dropped, frozen := WalkItems(items, w.items, h);
      r := List(copies);
    case Record(o) =>
      var next: WireObject;
      next, dropped, frozen := WalkObject(o, w, h);
      r := Record(next);
  }

  method WalkObject(o: WireObject, ghost w: Wire, ghost h: set<WireObject>)
    returns (next: WireObject, dropped: nat, ghost frozen: set<WireObject>)
    requires w.Obj? && ShowsAll(o.slots, w.fields, h)
    ensures h <= frozen && fresh(frozen - h) && fresh(next.repr)
    ensures Spine(next, Strip(w), frozen) && dropped == Dropped(w)
    decreases w, 0
  {
    hide SlotsOk, Shows, ShowsAll, StripObject, Recoverable;
    var slots;
    ghost var own;
    slots, dropped, frozen, own := WalkSlots(o.slots, w.fields, h);
    next := new WireObject(slots, own);
    assert next.repr - {next} == own;
    var one := DropFrom(next, Obj(StripFields(w.fields)), frozen);
    dropped := dropped + one;
  }

  method WalkItems(items: seq<Value>, ghost ws: seq<Wire>, ghost h: set<WireObject>)
    returns (r: seq<Value>, dropped: nat, ghost frozen: set<WireObject>)
    requires |items| == |ws| && forall i | 0 <= i < |items| :: Shows(items[i], ws[i], h)
    ensures h <= frozen && fresh(frozen - h) && |r| == |items|
    ensures (forall i | 0 <= i < |r| :: Shows(r[i], StripItems(ws)[i], frozen)) && dropped == DroppedItems(ws)
    decreases ws, 0
  {
    if items == [] {
      r, dropped, frozen := [], 0, h;
    } else {
      var first, d;
      ghost var one;
      first, d, one := Walk(items[0], ws[0], h);
      ghost var two := one + Own(first);
      if first.Record? { Freeze(first.o, Strip(ws[0]), one); } else { Grow(first, Strip(ws[0]), one, two); }
      GrowItems(items[1..], ws[1..], h, two);
      var rest, e;
      rest, e, frozen := WalkItems(items[1..], ws[1..], two);
      Grow(first, Strip(ws[0]), two, frozen);
      r, dropped := [first] + rest, d + e;
    }
  }

  lemma GrowItems(items: seq<Value>, ws: seq<Wire>, h: set<WireObject>, more: set<WireObject>)
    requires |items| == |ws| && h <= more && forall i | 0 <= i < |items| :: Shows(items[i], ws[i], h)
    ensures forall i | 0 <= i < |items| :: Shows(items[i], ws[i], more)
  {
    forall i | 0 <= i < |items| ensures Shows(items[i], ws[i], more) {
      Grow(items[i], ws[i], h, more);
    }
  }

  lemma GrowAll(slots: seq<Slot>, fields: seq<Field>, h: set<WireObject>, more: set<WireObject>)
    requires ShowsAll(slots, fields, h) && h <= more
    ensures ShowsAll(slots, fields, more)
  {
    forall i | 0 <= i < |slots| ensures Shows(slots[i].value, fields[i].value, more) {
      Grow(slots[i].value, fields[i].value, h, more);
    }
  }

  lemma ConsOk(s: Slot, f: Field, own: set<WireObject>, slots: seq<Slot>, fields: seq<Field>, others: set<WireObject>, h: set<WireObject>)
    requires SlotOk(s, f, own, h) && SlotsOk(slots, fields, others, h) && own !! others
    ensures SlotsOk([s] + slots, [f] + fields, own + others, h)
  {
    var all, gs := [s] + slots, [f] + fields;
    forall i | 0 <= i < |all| ensures SlotOk(all[i], gs[i], own + others, h) {
      if i > 0 {
        assert SlotOk(slots[i - 1], fields[i - 1], others, h);
      }
    }
    forall i, j | 0 <= i < j < |all| && Copied(all[i]) && Copied(all[j]) ensures all[i].value.o.repr !! all[j].value.o.repr {
      assert SlotOk(slots[j - 1], fields[j - 1], others, h);
      if i > 0 {
        assert all[i] == slots[i - 1] && all[j] == slots[j - 1];
      }
    }
  }

  method WalkSlots(slots: seq<Slot>, ghost fields: seq<Field>, ghost h: set<WireObject>)
    returns (r: seq<Slot>, dropped: nat, ghost frozen: set<WireObject>, ghost own: set<WireObject>)
    requires ShowsAll(slots, fields, h)
    ensures h <= frozen && fresh(frozen - h) && fresh(own) && own !! frozen
    ensures SlotsOk(r, StripFields(fields), own, frozen) && dropped == DroppedFields(fields)
    decreases fields, 0
  {
    if slots == [] {
      r, dropped, frozen, own := [], 0, h, {};
    } else if slots[0].key in OPAQUE_KEYS {
      r, dropped, frozen, own := WalkSlots(slots[1..], fields[1..], h);
      Grow(slots[0].value, fields[0].value, h, frozen);
      ConsOk(slots[0], fields[0], {}, r, StripFields(fields[1..]), own, frozen);
      assert {} + own == own;
      r := [slots[0]] + r;
    } else {
      var first, d;
      ghost var one;
      first, d, one := Walk(slots[0].value, fields[0].value, h);
      GrowAll(slots[1..], fields[1..], h, one);
      r, dropped, frozen, own := WalkSlots(slots[1..], fields[1..], one);
      var copy := Slot(slots[0].key, first);
      ghost var shown := Field(fields[0].key, Strip(fields[0].value));
      if first.Record? { GrowSpine(first.o, shown.value, one, frozen); } else { Grow(first, shown.value, one, frozen); }
      ConsOk(copy, shown, Own(first), r, StripFields(fields[1..]), own, frozen);
      r, dropped, own := [copy] + r, d + dropped, Own(first) + own;
    }
  }

  // ---------------------------------------------------------------------------
  // shortening in place
  // ---------------------------------------------------------------------------

  method MarkOf(v: Value, ghost w: Wire, ghost h: set<WireObject>, mark: string) returns (r: Option<int>)
    requires Shows(v, w, h)
    ensures r == if w.Obj? && Get(w.fields, mark).Int? then Some(Get(w.fields, mark).n) else None
  {
    r := None;
    if v.Record? {
      ReadShown(v.o.slots, w.fields, h, mark);
      var n := Read(v.o.slots, mark);
      if n.Leaf? && n.w.Int? { r := Some(n.w.n); }
    }
  }

  /** The list under `key` and the mark of the last record of its first half, if it can be cut. */
  method HalfOf(o: WireObject, key: string, mark: string, ghost w: Wire, ghost h: set<WireObject>)
    returns (kept: seq<Value>, last: Option<int>)
    requires w.Obj? && Spine(o, w, h) && Long(w.fields, key)
    ensures last == LastMark(w.fields, key, mark)
    ensures var items := Get(w.fields, key).items; Shows(List(kept), Arr(items[..Half(|items|)]), h)
  {
    ReadOk(o.slots, w.fields, o.repr - {o}, h, key);
    ghost var items := Get(w.fields, key).items;
    var list := Read(o.slots, key).items;
    kept := list[..Half(|list|)];
    last := MarkOf(kept[|kept| - 1], items[Half(|list|) - 1], h, mark);
  }

  method IsLong(o: WireObject, key: string, ghost w: Wire, ghost h: set<WireObject>) returns (r: bool)
    requires w.Obj? && Spine(o, w, h)
    ensures r == Long(w.fields, key)
  {
    ReadOk(o.slots, w.fields, o.repr - {o}, h, key);
    var list := Read(o.slots, key);
    r := list.List? && |list.items| > 1;
  }

  method ReadText(o: WireObject, key: string, ghost w: Wire, ghost h: set<WireObject>) returns (r: Option<Str>)
    requires w.Obj? && Spine(o, w, h)
    ensures r == if IsText(w.fields, key) then Some(Get(w.fields, key).s) else None
  {
    ReadOk(o.slots, w.fields, o.repr - {o}, h, key);
    var v := Read(o.slots, key);
    r := if v.Leaf? && v.w.Text? then Some(v.w.s) else None;
  }

  method ReadCursor(o: WireObject, ghost w: Wire, ghost h: set<WireObject>) returns (key: Option<string>, cursor: Option<Str>)
    requires w.Obj? && Spine(o, w, h)
    ensures key == CursorKey(w.fields) && cursor == CursorOf(w.fields)
  {
    hide Spine, Get;
    var page := ReadText(o, "page_cursor", w, h);
    var next := ReadText(o, "next_cursor", w, h);
    key := if page.Some? then Some("page_cursor") else if next.Some? then Some("next_cursor") else None;
    cursor := if page.Some? then page else next;
  }

  /** The cut list, the moved cursor and the mark. */
  method Rewrite(o: WireObject, key: string, kept: seq<Value>, cursorKey: string, cursor: Str, ghost w: Wire, ghost h: set<WireObject>)
    requires w.Obj? && Spine(o, w, h) && Long(w.fields, key)
    requires var items := Get(w.fields, key).items; Shows(List(kept), Arr(items[..Half(|items|)]), h)
    modifies o`slots
    ensures Spine(o, Obj(Mark(Put(Halved(w.fields, key), cursorKey, Text(cursor)))), h)
  {
    hide Spine, Shows, Get, Put;
    ghost var items := Get(w.fields, key).items;
    o.Set(key, List(kept), w, Arr(items[..Half(|items|)]), h);
    ghost var now := Obj(Halved(w.fields, key));
    o.SetLeaf(cursorKey, Text(cursor), now, h);
    o.SetLeaf("truncated", Bool(true), Obj(Put(now.fields, cursorKey, Text(cursor))), h);
  }

  function Cut(w: Wire, cut: Option<seq<Field>>): Wire { if cut.Some? then Obj(cut.value) else w }

  method CutEvents(o: WireObject, ghost w: Wire, ghost h: set<WireObject>) returns (done: bool)
    requires w.Obj? && Spine(o, w, h)
    modifies o`slots
    ensures done == ShortenEvents(w.fields).Some? && Spine(o, Cut(w, ShortenEvents(w.fields)), h)
  {
    hide Spine, Long, LastMark, Halved, Mark, Shows, Put;
    done := IsLong(o, "events", w, h);
    if done {
      var kept, last := HalfOf(o, "events", "sequence", w, h);
      done := last.Some?;
      if done { Rewrite(o, "events", kept, "next_cursor", CHANGES + IntText(last.value), w, h); }
    }
  }

  method CutCells(o: WireObject, ghost w: Wire, ghost h: set<WireObject>) returns (done: bool)
    requires w.Obj? && Spine(o, w, h)
    modifies o`slots
    ensures done == ShortenCells(w.fields).Some? && Spine(o, Cut(w, ShortenCells(w.fields)), h)
  {
    hide Spine, LastMark, Halved, Mark, Shows, Put, LastIndexOf, Get;
    done := IsLong(o, "cells", w, h);
    var key, cursor := ReadCursor(o, w, h);
    if !done || key.None? { return false; }
    var kept, last := HalfOf(o, "cells", "index", w, h);
    var dot := LastIndexOf(cursor.value, DOT);
    if last.None? || !(StartsWith(cursor.value, PAGE) && dot > 3) { return false; }
    var next := cursor.value[..dot + 1] + IntText(last.value + 1);
    Rewrite(o, "cells", kept, key.value, next, w, h);
    ghost var cut := Mark(Put(Halved(w.fields, "cells"), key.value, Text(next)));
    var view := ReadText(o, "view", Obj(cut), h);
    if view == Some(OUTPUTS) { o.SetLeaf("cells_truncated", Bool(true), Obj(cut), h); }
    return true;
  }

  method CutListing(o: WireObject, key: string, ghost w: Wire, ghost h: set<WireObject>) returns (done: bool)
    requires w.Obj? && Spine(o, w, h)
    modifies o`slots
    ensures done == ShortenListing(w.fields, key).Some? && Spine(o, Cut(w, ShortenListing(w.fields, key)), h)
  {
    hide Spine, Long, Halved, Mark, Shows, Put, ParseDirectory, IntText, Half, Get, Has;
    done := IsLong(o, key, w, h);
    var cursor := ReadText(o, "next_cursor", w, h);
    if !done || cursor.None? || ParseDirectory(cursor.value).None? { return false; }
    var end := ParseDirectory(cursor.value).value;
    var kept, n := HalfOfList(o, key, w, h);
    Rewrite(o, key, kept, "next_cursor", DIRECTORY + IntText(end - n + Half(n)), w, h);
    return true;
  }

  method HalfOfList(o: WireObject, key: string, ghost w: Wire, ghost h: set<WireObject>) returns (kept: seq<Value>, n: nat)
    requires w.Obj? && Spine(o, w, h) && Long(w.fields, key)
    ensures var items := Get(w.fields, key).items; n == |items| && Shows(List(kept), Arr(items[..Half(n)]), h)
  {
    ReadOk(o.slots, w.fields, o.repr - {o}, h, key);
    n := |Read(o.slots, key).items|;
    kept := Read(o.slots, key).items[..Half(n)];
  }

  /** `shortenRecoverableArray`: the first page found is cut in place. */
  method ShortenRecoverableArray(o: WireObject, ghost w: Wire, ghost h: set<WireObject>) returns (done: bool)
    requires w.Obj? && Spine(o, w, h)
    modifies o.repr
    ensures done == Shorten(w.fields).Some? && Spine(o, Cut(w, Shorten(w.fields)), h)
    ensures forall x | x in old(o.repr) :: x.repr == old(x.repr)
    decreases w, 2
  {
    hide Spine, ShortenEvents, ShortenCells, ShortenListing, ShortenMember;
    assert o in o.repr by { SpineHasItself(o, w, h); }
    done := CutEvents(o, w, h);
    if done { return; }
    done := CutCells(o, w, h);
    if done { return; }
    done := CutListing(o, "entries", w, h);
    if done { return; }
    done := CutListing(o, "resources", w, h);
    if done { return; }
    done := CutMember(o, w, h);
  }

  lemma SpineHasItself(o: WireObject, w: Wire, h: set<WireObject>)
    requires Spine(o, w, h)
    ensures o in o.repr && o.repr !! h
  {
  }

  /** One member that is an object, and may be looked into. */
  method CutBelow(o: WireObject, i: nat, ghost w: Wire, ghost h: set<WireObject>) returns (done: bool)
    requires w.Obj? && Spine(o, w, h) && i < |o.slots| == |w.fields| && Copied(o.slots[i])
    requires w.fields[i].value.Obj? && w.fields[i].key == o.slots[i].key && Spine(o.slots[i].value.o, w.fields[i].value, h)
    requires o.slots[i].value.o.repr <= o.repr - {o}
    modifies o.slots[i].value.o.repr
    ensures var child := w.fields[i].value;
      && done == Shorten(child.fields).Some? && o.slots == old(o.slots)
      && Spine(o.slots[i].value.o, Cut(child, Shorten(child.fields)), h)
      && Spine(o, Obj(w.fields[i := Field(o.slots[i].key, Cut(child, Shorten(child.fields)))]), h)
    ensures forall x | x in old(o.repr) :: x.repr == old(x.repr)
    decreases w, 0
  {
    hide Shorten;
    var c := o.slots[i].value.o;
    ghost var own := o.repr - {o};
    ghost var child := Cut(w.fields[i].value, Shorten(w.fields[i].value.fields));
    ghost var fields := w.fields[i := Field(o.slots[i].key, child)];
    forall k | 0 <= k < |o.slots| && k != i ensures OtherSlot(o.slots[k], w.fields[k], own, h, c.repr) {
      assert SlotOk(o.slots[k], w.fields[k], own, h);
      if Copied(o.slots[k]) {
        SpineHasItself(o.slots[k].value.o, w.fields[k].value, h);
        assert o.slots[k].value.o.repr !! c.repr;
      }
    }
    done := ShortenRecoverableArray(c, w.fields[i].value, h);
    forall k | 0 <= k < |o.slots|
      ensures SlotOk(o.slots[k], fields[k], own, h)
      ensures Copied(o.slots[k]) ==> o.slots[k].value.o.repr == old(o.slots[k].value.o.repr)
    {
      if k != i {
        assert old(OtherSlot(o.slots[k], w.fields[k], own, h, c.repr));
      }
    }
  }

  /** Out of reach of what is written in `changed`. */
  ghost predicate OtherSlot(s: Slot, f: Field, own: set<WireObject>, h: set<WireObject>, changed: set<WireObject>)
    reads own, h
  {
    && s.key == f.key && h !! changed
    && if Copied(s) then
         && s.value.o in own && s.value.o in s.value.o.repr && s.value.o.repr <= own && s.value.o.repr !! changed
         && Spine(s.value.o, f.value, h)
       else Shows(s.value, f.value, h)
  }

  lemma MemberFacts(o: WireObject, w: Wire, h: set<WireObject>, i: nat)
    requires w.Obj? && Spine(o, w, h) && i < |o.slots|
    ensures |o.slots| == |w.fields| && o.slots[i].key == w.fields[i].key && (o.slots[i].value.Record? <==> w.fields[i].value.Obj?)
    ensures Copied(o.slots[i]) ==>
      Spine(o.slots[i].value.o, w.fields[i].value, h) && o.slots[i].value.o.repr <= o.repr - {o}
  {
    assert SlotOk(o.slots[i], w.fields[i], o.repr - {o}, h);
    if Copied(o.slots[i]) {
      assert Spine(o.slots[i].value.o, w.fields[i].value, h);
    } else {
      assert Shows(o.slots[i].value, w.fields[i].value, h);
    }
  }

  lemma SpineLength(o: WireObject, w: Wire, h: set<WireObject>)
    requires w.Obj? && Spine(o, w, h)
    ensures |o.slots| == |w.fields| && o in o.repr
  {
  }

  method CutMember(o: WireObject, ghost w: Wire, ghost h: set<WireObject>) returns (done: bool)
    requires w.Obj? && Spine(o, w, h)
    modifies o.repr
    ensures done == ShortenMember(w.fields, 0).Some? && Spine(o, Cut(w, ShortenMember(w.fields, 0)), h)
    ensures forall x | x in old(o.repr) :: x.repr == old(x.repr)
    decreases w, 1
  {
    hide Spine, Shorten, Put, Get;
    SpineLength(o, w, h);
    for i := 0 to |o.slots|
      invariant Spine(o, w, h) && o.slots == old(o.slots)
      invariant ShortenMember(w.fields, 0) == ShortenMember(w.fields, i)
      invariant forall x | x in old(o.repr) :: x.repr == old(x.repr)
    {
      MemberFacts(o, w, h, i);
      if Copied(o.slots[i]) {
        ghost var child := w.fields[i].value;
        var key, before := ReadCursor(o.slots[i].value.o, child, h);
        var cut := CutBelow(o, i, w, h);
        assert w.fields[i := Field(w.fields[i].key, child)] == w.fields;
        if cut {
          ghost var now := Obj(Shorten(child.fields).value);
          ghost var whole := Obj(w.fields[i := Field(w.fields[i].key, now)]);
          var again, after := ReadCursor(o.slots[i].value.o, now, h);
          var mirror := ReadText(o, "next_cursor", whole, h);
          if before.Some? && mirror == before && after.Some? {
            SpineLength(o, whole, h);
            o.SetLeaf("next_cursor", Text(after.value), whole, h);
          }
          return true;
        }
      }
    }
    return false;
  }

  // ---------------------------------------------------------------------------
  // the budget
  // ---------------------------------------------------------------------------

  /** What `JSON.stringify` sees. */
  method Seen(v: Value, ghost w: Wire, ghost h: set<WireObject>) returns (r: Wire)
    requires Shows(v, w, h)
    ensures r == w
    decreases w, 1
  {
    match v
    case Leaf(x) => r := x;
    case List(items) =>
      var all: seq<Wire> := [];
      for i := 0 to |items|
        invariant all == w.items[..i]
      {
        var one := Seen(items[i], w.items[i], h);
        all := all + [one];
      }
      r := Arr(all);
    case Record(o) =>
      var fields := SeenFields(o.slots, w.fields, h);
      r := Obj(fields);
  }

  method SeenFields(slots: seq<Slot>, ghost fields: seq<Field>, ghost h: set<WireObject>) returns (r: seq<Field>)
    requires ShowsAll(slots, fields, h)
    ensures r == fields
    decreases fields, 0
  {
    r := [];
    for i := 0 to |slots|
      invariant r == fields[..i]
    {
      var one := Seen(slots[i].value, fields[i].value, h);
      r := r + [Field(slots[i].key, one)];
    }
  }

  method SizeOf(o: WireObject, size: Wire -> nat, ghost w: Wire, ghost h: set<WireObject>) returns (n: nat)
    requires Spine(o, w, h)
    ensures n == size(w)
  {
    Freeze(o, w, h);
    var seen := Seen(Record(o), w, h + o.repr);
    n := size(seen);
  }

  method Note(o: WireObject, text: Notes -> Str, notes: Notes, ghost w: Wire, ghost h: set<WireObject>)
    requires w.Obj? && Spine(o, w, h)
    modifies o`slots
    ensures Spine(o, Obj(Noted(w.fields, text, notes)), h)
  {
    hide Spine, Put;
    o.SetLeaf("response_truncated", Bool(true), w, h);
    o.SetLeaf("read_more", Text(text(notes)), Obj(Put(w.fields, "response_truncated", Bool(true))), h);
  }

  /** The copy without inlined outputs, with its notes. */
  method StripCopy(payload: WireObject, text: Notes -> Str, ghost w: Wire, ghost h: set<WireObject>)
    returns (current: WireObject, dropped: nat, ghost frozen: set<WireObject>)
    requires w.Obj? && Shows(Record(payload), w, h)
    ensures h <= frozen && fresh(frozen - h) && fresh(current.repr)
    ensures Spine(current, Obj(Stripped(w.fields, text)), frozen) && dropped == Dropped(w)
  {
    current, dropped, frozen := WalkObject(payload, w, h);
    hide Spine, Put, Get, Dropped, StripFields, StripObject, Noted;
    if dropped > 0 {
      Note(current, text, Notes(dropped, false), Strip(w), frozen);
      ghost var noted := Obj(Noted(Strip(w).fields, text, Notes(dropped, false)));
      var view := ReadText(current, "view", noted, frozen);
      if view == Some(OUTPUTS) {
        current.SetLeaf("truncated", Bool(true), noted, frozen);
        current.SetLeaf("outputs_truncated", Bool(true), Obj(Mark(noted.fields)), frozen);
      }
    }
  }

  datatype Answer = Given(payload: WireObject) | Failed(size: nat, max: nat)

  /**
   * `boundPayload`: the answer shows the bounded payload, and no object of the caller, opaque or
   * not, has been written.
   */
  method BoundPayload(payload: WireObject, size: Wire -> nat, text: Notes -> Str, max: nat, ghost w: Wire, ghost h: set<WireObject>)
    returns (r: Answer, ghost copies: set<WireObject>)
    requires w.Obj? && Shows(Record(payload), w, h)
    ensures match Bound(w.fields, size, text, max)
            case Fits(fields) => r.Given? && Shows(Record(r.payload), Obj(fields), h + copies)
            case WireBudgetError(n, m) => r == Failed(n, m)
    ensures fresh(copies) && (forall o | o in h :: o.slots == old(o.slots)) && Shows(Record(payload), w, h)
  {
    hide Shorten, Stripped, Dropped, Noted, Shows, Spine;
    var bytes := Seen(Record(payload), w, h);
    if size(bytes) <= max {
      assert h + {} == h;
      return Given(payload), {};
    }
    var current, dropped, frozen := StripCopy(payload, text, w, h);
    ghost var now := Obj(Stripped(w.fields, text));
    ghost var end := Reduce(now.fields, size, text, dropped, max, GUARD);
    var guard: nat := GUARD;
    var n := SizeOf(current, size, now, frozen);
    while n > max && guard > 0
      invariant now.Obj? && Spine(current, now, frozen) && n == size(now) && fresh(current.repr)
      invariant Reduce(now.fields, size, text, dropped, max, guard) == end
      decreases guard
    {
      guard := guard - 1;
      var cut := ShortenRecoverableArray(current, now, frozen);
      if !cut { break; }
      now := Obj(Shorten(now.fields).value);
      SpineHasItself(current, now, frozen);
      Note(current, text, Notes(dropped, true), now, frozen);
      now := Obj(Noted(now.fields, text, Notes(dropped, true)));
      n := SizeOf(current, size, now, frozen);
    }
    Freeze(current, now, frozen);
    copies := frozen - h + current.repr;
    assert h + copies == frozen + current.repr;
    r := if n > max then Failed(n, max) else Given(current);
  }
}
