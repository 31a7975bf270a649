/** A page at the top of a response or inside one of its members, under the whole reduction to a byte budget. */
module PageBudget {
  import opened Options
  import opened Utf16
  import opened Cursors
  import opened Wires
  import opened Paging
  import opened PageSteps

  // ---------------------------------------------------------------------------
  // dropping outputs
  // ---------------------------------------------------------------------------

  lemma {:induction false} StripGet(fields: seq<Field>, key: string)
    ensures Has(StripFields(fields), key) <==> Has(fields, key)
    ensures Get(StripFields(fields), key) == if key in OPAQUE_KEYS then Get(fields, key) else Strip(Get(fields, key))
  {
    if fields != [] {
      var f := fields[0];
      assert fields == [f] + fields[1..];
      StripGet(fields[1..], key);
      hide Get, Has, StripObject;
      ConsGet(f, fields[1..], key);
      ConsGet(Field(f.key, if f.key in OPAQUE_KEYS then f.value else Strip(f.value)), StripFields(fields[1..]), key);
    }
  }

  /** The members `StripObject` may write or remove. */
  const STRIPPED_KEYS: set<string> := {"output", "text_preview", "output_inlined", "truncated", "outputs_truncated"}

  lemma StripObjectGet(next: seq<Field>, key: string)
    requires key !in STRIPPED_KEYS
    ensures Get(StripObject(next), key) == Get(next, key)
  {
    hide Get, Put, Has, Without, Recoverable, ShowsTruncated;
    var a := Without(next, {"output", "text_preview"});
    WithoutGet(next, {"output", "text_preview"}, key);
    PutGet(a, "output_inlined", Bool(false), key);
    var b := Put(a, "output_inlined", Bool(false));
    PutGet(b, "truncated", Bool(true), key);
    PutGet(Put(b, "truncated", Bool(true)), "outputs_truncated", Bool(true), key);
    PutGet(next, "outputs_truncated", Bool(true), key);
  }

  /** User data passes through as it is; an inlined output is kept whole or dropped whole. */
  lemma OpaqueKept(fields: seq<Field>, key: string)
    requires key in OPAQUE_KEYS
    ensures var out := Strip(Obj(fields)).fields;
      if key != "output" then Get(out, key) == Get(fields, key)
      else Get(out, key) == Get(fields, key) || !Has(out, key)
  {
    StripGet(fields, key);
    var next := StripFields(fields);
    if key == "output" {
      OutputKeptOrDropped(next);
    } else {
      hide Get, Has, StripObject, StripFields;
      StripObjectGet(next, key);
    }
  }

  lemma OutputKeptOrDropped(next: seq<Field>)
    ensures Get(StripObject(next), "output") == Get(next, "output") || !Has(StripObject(next), "output")
  {
    Names();
    assert "output" !in {"output_inlined", "truncated", "outputs_truncated"} by {
      assert |"output"| == 6 && |"output_inlined"| == 14 && |"truncated"| == 9 && |"outputs_truncated"| == 17;
    }
    hide Get, Put, Has, Without, Recoverable, ShowsTruncated;
    var a := Without(next, {"output", "text_preview"});
    WithoutNone(next, {"output", "text_preview"}, "output");
    PutGet(a, "output_inlined", Bool(false), "output");
    var b := Put(a, "output_inlined", Bool(false));
    PutGet(b, "truncated", Bool(true), "output");
    PutGet(Put(b, "truncated", Bool(true)), "outputs_truncated", Bool(true), "output");
    PutGet(next, "outputs_truncated", Bool(true), "output");
  }

  lemma {:induction false} QuietWithout(fields: seq<Field>, pages: set<string>, holes: set<string>, keys: set<string>)
    requires Quiet(fields, pages, holes) && keys !! holes
    ensures Quiet(Without(fields, keys), pages, holes)
  {
    if fields != [] {
      QuietWithout(fields[1..], pages, holes - {fields[0].key}, keys);
      if fields[0].key in keys {
        assert holes - {fields[0].key} == holes;
      }
      assert ([fields[0]] + Without(fields[1..], keys))[1..] == Without(fields[1..], keys);
    }
  }

  lemma QuietStripObject(next: seq<Field>, pages: set<string>, holes: set<string>)
    requires Quiet(next, pages, holes) && holes !! STRIPPED_KEYS
    ensures Quiet(StripObject(next), pages, holes)
  {
    Names();
    hide Get, Put, Has, Without, Quiet, Recoverable, ShowsTruncated;
    var a := Without(next, {"output", "text_preview"});
    QuietWithout(next, pages, holes, {"output", "text_preview"});
    QuietPut(a, pages, holes, "output_inlined", Bool(false));
    var b := Put(a, "output_inlined", Bool(false));
    QuietPut(b, pages, holes, "truncated", Bool(true));
    QuietPut(Put(b, "truncated", Bool(true)), pages, holes, "outputs_truncated", Bool(true));
    QuietPut(next, pages, holes, "outputs_truncated", Bool(true));
  }

  lemma {:induction false} QuietStrip(fields: seq<Field>, pages: set<string>, holes: set<string>)
    requires Quiet(fields, pages, holes)
    ensures Quiet(StripFields(fields), pages, holes)
    decreases fields
  {
    if fields != [] {
      var f := fields[0];
      QuietStrip(fields[1..], pages, holes - {f.key});
      var g := Field(f.key, if f.key in OPAQUE_KEYS then f.value else Strip(f.value));
      if f.key !in OPAQUE_KEYS + holes && f.value.Obj? {
        QuietStrip(f.value.fields, {}, {});
        QuietStripObject(StripFields(f.value.fields), {}, {});
      }
      hide StripObject;
      assert ([g] + StripFields(fields[1..]))[1..] == StripFields(fields[1..]);
    }
  }

  lemma MarkNames()
    ensures "sequence" !in STRIPPED_KEYS + OPAQUE_KEYS && "index" !in STRIPPED_KEYS + OPAQUE_KEYS
    ensures "next_cursor" !in STRIPPED_KEYS + OPAQUE_KEYS && "page_cursor" !in STRIPPED_KEYS + OPAQUE_KEYS
    ensures PAGE_KEYS !! STRIPPED_KEYS && STRIPPED_KEYS <= OTHER_KEYS
  {
  }

  lemma StripNumber(e: Wire, mark: string)
    requires e.Obj? && (mark == "sequence" || mark == "index")
    ensures Strip(e).Obj? && Get(Strip(e).fields, mark) == Strip(Get(e.fields, mark))
  {
    MarkNames();
    StripGet(e.fields, mark);
    hide Get, StripObject;
    StripObjectGet(StripFields(e.fields), mark);
  }

  lemma StripSequence(e: Wire)
    requires Sequenced(e)
    ensures Sequenced(Strip(e)) && SequenceOf(Strip(e)) == SequenceOf(e)
  {
    hide Get, StripObject, StripFields;
    StripNumber(e, "sequence");
  }

  lemma StripIndex(e: Wire)
    requires e.Obj? && Get(e.fields, "index").Int?
    ensures Strip(e).Obj? && Get(Strip(e).fields, "index") == Get(e.fields, "index")
  {
    hide Get, StripObject, StripFields;
    StripNumber(e, "index");
  }

  lemma StripRising(items: seq<Wire>)
    requires Rising(items)
    ensures Rising(StripItems(items))
    ensures forall i | 0 <= i < |items| :: SequenceOf(StripItems(items)[i]) == SequenceOf(items[i])
  {
    hide Get, Strip, StripItems, SequenceOf, Sequenced;
    forall i | 0 <= i < |items|
      ensures Sequenced(StripItems(items)[i]) && SequenceOf(StripItems(items)[i]) == SequenceOf(items[i])
    {
      StripSequence(items[i]);
    }
  }

  lemma StripIndexed(items: seq<Wire>)
    requires forall i | 0 <= i < |items| :: items[i].Obj? && Get(items[i].fields, "index").Int?
    ensures forall i | 0 <= i < |items| :: StripItems(items)[i].Obj?
              && Get(StripItems(items)[i].fields, "index") == Get(items[i].fields, "index")
  {
    var out := StripItems(items);
    forall i | 0 <= i < |items| ensures out[i].Obj? && Get(out[i].fields, "index") == Get(items[i].fields, "index") {
      hide Get, Strip;
      StripIndex(items[i]);
    }
  }

  /** Numbering survives. */
  lemma StripEnds(kind: PageKind, items: seq<Wire>, next: nat)
    requires EndsAt(kind, items, next)
    ensures EndsAt(kind, StripItems(items), next)
    ensures forall k: nat | k <= |items| && (k == 0 ==> items == []) ::
              NextAt(kind, StripItems(items), next, k) == NextAt(kind, items, next, k)
  {
    hide Get, SequenceOf, Sequenced, Strip, StripItems;
    match kind
    case Events => StripRising(items);
    case Cells(_) => StripIndexed(items);
    case Listing(_) =>
  }

  /** List, cursors and nested objects pass through. */
  lemma StrippedGets(fields: seq<Field>, pages: set<string>, holes: set<string>)
    requires Quiet(fields, pages, holes) && holes !! STRIPPED_KEYS
    ensures var next := StripObject(StripFields(fields));
      && Quiet(next, pages, holes)
      && forall k | k !in STRIPPED_KEYS + OPAQUE_KEYS :: Get(next, k) == Strip(Get(fields, k))
  {
    QuietStrip(fields, pages, holes);
    QuietStripObject(StripFields(fields), pages, holes);
    hide Get, StripObject, Quiet, StripFields, Has, Strip;
    forall k | k !in STRIPPED_KEYS + OPAQUE_KEYS
      ensures Get(StripObject(StripFields(fields)), k) == Strip(Get(fields, k))
    {
      StripGet(fields, k);
      StripObjectGet(StripFields(fields), k);
    }
  }

  lemma StrippedPage(kind: PageKind, fields: seq<Field>, items: seq<Wire>, next: nat)
    requires SolePage(kind, fields, items, next)
    ensures var out := StripObject(StripFields(fields));
      SolePage(kind, out, StripItems(items), next) && (Leads(kind, fields) ==> Leads(kind, out))
  {
    hide Get, StripObject, Quiet, EndsAt, StripFields, Has, CursorText;
    Names();
    MarkNames();
    StrippedGets(fields, {ListKey(kind)}, {});
    StripEnds(kind, items, next);
  }

  // ---------------------------------------------------------------------------
  // where the page is
  // ---------------------------------------------------------------------------

  /** The page is the response itself, or a member of it whose cursor the response repeats. */
  datatype Place = Top | Member(key: string)

  predicate PlaceOk(place: Place) { place.Member? ==> place.key !in OPAQUE_KEYS + OTHER_KEYS }

  /** The object that holds the page. */
  function Holder(place: Place, fields: seq<Field>): seq<Field> {
    if place.Top? then fields else if Get(fields, place.key).Obj? then Get(fields, place.key).fields else []
  }

  /** The only page of the response, with these records and this continuation. */
  predicate PageIn(place: Place, kind: PageKind, fields: seq<Field>, items: seq<Wire>, next: nat) {
    && PlaceOk(place) && SolePage(kind, Holder(place, fields), items, next)
    && (place.Member? ==>
          && Get(fields, place.key).Obj? && Quiet(fields, {}, {place.key}) && Leads(kind, Holder(place, fields))
          && Get(fields, "next_cursor") == Text(CursorText(kind, next)))
  }

  lemma PageEnds(place: Place, kind: PageKind, fields: seq<Field>, items: seq<Wire>, next: nat)
    requires PageIn(place, kind, fields, items, next)
    ensures EndsAt(kind, items, next)
  {
  }

  lemma NoTopPage(fields: seq<Field>, key: string)
    requires Quiet(fields, {}, {key})
    ensures Shorten(fields) == ShortenMember(fields, Wires.IndexOf(fields, key))
  {
    hide Quiet, Halved, Mark, LastMark, ShortenMember;
    QuietGet(fields, {}, {key}, "events");
    QuietGet(fields, {}, {key}, "cells");
    QuietGet(fields, {}, {key}, "entries");
    QuietGet(fields, {}, {key}, "resources");
    ReachHole(fields, key, 0);
  }

  /** The cursor read beside a page is its own. */
  lemma LeadingCursor(kind: PageKind, fields: seq<Field>, next: nat)
    requires CursorAt(kind, fields, next) && Leads(kind, fields)
    ensures CursorOf(fields) == Some(CursorText(kind, next))
  {
  }

  /** What shortening the page of a member computes. */
  lemma MemberCut(key: string, kind: PageKind, fields: seq<Field>, items: seq<Wire>, next: nat)
    requires PageIn(Member(key), kind, fields, items, next) && Shorten(fields).Some?
    ensures Shorten(Holder(Member(key), fields)).Some? && |items| > 1
    ensures var cut := Shorten(Holder(Member(key), fields)).value; var end := NextAt(kind, items, next, Half(|items|));
      && SolePage(kind, cut, items[..Half(|items|)], end) && Leads(kind, cut)
      && Shorten(fields).value == Put(Put(fields, key, Obj(cut)), "next_cursor", Text(CursorText(kind, end)))
  {
    PageEnds(Member(key), kind, fields, items, next);
    hide Quiet, Get, Shorten, PageAt, Leads, CursorOf, CursorText, Put;
    NoTopPage(fields, key);
    var i := Wires.IndexOf(fields, key);
    assert Has(fields, key) && fields[i].value == Get(fields, key) by { GetIs(fields, key); }
    QuietMembers(fields, {}, {key}, i + 1);
    var child := fields[i].value.fields;
    assert Shorten(child).Some?;
    ShortenKeepsPage(kind, child, items, next);
    var cut := Shorten(child).value;
    var end := NextAt(kind, items, next, Half(|items|));
    assert CursorAt(kind, child, next) && CursorAt(kind, cut, end) by { CursorsOfPages(kind, child, cut, items, next, end); }
    LeadingCursor(kind, child, next);
    LeadingCursor(kind, cut, end);
    assert fields[i := Field(key, Obj(cut))] == Put(fields, key, Obj(cut)) by { PutIs(fields, key, Obj(cut)); }
    PutGet(fields, key, Obj(cut), "next_cursor");
  }

  lemma GetIs(fields: seq<Field>, key: string)
    requires Get(fields, key).Obj?
    ensures Has(fields, key) && fields[Wires.IndexOf(fields, key)].value == Get(fields, key)
  {
  }

  lemma PutIs(fields: seq<Field>, key: string, value: Wire)
    requires Has(fields, key)
    ensures Put(fields, key, value) == fields[Wires.IndexOf(fields, key) := Field(key, value)]
  {
  }

  lemma CursorsOfPages(kind: PageKind, child: seq<Field>, cut: seq<Field>, items: seq<Wire>, next: nat, end: nat)
    requires PageAt(kind, child, items, next) && |items| > 1 && PageAt(kind, cut, items[..Half(|items|)], end)
    ensures CursorAt(kind, child, next) && CursorAt(kind, cut, end)
  {
  }

  /** A shortened page stays in its place, and a cursor of the whole that mirrors it follows. */
  lemma ShortenIn(place: Place, kind: PageKind, fields: seq<Field>, items: seq<Wire>, next: nat)
    requires PageIn(place, kind, fields, items, next) && Shorten(fields).Some?
    ensures |items| > 1
    ensures PageIn(place, kind, Shorten(fields).value, items[..Half(|items|)], NextAt(kind, items, next, Half(|items|)))
  {
    PageEnds(place, kind, fields, items, next);
    hide Quiet, Get, Shorten, PageAt, Put, Has;
    match place
    case Top => ShortenKeepsPage(kind, fields, items, next);
    case Member(key) =>
      MemberCut(key, kind, fields, items, next);
      var cut := Obj(Shorten(Holder(place, fields)).value);
      var cursor := Text(CursorText(kind, NextAt(kind, items, next, Half(|items|))));
      Names();
      PutGet(fields, key, cut, key);
      PutGet(Put(fields, key, cut), "next_cursor", cursor, key);
      PutGet(Put(fields, key, cut), "next_cursor", cursor, "next_cursor");
      QuietHole(fields, key, cut);
      QuietPut(Put(fields, key, cut), {}, {key}, "next_cursor", cursor);
  }

  lemma QuietHole(fields: seq<Field>, key: string, value: Wire)
    requires Quiet(fields, {}, {key}) && value.Obj?
    ensures Quiet(Put(fields, key, value), {}, {key})
  {
    QuietPut(fields, {}, {key}, key, value);
  }

  /** Other members may be written. */
  lemma PutIn(place: Place, kind: PageKind, fields: seq<Field>, key: string, value: Wire, items: seq<Wire>, next: nat)
    requires PageIn(place, kind, fields, items, next)
    requires key in OTHER_KEYS - {"next_cursor", "page_cursor"} && !value.Obj?
    ensures PageIn(place, kind, Put(fields, key, value), items, next)
  {
    hide Quiet, Get, PageAt, Put, Has;
    Names();
    match place
    case Top => OtherPut(kind, fields, key, value, items, next);
    case Member(k) =>
      PutGet(fields, key, value, k);
      PutGet(fields, key, value, "next_cursor");
      QuietPut(fields, {}, {k}, key, value);
  }

  lemma NotedIn(place: Place, kind: PageKind, fields: seq<Field>, text: Notes -> Str, notes: Notes, items: seq<Wire>, next: nat)
    requires PageIn(place, kind, fields, items, next)
    ensures PageIn(place, kind, Noted(fields, text, notes), items, next)
  {
    hide PageIn, Put;
    PutIn(place, kind, fields, "response_truncated", Bool(true), items, next);
    PutIn(place, kind, Put(fields, "response_truncated", Bool(true)), "read_more", Text(text(notes)), items, next);
  }

  lemma StripIn(place: Place, kind: PageKind, fields: seq<Field>, items: seq<Wire>, next: nat)
    requires PageIn(place, kind, fields, items, next)
    ensures PageIn(place, kind, StripObject(StripFields(fields)), StripItems(items), next)
  {
    hide Quiet, Get, PageAt, StripObject, StripFields, StripItems, Leads;
    StrippedPage(kind, Holder(place, fields), items, next);
    if place.Member? {
      MarkNames();
      StrippedGets(fields, {}, {place.key});
    }
  }

  lemma StrippedIn(place: Place, kind: PageKind, fields: seq<Field>, text: Notes -> Str, items: seq<Wire>, next: nat)
    requires PageIn(place, kind, fields, items, next)
    ensures PageIn(place, kind, Stripped(fields, text), StripItems(items), next)
  {
    hide Put, PageIn, StripObject, StripFields, Noted, IsView, StripItems;
    StripIn(place, kind, fields, items, next);
    var notes := Notes(Dropped(Obj(fields)), false);
    var out := StripObject(StripFields(fields));
    NotedIn(place, kind, out, text, notes, StripItems(items), next);
    var noted := Noted(out, text, notes);
    PutIn(place, kind, noted, "truncated", Bool(true), StripItems(items), next);
    PutIn(place, kind, Mark(noted), "outputs_truncated", Bool(true), StripItems(items), next);
  }

  // ---------------------------------------------------------------------------
  // the budget
  // ---------------------------------------------------------------------------

  /** Some first records, at least one unless there are none, with the cursor that continues after them. */
  ghost predicate CutIn(place: Place, kind: PageKind, out: seq<Field>, items: seq<Wire>, next: nat, k: nat)
    requires EndsAt(kind, items, next)
  {
    k <= |items| && (k == 0 ==> items == []) && PageIn(place, kind, out, items[..k], NextAt(kind, items, next, k))
  }

  lemma CutWhole(place: Place, kind: PageKind, fields: seq<Field>, items: seq<Wire>, next: nat)
    requires EndsAt(kind, items, next) && PageIn(place, kind, fields, items, next)
    ensures CutIn(place, kind, fields, items, next, |items|)
  {
    assert items[..|items|] == items;
  }

  lemma CutAgain(place: Place, kind: PageKind, out: seq<Field>, items: seq<Wire>, next: nat, h: nat, k: nat)
    requires EndsAt(kind, items, next) && 0 < h <= |items| && EndsAt(kind, items[..h], NextAt(kind, items, next, h))
    requires CutIn(place, kind, out, items[..h], NextAt(kind, items, next, h), k)
    ensures CutIn(place, kind, out, items, next, k)
  {
    hide PageIn;
    Prefix(kind, items, next, h);
    assert items[..h][..k] == items[..k];
  }

  lemma {:induction false} ReduceIn(place: Place, kind: PageKind, fields: seq<Field>, size: Wire -> nat, text: Notes -> Str,
                                    dropped: nat, max: nat, guard: nat, items: seq<Wire>, next: nat)
    returns (k: nat)
    requires EndsAt(kind, items, next) && PageIn(place, kind, fields, items, next)
    ensures CutIn(place, kind, Reduce(fields, size, text, dropped, max, guard), items, next, k)
    decreases guard
  {
    hide Noted, PageIn, Shorten, EndsAt, CutIn;
    if size(Obj(fields)) <= max || guard == 0 || Shorten(fields).None? {
      k := |items|;
      CutWhole(place, kind, fields, items, next);
    } else {
      var cut := Shorten(fields).value;
      ShortenIn(place, kind, fields, items, next);
      var h := Half(|items|);
      var end := NextAt(kind, items, next, h);
      NotedIn(place, kind, cut, text, Notes(dropped, true), items[..h], end);
      var noted := Noted(cut, text, Notes(dropped, true));
      PageEnds(place, kind, noted, items[..h], end);
      k := ReduceIn(place, kind, noted, size, text, dropped, max, guard - 1, items[..h], end);
      CutAgain(place, kind, Reduce(noted, size, text, dropped, max, guard - 1), items, next, h, k);
    }
  }

  /**
   * Whatever the budget, the measure and the wording: an answer that is given fits, holds the first
   * records of the page, at least one, and its cursor continues right after the last of them.
   */
  lemma BoundedPage(place: Place, kind: PageKind, fields: seq<Field>, size: Wire -> nat, text: Notes -> Str, max: nat,
                    items: seq<Wire>, next: nat)
    returns (k: nat)
    requires PageIn(place, kind, fields, items, next) && Bound(fields, size, text, max).Fits?
    ensures var out := Bound(fields, size, text, max).fields;
      && size(Obj(out)) <= max && k <= |items| && (k == 0 ==> items == []) && EndsAt(kind, items, next)
      && (|| PageIn(place, kind, out, items[..k], NextAt(kind, items, next, k))
          || PageIn(place, kind, out, StripItems(items)[..k], NextAt(kind, items, next, k)))
  {
    hide PageIn, Stripped, Reduce, EndsAt;
    PageEnds(place, kind, fields, items, next);
    k := |items|;
    assert items[..k] == items;
    if size(Obj(fields)) > max {
      StrippedIn(place, kind, fields, text, items, next);
      StripEnds(kind, items, next);
      k := ReduceIn(place, kind, Stripped(fields, text), size, text, Dropped(Obj(fields)), max, GUARD, StripItems(items), next);
    }
  }

  // ---------------------------------------------------------------------------
  // the last page
  // ---------------------------------------------------------------------------

  predicate NoCursor(fields: seq<Field>) { !IsText(fields, "next_cursor") && !IsText(fields, "page_cursor") }

  /** The only page of the response, without a continuation. */
  predicate LastIn(place: Place, kind: PageKind, fields: seq<Field>, items: seq<Wire>) {
    && !kind.Events? && PlaceOk(place) && Sole(kind, Holder(place, fields)) && NoCursor(Holder(place, fields))
    && Get(Holder(place, fields), ListKey(kind)) == Arr(items)
    && (place.Member? ==> Get(fields, place.key).Obj? && Quiet(fields, {}, {place.key}) && NoCursor(fields))
  }

  lemma FixedPage(kind: PageKind, fields: seq<Field>)
    requires !kind.Events? && Sole(kind, fields) && Get(fields, ListKey(kind)).Arr? && NoCursor(fields)
    ensures Shorten(fields) == None
  {
    hide Quiet, Halved, Mark, LastMark;
    Silent(kind, fields, |Get(fields, ListKey(kind)).items|);
    QuietMembers(fields, {ListKey(kind)}, {}, 0);
  }

  lemma FixedIn(place: Place, kind: PageKind, fields: seq<Field>, items: seq<Wire>)
    requires LastIn(place, kind, fields, items)
    ensures Shorten(fields) == None
  {
    hide Quiet, Shorten, Get, NoCursor;
    FixedPage(kind, Holder(place, fields));
    if place.Member? {
      NoTopPage(fields, place.key);
      GetIs(fields, place.key);
      QuietMembers(fields, {}, {place.key}, Wires.IndexOf(fields, place.key) + 1);
    }
  }

  lemma LastPut(place: Place, kind: PageKind, fields: seq<Field>, key: string, value: Wire, items: seq<Wire>)
    requires LastIn(place, kind, fields, items)
    requires key in OTHER_KEYS - {"next_cursor", "page_cursor"} && !value.Obj?
    ensures LastIn(place, kind, Put(fields, key, value), items)
  {
    hide Quiet, Get, Put, Has;
    Names();
    PutGet(fields, key, value, "next_cursor");
    PutGet(fields, key, value, "page_cursor");
    match place
    case Top =>
      PutGet(fields, key, value, ListKey(kind));
      QuietPut(fields, {ListKey(kind)}, {}, key, value);
    case Member(k) =>
      PutGet(fields, key, value, k);
      QuietPut(fields, {}, {k}, key, value);
  }

  lemma LastStrip(place: Place, kind: PageKind, fields: seq<Field>, items: seq<Wire>)
    requires LastIn(place, kind, fields, items)
    ensures LastIn(place, kind, StripObject(StripFields(fields)), StripItems(items))
  {
    hide Quiet, Get, StripObject, StripFields, StripItems, Has;
    Names();
    MarkNames();
    StrippedGets(Holder(place, fields), {ListKey(kind)}, {});
    if place.Member? {
      StrippedGets(fields, {}, {place.key});
    }
  }

  lemma LastStripped(place: Place, kind: PageKind, fields: seq<Field>, text: Notes -> Str, items: seq<Wire>)
    requires LastIn(place, kind, fields, items)
    ensures LastIn(place, kind, Stripped(fields, text), StripItems(items))
  {
    hide Put, LastIn, StripObject, StripFields, IsView, StripItems;
    LastStrip(place, kind, fields, items);
    var a := StripObject(StripFields(fields));
    var all := StripItems(items);
    LastPut(place, kind, a, "response_truncated", Bool(true), all);
    var b := Put(a, "response_truncated", Bool(true));
    var note := Text(text(Notes(Dropped(Obj(fields)), false)));
    LastPut(place, kind, b, "read_more", note, all);
    var c := Put(b, "read_more", note);
    LastPut(place, kind, c, "truncated", Bool(true), all);
    LastPut(place, kind, Put(c, "truncated", Bool(true)), "outputs_truncated", Bool(true), all);
  }

  /** A page without a continuation is never cut. */
  lemma LastPageWhole(place: Place, kind: PageKind, fields: seq<Field>, size: Wire -> nat, text: Notes -> Str, max: nat,
                      items: seq<Wire>)
    requires LastIn(place, kind, fields, items) && Bound(fields, size, text, max).Fits?
    ensures var out := Bound(fields, size, text, max).fields;
      size(Obj(out)) <= max && (LastIn(place, kind, out, items) || LastIn(place, kind, out, StripItems(items)))
  {
    hide Stripped, Shorten, LastIn;
    if size(Obj(fields)) > max {
      LastStripped(place, kind, fields, text, items);
      FixedIn(place, kind, Stripped(fields, text), StripItems(items));
    }
  }
}
