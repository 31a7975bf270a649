/** When a response is refused for its size, and that a page is cut no further than it must. */
module BudgetErrors {
  import opened Options
  import opened Utf16
  import opened Wires
  import opened Paging
  import opened PageSteps
  import opened PageBudget

  function Pow2(n: nat): nat { if n == 0 then 1 else 2 * Pow2(n - 1) }

  /** No list of the source is as long. */
  const TOO_MANY: nat := 0x1_0000_0000_0000_0000

  lemma GuardSuffices()
    ensures Pow2(GUARD) == TOO_MANY
  {
    assert Pow2(4) == 16;
    DoublePow2(4, 4);
    DoublePow2(8, 8);
    DoublePow2(16, 16);
    DoublePow2(32, 32);
  }

  lemma {:induction false} DoublePow2(a: nat, b: nat)
    ensures Pow2(a + b) == Pow2(a) * Pow2(b)
  {
    if b > 0 {
      DoublePow2(a, b - 1);
      assert Pow2(a + b) == 2 * Pow2(a + b - 1);
    }
  }

  lemma ShortensIn(place: Place, kind: PageKind, fields: seq<Field>, items: seq<Wire>, next: nat)
    requires PageIn(place, kind, fields, items, next) && |items| > 1
    ensures Shorten(fields).Some?
  {
    hide Quiet, Get, Shorten, PageAt, Leads, CursorText;
    Shortens(kind, Holder(place, fields), items, next);
    if place.Member? {
      NoTopPage(fields, place.key);
      GetIs(fields, place.key);
    }
  }

  /** Halving stops at the first page that fits, and otherwise at one record. */
  lemma {:induction false} ReduceStops(place: Place, kind: PageKind, fields: seq<Field>, size: Wire -> nat, text: Notes -> Str,
                                       dropped: nat, max: nat, guard: nat, items: seq<Wire>, next: nat)
    returns (k: nat, more: nat, before: seq<Field>)
    requires EndsAt(kind, items, next) && PageIn(place, kind, fields, items, next) && |items| < Pow2(guard)
    ensures var out := Reduce(fields, size, text, dropped, max, guard);
      && CutIn(place, kind, out, items, next, k) && (size(Obj(out)) > max ==> k <= 1)
      && (k < |items| ==>
            && k < more <= |items| && k == Half(more)
            && CutIn(place, kind, before, items, next, more) && size(Obj(before)) > max)
    decreases guard
  {
    hide Noted, PageIn, Shorten, EndsAt;
    k, more, before := |items|, |items|, fields;
    CutWhole(place, kind, fields, items, next);
    if |items| > 1 { ShortensIn(place, kind, fields, items, next); }
    if size(Obj(fields)) > max && guard > 0 && Shorten(fields).Some? {
      var cut := Shorten(fields).value;
      ShortenIn(place, kind, fields, items, next);
      var h := Half(|items|);
      var end := NextAt(kind, items, next, h);
      NotedIn(place, kind, cut, text, Notes(dropped, true), items[..h], end);
      var noted := Noted(cut, text, Notes(dropped, true));
      PageEnds(place, kind, noted, items[..h], end);
      var k1, more1, before1 := ReduceStops(place, kind, noted, size, text, dropped, max, guard - 1, items[..h], end);
      CutAgain(place, kind, Reduce(noted, size, text, dropped, max, guard - 1), items, next, h, k1);
      k := k1;
      if k1 < h {
        CutAgain(place, kind, before1, items, next, h, more1);
        more, before := more1, before1;
      }
    }
  }

  /**
   * A page that fits is returned as it is. One that is refused did not fit even with its first record
   * alone, without inlined outputs, and that is the size reported. One that is cut would not have fit
   * with the records of the halving before.
   */
  lemma RefusedOnlyWhenTooLong(place: Place, kind: PageKind, fields: seq<Field>, size: Wire -> nat, text: Notes -> Str, max: nat,
                               items: seq<Wire>, next: nat)
    returns (out: seq<Field>, k: nat, more: nat, before: seq<Field>)
    requires PageIn(place, kind, fields, items, next) && |items| < TOO_MANY
    ensures EndsAt(kind, StripItems(items), next) && |StripItems(items)| == |items|
    ensures size(Obj(fields)) <= max ==> Bound(fields, size, text, max) == Fits(fields)
    ensures size(Obj(fields)) > max ==>
      && CutIn(place, kind, out, StripItems(items), next, k)
      && Bound(fields, size, text, max) == (if size(Obj(out)) <= max then Fits(out) else WireBudgetError(size(Obj(out)), max))
      && (size(Obj(out)) > max ==> k <= 1)
      && (k < |items| ==>
            && k < more <= |items| && k == Half(more)
            && CutIn(place, kind, before, StripItems(items), next, more) && size(Obj(before)) > max)
  {
    hide PageIn, Stripped, EndsAt, CutIn;
    PageEnds(place, kind, fields, items, next);
    StripEnds(kind, items, next);
    StrippedIn(place, kind, fields, text, items, next);
    GuardSuffices();
    var dropped := Dropped(Obj(fields));
    k, more, before := ReduceStops(place, kind, Stripped(fields, text), size, text, dropped, max, GUARD, StripItems(items), next);
    out := Reduce(Stripped(fields, text), size, text, dropped, max, GUARD);
  }

  /** A page without a continuation is refused exactly when it does not fit whole, without inlined outputs. */
  lemma RefusedLast(place: Place, kind: PageKind, fields: seq<Field>, size: Wire -> nat, text: Notes -> Str, max: nat, items: seq<Wire>)
    requires LastIn(place, kind, fields, items)
    ensures LastIn(place, kind, Stripped(fields, text), StripItems(items))
    ensures var n := size(Obj(Stripped(fields, text)));
      Bound(fields, size, text, max)
      == if size(Obj(fields)) <= max then Fits(fields)
         else if n <= max then Fits(Stripped(fields, text)) else WireBudgetError(n, max)
  {
    hide Stripped, Shorten, LastIn;
    LastStripped(place, kind, fields, text, items);
    FixedIn(place, kind, Stripped(fields, text), StripItems(items));
  }
}
