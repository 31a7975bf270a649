/** Fitting a response into its byte budget without losing records. */
module Paging {
  import opened Options
  import opened Utf16
  import opened Decimal
  import opened Cursors
  import opened Wires

  // ---------------------------------------------------------------------------
  // dropping inlined outputs
  // ---------------------------------------------------------------------------

  /** An output payload that can be read again through its identity. */
  predicate Recoverable(fields: seq<Field>) {
    (Get(fields, "snapshot").Obj? || Get(fields, "output_id").Text?) && (Has(fields, "output") || Has(fields, "text_preview"))
  }

  /** An output that was cut, other than an image delivered beside the answer. */
  predicate CutOutput(w: Wire) {
    w.Obj? && Get(w.fields, "truncated") == Bool(true) && Get(w.fields, "delivered_as") != Text(IMAGE)
  }

  predicate ShowsTruncated(items: seq<Wire>) { exists i | 0 <= i < |items| :: CutOutput(items[i]) }

  /** `image` */
  const IMAGE: Str := [0x69, 0x6D, 0x61, 0x67, 0x65]

  function StripObject(next: seq<Field>): seq<Field> {
    var a := if Recoverable(next)
             then Put(Put(Without(next, {"output", "text_preview"}), "output_inlined", Bool(false)), "truncated", Bool(true))
             else next;
    if Get(a, "outputs").Arr? && ShowsTruncated(Get(a, "outputs").items) then Put(a, "outputs_truncated", Bool(true)) else a
  }

  function Strip(v: Wire): Wire
    decreases v
  {
    match v
    case Arr(items) => Arr(StripItems(items))
    case Obj(fields) => Obj(StripObject(StripFields(fields)))
    case _ => v
  }

  function StripItems(items: seq<Wire>): (r: seq<Wire>)
    ensures |r| == |items| && forall i | 0 <= i < |items| :: r[i] == Strip(items[i])
    decreases items
  {
    if items == [] then [] else [Strip(items[0])] + StripItems(items[1..])
  }

  function StripFields(fields: seq<Field>): seq<Field>
    decreases fields
  {
    if fields == [] then []
    else
      [Field(fields[0].key, if fields[0].key in OPAQUE_KEYS then fields[0].value else Strip(fields[0].value))]
      + StripFields(fields[1..])
  }

  /** How many payloads `Strip` drops. */
  function Dropped(v: Wire): nat
    decreases v
  {
    match v
    case Arr(items) => DroppedItems(items)
    case Obj(fields) => DroppedFields(fields) + if Recoverable(StripFields(fields)) then 1 else 0
    case _ => 0
  }

  function DroppedItems(items: seq<Wire>): nat
    decreases items
  {
    if items == [] then 0 else Dropped(items[0]) + DroppedItems(items[1..])
  }

  function DroppedFields(fields: seq<Field>): nat
    decreases fields
  {
    if fields == [] then 0
    else (if fields[0].key in OPAQUE_KEYS then 0 else Dropped(fields[0].value)) + DroppedFields(fields[1..])
  }

  // ---------------------------------------------------------------------------
  // shortening a page
  // ---------------------------------------------------------------------------

  function Half(n: nat): nat { if n / 2 < 1 then 1 else n / 2 }

  function IntText(n: int): Str { if n < 0 then [MINUS] + NatText(-n) else NatText(n) }

  /** The list under `key` cut to its first half. */
  function Halved(fields: seq<Field>, key: string): seq<Field>
    requires Get(fields, key).Arr?
  {
    var items := Get(fields, key).items;
    Put(fields, key, Arr(if Half(|items|) <= |items| then items[..Half(|items|)] else items))
  }

  predicate Long(fields: seq<Field>, key: string) { Get(fields, key).Arr? && |Get(fields, key).items| > 1 }

  /** The last record kept, if it carries a safe integer under `mark`. */
  function LastMark(fields: seq<Field>, key: string, mark: string): Option<int>
    requires Long(fields, key)
  {
    var items := Get(fields, key).items;
    var last := items[Half(|items|) - 1];
    if last.Obj? && Get(last.fields, mark).Int? then Some(Get(last.fields, mark).n) else None
  }

  function Mark(fields: seq<Field>): seq<Field> { Put(fields, "truncated", Bool(true)) }

  function ShortenEvents(fields: seq<Field>): Option<seq<Field>> {
    if !Long(fields, "events") then None
    else
      match LastMark(fields, "events", "sequence")
      case None => None
      case Some(n) => Some(Mark(Put(Halved(fields, "events"), "next_cursor", Text(CHANGES + IntText(n)))))
  }

  function CursorKey(fields: seq<Field>): Option<string> {
    if IsText(fields, "page_cursor") then Some("page_cursor")
    else if IsText(fields, "next_cursor") then Some("next_cursor")
    else None
  }

  /** The revision is kept, the offset follows the last cell kept. */
  function ShortenCells(fields: seq<Field>): Option<seq<Field>> {
    var key := CursorKey(fields);
    if !Long(fields, "cells") || key.None? then None
    else
      var cursor := Get(fields, key.value).s;
      var dot := LastIndexOf(cursor, DOT);
      match LastMark(fields, "cells", "index")
      case None => None
      case Some(n) =>
        if !(StartsWith(cursor, PAGE) && dot > 3) then None
        else
          var cut := Mark(Put(Halved(fields, "cells"), key.value, Text(cursor[..dot + 1] + IntText(n + 1))));
          Some(if IsView(cut) then Put(cut, "cells_truncated", Bool(true)) else cut)
  }

  /** `outputs` */
  const OUTPUTS: Str := [0x6F, 0x75, 0x74, 0x70, 0x75, 0x74, 0x73]

  predicate IsView(fields: seq<Field>) { Get(fields, "view") == Text(OUTPUTS) }

  function ShortenListing(fields: seq<Field>, key: string): Option<seq<Field>> {
    if !Long(fields, key) || !IsText(fields, "next_cursor") then None
    else
      match ParseDirectory(Get(fields, "next_cursor").s)
      case None => None
      case Some(end) =>
        var n := |Get(fields, key).items|;
        Some(Mark(Put(Halved(fields, key), "next_cursor", Text(DIRECTORY + IntText(end - n + Half(n))))))
  }

  function CursorOf(fields: seq<Field>): Option<Str> {
    if CursorKey(fields).Some? then Some(Get(fields, CursorKey(fields).value).s) else None
  }

  /** One reduction of the first page found, the object's own before its members'. */
  function Shorten(fields: seq<Field>): Option<seq<Field>>
    decreases fields, |fields| + 2
  {
    if ShortenEvents(fields).Some? then ShortenEvents(fields)
    else if ShortenCells(fields).Some? then ShortenCells(fields)
    else if ShortenListing(fields, "entries").Some? then ShortenListing(fields, "entries")
    else if ShortenListing(fields, "resources").Some? then ShortenListing(fields, "resources")
    else ShortenMember(fields, 0)
  }

  /** A shortened member page; a cursor of the whole that mirrored its cursor follows. */
  function ShortenMember(fields: seq<Field>, i: nat): Option<seq<Field>>
    requires i <= |fields|
    decreases fields, |fields| - i
  {
    if i == |fields| then None
    else if fields[i].key in OPAQUE_KEYS || !fields[i].value.Obj? then ShortenMember(fields, i + 1)
    else
      var child := fields[i].value.fields;
      match Shorten(child)
      case None => ShortenMember(fields, i + 1)
      case Some(cut) =>
        var whole := fields[i := Field(fields[i].key, Obj(cut))];
        Some(if CursorOf(child).Some? && Get(whole, "next_cursor") == Text(CursorOf(child).value) && CursorOf(cut).Some?
             then Put(whole, "next_cursor", Text(CursorOf(cut).value)) else whole)
  }

  // ---------------------------------------------------------------------------
  // the budget
  // ---------------------------------------------------------------------------

  datatype Bounded = Fits(fields: seq<Field>) | WireBudgetError(size: nat, max: nat)

  /** What is said about the reduction; `dropped` payloads, and whether a page was shortened. */
  datatype Notes = Notes(dropped: nat, shortened: bool)

  function Noted(fields: seq<Field>, text: Notes -> Str, notes: Notes): seq<Field> {
    Put(Put(fields, "response_truncated", Bool(true)), "read_more", Text(text(notes)))
  }

  function Stripped(fields: seq<Field>, text: Notes -> Str): seq<Field> {
    var dropped := Dropped(Obj(fields));
    var next := StripObject(StripFields(fields));
    if dropped == 0 then next
    else
      var noted := Noted(next, text, Notes(dropped, false));
      if IsView(noted) then Put(Mark(noted), "outputs_truncated", Bool(true)) else noted
  }

  function Reduce(fields: seq<Field>, size: Wire -> nat, text: Notes -> Str, dropped: nat, max: nat, guard: nat): seq<Field>
    decreases guard
  {
    if size(Obj(fields)) <= max || guard == 0 then fields
    else
      match Shorten(fields)
      case None => fields
      case Some(cut) => Reduce(Noted(cut, text, Notes(dropped, true)), size, text, dropped, max, guard - 1)
  }

  const GUARD: nat := 64

  /** `boundPayload`, for any measure of size and any wording of the note. */
  function Bound(fields: seq<Field>, size: Wire -> nat, text: Notes -> Str, max: nat): Bounded {
    if size(Obj(fields)) <= max then Fits(fields)
    else
      var reduced := Reduce(Stripped(fields, text), size, text, Dropped(Obj(fields)), max, GUARD);
      if size(Obj(reduced)) > max then WireBudgetError(size(Obj(reduced)), max) else Fits(reduced)
  }
}
