/** One response under its byte budget: a page that is cut keeps its first records and a cursor right after them. */
module PageSteps {
  import opened Options
  import opened Utf16
  import opened Decimal
  import opened Cursors
  import opened Wires
  import opened Paging

  /** What is being paged: journal events, cells of one structural revision, or a directory listing. */
  datatype PageKind = Events | Cells(revision: Str) | Listing(key: string)

  const PAGE_KEYS: set<string> := {"events", "cells", "entries", "resources"}

  predicate KindOk(kind: PageKind) {
    match kind
    case Events => true
    case Cells(revision) => revision != []
    case Listing(key) => key == "entries" || key == "resources"
  }

  function ListKey(kind: PageKind): string {
    match kind
    case Events => "events"
    case Cells(_) => "cells"
    case Listing(key) => key
  }

  predicate Sequenced(e: Wire) {
    e.Obj? && Get(e.fields, "sequence").Int? && Get(e.fields, "sequence").n >= 0
  }

  function SequenceOf(e: Wire): nat
    requires Sequenced(e)
  {
    Get(e.fields, "sequence").n
  }

  /** Events carry increasing sequences, with gaps where some were coalesced away. */
  predicate Rising(items: seq<Wire>) {
    && (forall i | 0 <= i < |items| :: Sequenced(items[i]))
    && (forall i, j | 0 <= i < j < |items| :: SequenceOf(items[i]) < SequenceOf(items[j]))
  }

  /** The records end where the cursor `next` continues; cells carry their index. */
  predicate EndsAt(kind: PageKind, items: seq<Wire>, next: nat) {
    match kind
    case Events => Rising(items) && forall i | 0 <= i < |items| :: SequenceOf(items[i]) <= next
    case Cells(_) =>
      && |items| <= next
      && forall i | 0 <= i < |items| :: items[i].Obj? && Get(items[i].fields, "index") == Int(next - |items| + i)
    case Listing(_) => |items| <= next
  }

  /** Where a reader continues who was given the first `k` records. */
  function NextAt(kind: PageKind, items: seq<Wire>, next: nat, k: nat): nat
    requires EndsAt(kind, items, next) && k <= |items| && (k == 0 ==> items == [])
  {
    if k == |items| then next
    else if kind.Events? then SequenceOf(items[k - 1])
    else next - |items| + k
  }

  function CursorText(kind: PageKind, next: nat): Str {
    match kind
    case Events => MakeChanges(next)
    case Cells(revision) => MakePage(Position(revision, next))
    case Listing(_) => MakeDirectory(next)
  }

  predicate CursorAt(kind: PageKind, fields: seq<Field>, next: nat) {
    if kind.Cells? then CursorOf(fields) == Some(CursorText(kind, next))
    else Get(fields, "next_cursor") == Text(CursorText(kind, next))
  }

  /** The response holds these records, and its cursor continues at `next`. */
  predicate PageAt(kind: PageKind, fields: seq<Field>, items: seq<Wire>, next: nat) {
    EndsAt(kind, items, next) && Get(fields, ListKey(kind)) == Arr(items) && CursorAt(kind, fields, next)
  }

  /** The cursor a surrounding object would mirror is the one of the page. */
  predicate Leads(kind: PageKind, fields: seq<Field>) { kind.Cells? || !IsText(fields, "page_cursor") }

  /** Nothing here can be shortened, except the lists named in `pages` and the members named in `holes`. */
  predicate Quiet(fields: seq<Field>, pages: set<string>, holes: set<string>)
    decreases fields
  {
    fields == [] ||
    (&& (fields[0].key in PAGE_KEYS - pages ==> !fields[0].value.Arr?)
     && (fields[0].key !in OPAQUE_KEYS + holes && fields[0].value.Obj? ==> Quiet(fields[0].value.fields, {}, {}))
     && Quiet(fields[1..], pages, holes - {fields[0].key}))
  }

  predicate Sole(kind: PageKind, fields: seq<Field>) { KindOk(kind) && Quiet(fields, {ListKey(kind)}, {}) }

  /** Members that are written or read beside the pages. */
  const OTHER_KEYS: set<string> := {
    "next_cursor", "page_cursor", "truncated", "cells_truncated", "response_truncated", "read_more",
    "outputs_truncated", "output_inlined", "output", "text_preview", "sequence", "index"
  }

  /** Keys are told apart by their first characters and lengths. */
  lemma Names()
    ensures PAGE_KEYS !! OPAQUE_KEYS && PAGE_KEYS !! OTHER_KEYS
    ensures "events" != "cells" && "events" != "entries" && "events" != "resources"
    ensures "cells" != "entries" && "cells" != "resources" && "entries" != "resources"
  {
  }

  lemma {:induction false} QuietGet(fields: seq<Field>, pages: set<string>, holes: set<string>, key: string)
    requires Quiet(fields, pages, holes) && key in PAGE_KEYS - pages
    ensures !Get(fields, key).Arr?
  {
    if fields != [] {
      assert fields == [fields[0]] + fields[1..];
      ConsGet(fields[0], fields[1..], key);
      QuietGet(fields[1..], pages, holes - {fields[0].key}, key);
    }
  }

  lemma {:induction false} QuietMember(fields: seq<Field>, pages: set<string>, holes: set<string>, i: nat)
    requires Quiet(fields, pages, holes) && i < |fields| && fields[i].key !in OPAQUE_KEYS && fields[i].value.Obj?
    requires fields[i].key !in holes || Wires.IndexOf(fields, fields[i].key) < i
    ensures Quiet(fields[i].value.fields, {}, {})
  {
    if i > 0 {
      QuietMember(fields[1..], pages, holes - {fields[0].key}, i - 1);
    }
  }

  /** Assignment, to a hole or of something that is not an object. */
  lemma {:induction false} QuietPut(fields: seq<Field>, pages: set<string>, holes: set<string>, key: string, value: Wire)
    requires Quiet(fields, pages, holes) && (!value.Obj? || key in holes) && (key in PAGE_KEYS - pages ==> !value.Arr?)
    ensures Quiet(Put(fields, key, value), pages, holes)
  {
    if fields == [] {
      assert Put([], key, value) == [Field(key, value)];
    } else {
      var f, rest := fields[0], fields[1..];
      assert fields == [f] + rest;
      ConsPut(f, rest, key, value);
      if f.key == key {
        assert ([Field(key, value)] + rest)[1..] == rest;
      } else {
        QuietPut(rest, pages, holes - {f.key}, key, value);
        assert ([f] + Put(rest, key, value))[1..] == Put(rest, key, value);
      }
    }
  }

  // ---------------------------------------------------------------------------
  // one shortening step
  // ---------------------------------------------------------------------------

  lemma {:induction false} QuietShorten(fields: seq<Field>)
    requires Quiet(fields, {}, {})
    ensures Shorten(fields) == None
    decreases fields, |fields| + 2
  {
    hide Quiet, ShortenMember, LastMark, Halved, Mark;
    QuietGet(fields, {}, {}, "events");
    QuietGet(fields, {}, {}, "cells");
    QuietGet(fields, {}, {}, "entries");
    QuietGet(fields, {}, {}, "resources");
    QuietMembers(fields, {}, {}, 0);
  }

  /** No member from `i` on can be shortened, unless it is a hole. */
  lemma {:induction false} QuietMembers(fields: seq<Field>, pages: set<string>, holes: set<string>, i: nat)
    requires Quiet(fields, pages, holes) && i <= |fields|
    requires forall k | k in holes :: Wires.IndexOf(fields, k) < i
    ensures ShortenMember(fields, i) == None
    decreases fields, |fields| - i
  {
    hide Quiet, Shorten;
    if i < |fields| {
      if fields[i].key !in OPAQUE_KEYS && fields[i].value.Obj? {
        QuietMember(fields, pages, holes, i);
        QuietShorten(fields[i].value.fields);
      }
      QuietMembers(fields, pages, holes, i + 1);
    }
  }

  /** The members before a hole are passed over. */
  lemma {:induction false} ReachHole(fields: seq<Field>, key: string, i: nat)
    requires Quiet(fields, {}, {key}) && i <= Wires.IndexOf(fields, key)
    ensures ShortenMember(fields, i) == ShortenMember(fields, Wires.IndexOf(fields, key))
    decreases Wires.IndexOf(fields, key) - i
  {
    hide Quiet, Shorten;
    if i < Wires.IndexOf(fields, key) {
      if fields[i].key !in OPAQUE_KEYS && fields[i].value.Obj? {
        QuietMember(fields, {}, {key}, i);
        QuietShorten(fields[i].value.fields);
      }
      ReachHole(fields, key, i + 1);
    }
  }

  /** The first `k` records end where their own cursor continues. */
  lemma Prefix(kind: PageKind, items: seq<Wire>, next: nat, k: nat)
    requires EndsAt(kind, items, next) && 0 < k <= |items|
    ensures EndsAt(kind, items[..k], NextAt(kind, items, next, k))
    ensures forall j | 0 < j <= k :: NextAt(kind, items[..k], NextAt(kind, items, next, k), j) == NextAt(kind, items, next, j)
  {
    hide Get;
  }

  predicate Cuttable(kind: PageKind, fields: seq<Field>, items: seq<Wire>, next: nat) {
    KindOk(kind) && PageAt(kind, fields, items, next) && |items| > 1
  }

  /** The cut list of any kind of page. */
  lemma CutAt(kind: PageKind, fields: seq<Field>, items: seq<Wire>, next: nat)
    requires Cuttable(kind, fields, items, next)
    ensures 0 < Half(|items|) < |items|
    ensures Get(Halved(fields, ListKey(kind)), ListKey(kind)) == Arr(items[..Half(|items|)])
    ensures forall k | k != ListKey(kind) :: Get(Halved(fields, ListKey(kind)), k) == Get(fields, k)
    ensures Quiet(fields, {ListKey(kind)}, {}) ==> Quiet(Halved(fields, ListKey(kind)), {ListKey(kind)}, {})
  {
    var cut := Arr(items[..Half(|items|)]);
    hide Get, Put, Quiet;
    PutGet(fields, ListKey(kind), cut, ListKey(kind));
    forall k | k != ListKey(kind) ensures Get(Halved(fields, ListKey(kind)), k) == Get(fields, k) {
      PutGet(fields, ListKey(kind), cut, k);
    }
    if Quiet(fields, {ListKey(kind)}, {}) {
      QuietPut(fields, {ListKey(kind)}, {}, ListKey(kind), cut);
    }
  }

  /** A page that may be followed by its own cursor alone. */
  predicate SolePage(kind: PageKind, fields: seq<Field>, items: seq<Wire>, next: nat) {
    PageAt(kind, fields, items, next) && Sole(kind, fields)
  }

  lemma OtherPut(kind: PageKind, fields: seq<Field>, key: string, value: Wire, items: seq<Wire>, next: nat)
    requires SolePage(kind, fields, items, next)
    requires key !in PAGE_KEYS && key != "next_cursor" && key != "page_cursor" && !value.Obj?
    ensures SolePage(kind, Put(fields, key, value), items, next)
    ensures Leads(kind, Put(fields, key, value)) == Leads(kind, fields)
  {
    hide Get, Put, Quiet, EndsAt, Has, CursorText;
    PutGet(fields, key, value, ListKey(kind));
    PutGet(fields, key, value, "next_cursor");
    PutGet(fields, key, value, "page_cursor");
    QuietPut(fields, {ListKey(kind)}, {}, key, value);
  }

  /** Rewriting the cursor and marking the answer. */
  lemma Recursor(kind: PageKind, cut: seq<Field>, cursorKey: string, items: seq<Wire>, next: nat)
    requires Sole(kind, cut) && EndsAt(kind, items, next) && Get(cut, ListKey(kind)) == Arr(items)
    requires cursorKey == "next_cursor" || (cursorKey == "page_cursor" && kind.Cells?)
    requires CursorAt(kind, Put(cut, cursorKey, Text(CursorText(kind, next))), next)
    ensures var marked := Mark(Put(cut, cursorKey, Text(CursorText(kind, next))));
      SolePage(kind, marked, items, next) && (Leads(kind, cut) ==> Leads(kind, marked))
  {
    hide Get, Put, Quiet, EndsAt, Has, CursorAt;
    Names();
    var cursor := Text(CursorText(kind, next));
    PutGet(cut, cursorKey, cursor, ListKey(kind));
    PutGet(cut, cursorKey, cursor, "page_cursor");
    QuietPut(cut, {ListKey(kind)}, {}, cursorKey, cursor);
    OtherPut(kind, Put(cut, cursorKey, cursor), "truncated", Bool(true), items, next);
  }

  /** What shortening a page of events computes. */
  lemma EventsCut(fields: seq<Field>, items: seq<Wire>, next: nat)
    requires Cuttable(Events, fields, items, next)
    ensures ShortenEvents(fields)
         == Some(Mark(Put(Halved(fields, "events"), "next_cursor", Text(MakeChanges(NextAt(Events, items, next, Half(|items|)))))))
  {
    hide Put, Mark, Halved, NatText;
    assert Sequenced(items[Half(|items|) - 1]);
  }

  /** What shortening a listing computes. */
  lemma ListingCut(key: string, fields: seq<Field>, items: seq<Wire>, next: nat)
    requires Cuttable(Listing(key), fields, items, next)
    ensures ShortenListing(fields, key)
         == Some(Mark(Put(Halved(fields, key), "next_cursor", Text(MakeDirectory(next - |items| + Half(|items|))))))
  {
    hide Put, Mark, Halved, NatText, Has, ParseDirectory;
    DirectoryExact(MakeDirectory(next), next);
  }

  /** Events and listings: the list is halved and `next_cursor` rewritten. */
  lemma PlainStep(kind: PageKind, fields: seq<Field>, items: seq<Wire>, next: nat)
    requires !kind.Cells? && SolePage(kind, fields, items, next) && |items| > 1
    ensures var end := NextAt(kind, items, next, Half(|items|));
      var cut := Mark(Put(Halved(fields, ListKey(kind)), "next_cursor", Text(CursorText(kind, end))));
      SolePage(kind, cut, items[..Half(|items|)], end) && (Leads(kind, fields) ==> Leads(kind, cut))
  {
    hide Put, Quiet, Mark, Get, Has, EndsAt, CursorText;
    var end := NextAt(kind, items, next, Half(|items|));
    CutAt(kind, fields, items, next);
    Prefix(kind, items, next, Half(|items|));
    var cut := Halved(fields, ListKey(kind));
    PutGet(cut, "next_cursor", Text(CursorText(kind, end)), "next_cursor");
    Names();
    Recursor(kind, cut, "next_cursor", items[..Half(|items|)], end);
  }

  /** The offset of a page cursor replaced. */
  lemma MovedCursor(revision: Str, to: nat, next: nat)
    requires revision != []
    ensures var cursor := MakePage(Position(revision, to)); var dot := LastIndexOf(cursor, DOT);
      StartsWith(cursor, PAGE) && dot > 3 && cursor[..dot + 1] + NatText(next) == MakePage(Position(revision, next))
  {
    var cursor := MakePage(Position(revision, to));
    PageRead(Position(revision, to));
    assert cursor[..3] == PAGE;
    assert cursor[..3 + |revision| + 1] == PAGE + revision + [DOT];
  }

  /** What shortening a page of cells computes. */
  lemma CellsCut(revision: Str, fields: seq<Field>, items: seq<Wire>, next: nat) returns (marked: seq<Field>)
    requires Cuttable(Cells(revision), fields, items, next)
    ensures CursorKey(fields).Some?
    ensures marked == Mark(Put(Halved(fields, "cells"), CursorKey(fields).value,
                               Text(CursorText(Cells(revision), next - |items| + Half(|items|)))))
    ensures ShortenCells(fields) == Some(if IsView(marked) then Put(marked, "cells_truncated", Bool(true)) else marked)
  {
    hide Put, Mark, MakePage, IsView, Halved, LastIndexOf;
    var end := next - |items| + Half(|items|);
    MovedCursor(revision, next, end);
    assert LastMark(fields, "cells", "index") == Some(end - 1);
    marked := Mark(Put(Halved(fields, "cells"), CursorKey(fields).value, Text(CursorText(Cells(revision), end))));
  }

  lemma CellsStep(revision: Str, fields: seq<Field>, items: seq<Wire>, next: nat)
    requires SolePage(Cells(revision), fields, items, next) && |items| > 1
    ensures ShortenCells(fields).Some?
    ensures SolePage(Cells(revision), ShortenCells(fields).value, items[..Half(|items|)],
                     NextAt(Cells(revision), items, next, Half(|items|)))
  {
    hide Put, Quiet, Mark, CursorText, ShortenCells, EndsAt, Get, Has, IsView;
    var kind := Cells(revision);
    var end := NextAt(kind, items, next, Half(|items|));
    var marked := CellsCut(revision, fields, items, next);
    var key := CursorKey(fields).value;
    CutAt(kind, fields, items, next);
    Prefix(kind, items, next, Half(|items|));
    var cut := Halved(fields, "cells");
    Names();
    PutGet(cut, key, Text(CursorText(kind, end)), "page_cursor");
    PutGet(cut, key, Text(CursorText(kind, end)), "next_cursor");
    Recursor(kind, cut, key, items[..Half(|items|)], end);
    OtherPut(kind, marked, "cells_truncated", Bool(true), items[..Half(|items|)], end);
  }

  /** Only the page itself, and only if it has two records, can be shortened. */
  lemma Silent(kind: PageKind, fields: seq<Field>, n: int)
    requires Sole(kind, fields) && Get(fields, ListKey(kind)).Arr? && |Get(fields, ListKey(kind)).items| == n
    ensures !kind.Events? || n <= 1 ==> ShortenEvents(fields).None?
    ensures !kind.Cells? || n <= 1 ==> ShortenCells(fields).None?
    ensures kind != Listing("entries") || n <= 1 ==> ShortenListing(fields, "entries").None?
    ensures kind != Listing("resources") || n <= 1 ==> ShortenListing(fields, "resources").None?
  {
    hide Quiet, LastMark, Halved, Mark;
    Names();
    forall k | k in PAGE_KEYS && k != ListKey(kind) ensures !Get(fields, k).Arr? {
      QuietGet(fields, {ListKey(kind)}, {}, k);
    }
  }

  /** A shortened page keeps its first half, never nothing, and continues right after it. */
  lemma ShortenKeepsPage(kind: PageKind, fields: seq<Field>, items: seq<Wire>, next: nat)
    requires SolePage(kind, fields, items, next) && Shorten(fields).Some?
    ensures |items| > 1
    ensures var cut := Shorten(fields).value;
      SolePage(kind, cut, items[..Half(|items|)], NextAt(kind, items, next, Half(|items|)))
      && (Leads(kind, fields) ==> Leads(kind, cut))
  {
    hide Quiet, ShortenEvents, ShortenCells, ShortenListing, ShortenMember, EndsAt, Put, Mark, Halved;
    Names();
    QuietMembers(fields, {ListKey(kind)}, {}, 0);
    Silent(kind, fields, |items|);
    if |items| > 1 {
      match kind
      case Events =>
        EventsCut(fields, items, next);
        PlainStep(kind, fields, items, next);
      case Cells(revision) => CellsStep(revision, fields, items, next);
      case Listing(key) =>
        ListingCut(key, fields, items, next);
        PlainStep(kind, fields, items, next);
    }
  }

  /** A page of more than one record can always be shortened. */
  lemma Shortens(kind: PageKind, fields: seq<Field>, items: seq<Wire>, next: nat)
    requires SolePage(kind, fields, items, next) && |items| > 1
    ensures Shorten(fields).Some?
  {
    hide Quiet, ShortenEvents, ShortenCells, ShortenListing, ShortenMember, EndsAt, Put, Mark, Halved;
    match kind
    case Events => EventsCut(fields, items, next);
    case Cells(revision) => CellsStep(revision, fields, items, next);
    case Listing(key) => ListingCut(key, fields, items, next);
  }
}
