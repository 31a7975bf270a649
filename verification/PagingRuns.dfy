/** Following the rewritten cursors under any budgets meets every record once and in order. */
module PagingRuns {
  import opened Options
  import opened Utf16
  import opened Cursors
  import opened Wires
  import opened Paging
  import opened Coalescing
  import opened PageSteps
  import opened PageBudget

  // ---------------------------------------------------------------------------
  // the server
  // ---------------------------------------------------------------------------

  /** Everything there is to read: a journal, the cells of one revision, or a listing. */
  datatype Book = Book(place: Place, kind: PageKind, cell: OutputCell, all: seq<Wire>)

  predicate BookOk(b: Book) {
    && PlaceOk(b.place) && KindOk(b.kind)
    && match b.kind
       case Events => Rising(b.all)
       case Cells(_) => forall i | 0 <= i < |b.all| :: b.all[i].Obj? && Get(b.all[i].fields, "index") == Int(i)
       case Listing(_) => true
  }

  /** How many events are not after `position`. */
  function CountTo(all: seq<Wire>, position: nat): (n: nat)
    requires Rising(all)
    ensures n <= |all| && forall i | 0 <= i < |all| :: i < n <==> SequenceOf(all[i]) <= position
  {
    if all == [] then 0
    else if SequenceOf(all[|all| - 1]) <= position then |all|
    else CountTo(all[..|all| - 1], position)
  }

  /** The first record after a position: the first later event, or the offset itself. */
  function IndexAt(b: Book, position: nat): (i: nat)
    requires BookOk(b)
    ensures i <= |b.all|
  {
    if b.kind.Events? then CountTo(b.all, position) else if position <= |b.all| then position else |b.all|
  }

  function PageItems(b: Book, from: nat, to: nat): seq<Wire>
    requires from <= to <= |b.all|
  {
    if b.kind.Events? then Pick(b.all, Kept(b.cell, b.all, from, to)) else b.all[from..to]
  }

  /**
   * An unbounded answer: some records from `from` on, and a continuation unless a list ends with it.
   * A journal may have nothing to tell yet.
   */
  predicate Paged(b: Book, fields: seq<Field>, from: nat, to: nat, next: nat)
    requires BookOk(b)
  {
    && from <= to <= |b.all| && (!b.kind.Events? && from < |b.all| ==> from < to)
    && if b.kind.Events? || to < |b.all| then
         PageIn(b.place, b.kind, fields, PageItems(b, from, to), next) && IndexAt(b, next) == to && (!b.kind.Events? ==> next == to)
       else LastIn(b.place, b.kind, fields, PageItems(b, from, to))
  }

  ghost predicate Serves(b: Book, position: nat, fields: seq<Field>)
    requires BookOk(b)
  {
    exists to: nat, next: nat :: Paged(b, fields, IndexAt(b, position), to, next)
  }

  /** What the server gives at each turn and position; none when it no longer retains what follows. */
  type Server = (nat, nat) -> Option<seq<Field>>

  ghost predicate Honest(b: Book, serve: Server)
    requires BookOk(b)
  {
    forall n, position :: serve(n, position).Some? ==> Serves(b, position, serve(n, position).value)
  }

  /** As long as something is left, every answer has some of it. */
  ghost predicate Prompt(b: Book, serve: Server)
    requires BookOk(b)
  {
    forall n, position :: serve(n, position).Some? && IndexAt(b, position) < |b.all| ==> Records(b, serve(n, position).value) != []
  }

  // ---------------------------------------------------------------------------
  // the reader
  // ---------------------------------------------------------------------------

  function CursorRead(b: Book, fields: seq<Field>): Option<Str> {
    if b.kind.Cells? && b.place.Top? then CursorOf(fields)
    else if IsText(fields, "next_cursor") then Some(Get(fields, "next_cursor").s)
    else None
  }

  function ReadPosition(kind: PageKind, cursor: Str): Option<nat> {
    match kind
    case Events => ParseChanges(cursor)
    case Listing(_) => ParseDirectory(cursor)
    case Cells(revision) =>
      match ParsePage(cursor)
      case None => None
      case Some(p) => if p.revision == revision then Some(p.offset) else None
  }

  /** Where the reader continues: the position its cursor text is parsed to. */
  function NextPosition(b: Book, fields: seq<Field>): Option<nat> {
    match CursorRead(b, fields)
    case None => None
    case Some(cursor) => ReadPosition(b.kind, cursor)
  }

  function Records(b: Book, fields: seq<Field>): seq<Wire> {
    var page := Holder(b.place, fields);
    if Get(page, ListKey(b.kind)).Arr? then Get(page, ListKey(b.kind)).items else []
  }

  /** `Refused`: a page did not fit its budget, or the position has expired. */
  datatype Reading =
    | Finished(records: seq<Wire>)
    | Paused(records: seq<Wire>, position: nat)
    | Refused(records: seq<Wire>)

  /** One request after the other, each with the cursor of the answer before it and a budget of its own. */
  function Follow(b: Book, serve: Server, size: Wire -> nat, text: Notes -> Str, budgets: seq<nat>, position: nat): Reading
    decreases |budgets|
  {
    if budgets == [] then Paused([], position)
    else
      match serve(|budgets|, position)
      case None => Refused([])
      case Some(page) =>
        match Bound(page, size, text, budgets[0])
        case WireBudgetError(_, _) => Refused([])
        case Fits(out) =>
          match NextPosition(b, out)
          case None => Finished(Records(b, out))
          case Some(next) =>
            var rest := Follow(b, serve, size, text, budgets[1..], next);
            rest.(records := Records(b, out) + rest.records)
  }

  // ---------------------------------------------------------------------------
  // one answer
  // ---------------------------------------------------------------------------

  /**
   * The records are those at the places `at`, in order and each once, with or without inlined outputs;
   * of the records `from` to `end` only superseded output events are missing.
   */
  ghost predicate Delivered(b: Book, records: seq<Wire>, at: seq<nat>, from: nat, end: nat) {
    && end <= |b.all| && |records| == |at|
    && (forall i, j | 0 <= i < j < |at| :: at[i] < at[j])
    && (forall i | 0 <= i < |at| :: from <= at[i] < end && (records[i] == b.all[at[i]] || records[i] == Strip(b.all[at[i]])))
    && forall j | from <= j < end && j !in at :: b.kind.Events? && Stale(b.cell, b.all, j, |b.all|)
  }

  lemma CursorReadBack(kind: PageKind, next: nat)
    requires KindOk(kind)
    ensures ReadPosition(kind, CursorText(kind, next)) == Some(next)
  {
    match kind
    case Events => ChangesExact(MakeChanges(next), next);
    case Listing(_) => DirectoryExact(MakeDirectory(next), next);
    case Cells(revision) => PageExact(MakePage(Position(revision, next)), Position(revision, next));
  }

  lemma ReadsPage(b: Book, fields: seq<Field>, items: seq<Wire>, next: nat)
    requires PageIn(b.place, b.kind, fields, items, next)
    ensures NextPosition(b, fields) == Some(next) && Records(b, fields) == items
  {
    CursorReadBack(b.kind, next);
    hide Quiet, EndsAt, CursorText, ReadPosition, Get;
  }

  lemma ReadsLast(b: Book, fields: seq<Field>, items: seq<Wire>)
    requires LastIn(b.place, b.kind, fields, items)
    ensures NextPosition(b, fields) == None && Records(b, fields) == items
  {
    hide Quiet, ReadPosition, Get;
  }

  /** Reading on after an event starts at the next one. */
  lemma AfterEvent(b: Book, j: nat)
    requires BookOk(b) && b.kind.Events? && j < |b.all|
    ensures IndexAt(b, SequenceOf(b.all[j])) == j + 1
  {
    hide Sequenced, SequenceOf;
    var n := CountTo(b.all, SequenceOf(b.all[j]));
    assert j < n;
    if j + 1 < |b.all| { assert SequenceOf(b.all[j]) < SequenceOf(b.all[j + 1]); }
  }

  /** Up to the last of the first `k` events kept, what is missing was superseded. */
  lemma MissingIsStale(cell: OutputCell, all: seq<Wire>, from: nat, to: nat, k: nat, j: nat)
    requires from <= j < to <= |all| && k <= |Kept(cell, all, from, to)| && j !in Kept(cell, all, from, to)[..k]
    requires k < |Kept(cell, all, from, to)| ==> k > 0 && j < Kept(cell, all, from, to)[k - 1]
    ensures Stale(cell, all, j, |all|)
  {
    var kept := Kept(cell, all, from, to);
    assert j !in kept;
    var i: nat :| j < i < to && Supersedes(cell, all, i, j);
  }

  /** What the first `k` records of a page are, and where the reader goes on. */
  ghost predicate PlacesAre(b: Book, from: nat, to: nat, next: nat, k: nat, at: seq<nat>, end: nat)
    requires BookOk(b) && from <= to <= |b.all| && EndsAt(b.kind, PageItems(b, from, to), next)
    requires k <= |PageItems(b, from, to)| && (k == 0 ==> PageItems(b, from, to) == [])
  {
    var first := PageItems(b, from, to)[..k];
    && end == IndexAt(b, NextAt(b.kind, PageItems(b, from, to), next, k)) && (from < to ==> from < end)
    && |at| == k && (forall i | 0 <= i < k :: at[i] < |b.all| && first[i] == b.all[at[i]])
    && Delivered(b, first, at, from, end)
  }

  /** Where a reader of the first `k` events of a page goes on. */
  lemma EventsEnd(b: Book, from: nat, to: nat, next: nat, k: nat)
    requires BookOk(b) && b.kind.Events? && from <= to <= |b.all|
    requires EndsAt(b.kind, PageItems(b, from, to), next) && IndexAt(b, next) == to
    requires k <= |PageItems(b, from, to)| && (k == 0 ==> PageItems(b, from, to) == [])
    ensures var kept := Kept(b.cell, b.all, from, to);
      && |PageItems(b, from, to)| == |kept| && (k == 0 ==> kept == [])
      && IndexAt(b, NextAt(b.kind, PageItems(b, from, to), next, k)) == (if k < |kept| then kept[k - 1] + 1 else to)
  {
    var kept := Kept(b.cell, b.all, from, to);
    hide EndsAt, Rising, Sequenced, SequenceOf, IndexAt, Stale, Kept;
    if k < |kept| { AfterEvent(b, kept[k - 1]); }
  }

  lemma EventPlaces(b: Book, from: nat, to: nat, next: nat, k: nat) returns (at: seq<nat>, end: nat)
    requires BookOk(b) && b.kind.Events? && from <= to <= |b.all|
    requires EndsAt(b.kind, PageItems(b, from, to), next) && IndexAt(b, next) == to
    requires k <= |PageItems(b, from, to)| && (k == 0 ==> PageItems(b, from, to) == [])
    ensures PlacesAre(b, from, to, next, k, at, end)
  {
    hide BookOk, EndsAt, Rising, Strip, Sequenced, SequenceOf, IndexAt, NextAt, Delivered, Stale, Kept;
    var kept := Kept(b.cell, b.all, from, to);
    at := kept[..k];
    EventsEnd(b, from, to, next, k);
    end := IndexAt(b, NextAt(b.kind, PageItems(b, from, to), next, k));
    EventsDelivered(b, from, to, k, end);
    if from < to { LatestKept(b.cell, b.all, from, to); }
  }

  /** A page of events is never empty unless nothing is left. */
  lemma LatestKept(cell: OutputCell, all: seq<Wire>, from: nat, to: nat)
    requires from < to <= |all|
    ensures Kept(cell, all, from, to) != []
  {
    assert to - 1 in Kept(cell, all, from, to);
  }

  lemma EventsDelivered(b: Book, from: nat, to: nat, k: nat, end: nat)
    requires b.kind.Events? && from <= to <= |b.all|
    requires var kept := Kept(b.cell, b.all, from, to);
      && k <= |kept| && (k == 0 ==> kept == []) && end == if k < |kept| then kept[k - 1] + 1 else to
    ensures Delivered(b, PageItems(b, from, to)[..k], Kept(b.cell, b.all, from, to)[..k], from, end)
  {
    hide Kept, Stale, Strip, Delivered, Pick;
    var kept := Kept(b.cell, b.all, from, to);
    assert PageItems(b, from, to) == Pick(b.all, kept);
    hide PageItems;
    forall j | from <= j < end && j !in kept[..k] ensures Stale(b.cell, b.all, j, |b.all|) {
      MissingIsStale(b.cell, b.all, from, to, k, j);
    }
    FirstDelivered(b, PageItems(b, from, to), kept, k, from, end);
  }

  lemma FirstDelivered(b: Book, items: seq<Wire>, kept: seq<nat>, k: nat, from: nat, end: nat)
    requires b.kind.Events? && k <= |kept| == |items| && end <= |b.all|
    requires forall i, j | 0 <= i < j < |kept| :: kept[i] < kept[j]
    requires forall i | 0 <= i < |kept| :: from <= kept[i] < |b.all| && items[i] == b.all[kept[i]]
    requires forall i | 0 <= i < k :: kept[i] < end
    requires forall j | from <= j < end && j !in kept[..k] :: Stale(b.cell, b.all, j, |b.all|)
    ensures Delivered(b, items[..k], kept[..k], from, end)
  {
    hide Stale, Strip;
  }

  lemma ListPlaces(b: Book, from: nat, to: nat, k: nat) returns (at: seq<nat>, end: nat)
    requires BookOk(b) && !b.kind.Events? && from <= to <= |b.all|
    requires EndsAt(b.kind, PageItems(b, from, to), to)
    requires k <= |PageItems(b, from, to)| && (k == 0 ==> PageItems(b, from, to) == [])
    ensures PlacesAre(b, from, to, to, k, at, end)
  {
    hide EndsAt, Strip;
    at := seq(k, i => from + i);
    end := from + k;
    forall j | from <= j < end ensures j in at {
      assert at[j - from] == j;
    }
  }

  lemma WholeList(b: Book, from: nat) returns (at: seq<nat>)
    requires !b.kind.Events? && from <= |b.all|
    ensures |at| == |b.all| - from && Delivered(b, b.all[from..], at, from, |b.all|)
    ensures forall i | 0 <= i < |at| :: b.all[from..][i] == b.all[at[i]]
  {
    hide Stale, Strip;
    at := seq(|b.all| - from, i => from + i);
    forall j | from <= j < |b.all| ensures j in at {
      assert at[j - from] == j;
    }
  }

  lemma DeliveredStripped(b: Book, records: seq<Wire>, at: seq<nat>, from: nat, end: nat)
    requires Delivered(b, records, at, from, end) && forall i | 0 <= i < |at| :: records[i] == b.all[at[i]]
    ensures Delivered(b, StripItems(records), at, from, end)
  {
    hide Strip;
  }

  lemma NothingBetween(b: Book, from: nat)
    requires from <= |b.all|
    ensures PageItems(b, from, from) == []
  {
  }

  /** Whatever survives the budget delivers records from the requested one on, and makes progress. */
  lemma OneAnswer(b: Book, page: seq<Field>, size: Wire -> nat, text: Notes -> Str, max: nat, position: nat)
    returns (at: seq<nat>, end: nat)
    requires BookOk(b) && Serves(b, position, page) && Bound(page, size, text, max).Fits?
    ensures var out := Bound(page, size, text, max).fields; var from := IndexAt(b, position);
      && Delivered(b, Records(b, out), at, from, end) && from <= end && (Records(b, page) != [] ==> from < end)
      && end == if NextPosition(b, out).Some? then IndexAt(b, NextPosition(b, out).value) else |b.all|
  {
    hide Bound, PageIn, LastIn, NextPosition, Records, StripItems, EndsAt, Delivered, Kept, Pick, BookOk;
    var from := IndexAt(b, position);
    var out := Bound(page, size, text, max).fields;
    var to: nat, next: nat :| Paged(b, page, from, to, next);
    var items := PageItems(b, from, to);
    if b.kind.Events? || to < |b.all| {
      ReadsPage(b, page, items, next);
      NothingBetween(b, from);
      var k := BoundedPage(b.place, b.kind, page, size, text, max, items, next);
      if b.kind.Events? { at, end := EventPlaces(b, from, to, next, k); } else { at, end := ListPlaces(b, from, to, k); }
      if PageIn(b.place, b.kind, out, items[..k], NextAt(b.kind, items, next, k)) {
        ReadsPage(b, out, items[..k], NextAt(b.kind, items, next, k));
      } else {
        DeliveredStripped(b, items[..k], at, from, end);
        assert StripItems(items)[..k] == StripItems(items[..k]);
        ReadsPage(b, out, StripItems(items)[..k], NextAt(b.kind, items, next, k));
      }
    } else {
      ReadsLast(b, page, items);
      LastPageWhole(b.place, b.kind, page, size, text, max, items);
      end := |b.all|;
      at := WholeList(b, from);
      assert items == b.all[from..];
      if LastIn(b.place, b.kind, out, items) {
        ReadsLast(b, out, items);
      } else {
        DeliveredStripped(b, items, at, from, end);
        ReadsLast(b, out, StripItems(items));
      }
    }
  }

  // ---------------------------------------------------------------------------
  // whole readings
  // ---------------------------------------------------------------------------

  lemma DeliveredNext(b: Book, first: seq<Wire>, at: seq<nat>, from: nat, mid: nat, rest: seq<Wire>, more: seq<nat>, end: nat)
    requires from <= mid <= end && Delivered(b, first, at, from, mid) && Delivered(b, rest, more, mid, end)
    ensures Delivered(b, first + rest, at + more, from, end)
  {
    hide Stale, Strip;
    forall j | from <= j < end && j !in at + more ensures b.kind.Events? && Stale(b.cell, b.all, j, |b.all|) {
      assert j !in at && j !in more;
    }
  }

  function Least(a: nat, b: nat): nat { if a <= b then a else b }

  /**
   * Under any budgets, from any position and with any honest server: the records read are the next
   * ones, in order, each once; a reading that ends has met all of them, and so has one that asked
   * a prompt server once for every record, unless an answer was refused.
   */
  lemma {:induction false} EveryRecordOnce(b: Book, serve: Server, size: Wire -> nat, text: Notes -> Str, budgets: seq<nat>, position: nat)
    returns (at: seq<nat>, end: nat)
    requires BookOk(b) && Honest(b, serve)
    ensures var r := Follow(b, serve, size, text, budgets, position); var from := IndexAt(b, position);
      && from <= end <= |b.all| && Delivered(b, r.records, at, from, end)
      && (r.Finished? ==> end == |b.all|)
      && (r.Paused? ==> end == IndexAt(b, r.position))
      && (r.Paused? && Prompt(b, serve) ==> end >= Least(|b.all|, from + |budgets|))
    decreases |budgets|
  {
    hide Bound, NextPosition, Records, Delivered, BookOk, Serves, IndexAt;
    var from := IndexAt(b, position);
    at, end := [], from;
    NothingYet(b, from);
    if budgets != [] {
      var page := serve(|budgets|, position);
      if page.Some? && Bound(page.value, size, text, budgets[0]).Fits? {
        var out := Bound(page.value, size, text, budgets[0]).fields;
        at, end := OneAnswer(b, page.value, size, text, budgets[0], position);
        if NextPosition(b, out).Some? {
          var next := NextPosition(b, out).value;
          var more, last := EveryRecordOnce(b, serve, size, text, budgets[1..], next);
          DeliveredNext(b, Records(b, out), at, from, end, Follow(b, serve, size, text, budgets[1..], next).records, more, last);
          at, end := at + more, last;
        }
      }
    }
  }

  lemma NothingYet(b: Book, from: nat)
    requires from <= |b.all|
    ensures Delivered(b, [], [], from, from)
  {
  }

  /** A list read to its end is the whole list. */
  lemma WholeListRead(b: Book, records: seq<Wire>, at: seq<nat>, from: nat)
    requires !b.kind.Events? && from <= |b.all| && Delivered(b, records, at, from, |b.all|)
    ensures |records| == |b.all| - from
    ensures forall i | 0 <= i < |records| :: records[i] == b.all[from + i] || records[i] == Strip(b.all[from + i])
  {
    hide Strip;
    Consecutive(at, from, |b.all|);
  }

  /** Increasing numbers that leave out none are consecutive. */
  lemma {:induction false} Consecutive(at: seq<nat>, from: nat, end: nat)
    requires from <= end && (forall i, j | 0 <= i < j < |at| :: at[i] < at[j])
    requires (forall i | 0 <= i < |at| :: from <= at[i] < end) && forall j | from <= j < end :: j in at
    ensures |at| == end - from && forall i | 0 <= i < |at| :: at[i] == from + i
    decreases end - from
  {
    assert from < end ==> from in at;
    if at != [] {
      assert at[0] == from;
      forall j | from + 1 <= j < end ensures j in at[1..] {
        assert j in at;
      }
      Consecutive(at[1..], from + 1, end);
      assert forall i | 1 <= i < |at| :: at[i] == at[1..][i - 1];
    }
  }

  /** Of a journal read to its end, every event was met, or a later one for the same outputs. */
  lemma {:induction false} LatestRead(b: Book, records: seq<Wire>, at: seq<nat>, from: nat, j: nat) returns (k: nat)
    requires b.kind.Events? && from <= j < |b.all| && Delivered(b, records, at, from, |b.all|)
    ensures k in at && k < |b.all| && (k == j || Supersedes(b.cell, b.all, k, j))
    decreases |b.all| - j
  {
    k := j;
    if j !in at {
      var next: nat :| j < next < |b.all| && Supersedes(b.cell, b.all, next, j);
      k := LatestRead(b, records, at, from, next);
    }
  }
}
