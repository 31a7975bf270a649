/** The change journal of a notebook: a ring of events, read in coalesced pages behind a cursor. */
module ChangeJournals {
  import opened Options
  import opened Utf16
  import opened Cursors
  import opened Wires
  import opened Paging
  import opened PageSteps
  import opened PageBudget
  import opened Coalescing
  import opened PagingRuns

  // ---------------------------------------------------------------------------
  // what the journal answers
  // ---------------------------------------------------------------------------

  /** The event a draft becomes; its sequence is assigned by the journal. */
  function Event(draft: seq<Field>, sequence: nat): Wire { Obj(Put(draft, "sequence", Int(sequence))) }

  /** Sequences are contiguous from 1. */
  predicate Numbered(all: seq<Wire>) {
    forall i | 0 <= i < |all| :: Sequenced(all[i]) && SequenceOf(all[i]) == i + 1
  }

  datatype Answer = NotACursor | Ahead | CursorExpired | Page(events: seq<Wire>, next: Str)

  function Larger(a: int, b: int): int { if a < b then b else a }

  function Smaller(a: int, b: int): int { if a < b then a else b }

  /** The oldest sequence that is still retained. */
  function Oldest(last: nat, capacity: nat): nat { Larger(1, last - capacity + 1) }

  /** The events after the cursor, at most `count` of them, if all after it are retained. */
  function EventsSince(published: seq<Wire>, capacity: nat, cursor: Str, count: int): Answer {
    match ParseChanges(cursor)
    case None => NotACursor
    case Some(from) =>
      if from > |published| then Ahead
      else if |published| > 0 && from < Oldest(|published|, capacity) - 1 then CursorExpired
      else
        var to := from + Larger(0, Smaller(count, |published| - from));
        Page(published[from..to], MakeChanges(to))
  }

  /** A cursor is good exactly while every event after it is still retained. */
  lemma CursorGoodWhileRetained(published: seq<Wire>, capacity: nat, cursor: Str, count: int)
    ensures EventsSince(published, capacity, cursor, count).Page?
       <==> exists from: nat :: cursor == MakeChanges(from) && from <= |published| <= from + capacity
  {
    hide ParseChanges, MakeChanges;
    if ParseChanges(cursor).Some? {
      ChangesExact(cursor, ParseChanges(cursor).value);
    }
    if from: nat :| cursor == MakeChanges(from) && from <= |published| <= from + capacity {
      ChangesExact(cursor, from);
    }
  }

  // ---------------------------------------------------------------------------
  // the ring
  // ---------------------------------------------------------------------------

  lemma SlotsApart(a: nat, b: nat, n: nat)
    requires a < b < a + n
    ensures a % n != b % n
  {
    var k := b / n - a / n;
    assert b - a == n * k + (b % n - a % n);
    if k < 1 {
      assert n * k <= 0;
    } else {
      assert n * k >= n;
    }
  }

  lemma Assigned(draft: seq<Field>, sequence: nat)
    ensures Sequenced(Event(draft, sequence)) && SequenceOf(Event(draft, sequence)) == sequence
  {
    PutGet(draft, "sequence", Int(sequence), "sequence");
  }

  class ChangeJournal {
    const limit: nat
    const ring: array<Option<Wire>>
    var last: nat
    ghost var published: seq<Wire>

    /** Each of the last `limit` events is in its slot. */
    ghost predicate Valid()
      reads this, ring
    {
      && limit >= 1 && ring.Length == limit && |published| == last && Numbered(published)
      && forall i | 0 <= i < last && last - limit <= i :: ring[i % limit] == Some(published[i])
    }

    constructor (limit: int)
      ensures Valid() && fresh(ring) && published == [] && this.limit == Larger(1, limit)
    {
      this.limit := Larger(1, limit);
      ring := new Option<Wire>[Larger(1, limit)](_ => None);
      last := 0;
      published := [];
    }

    method Publish(draft: seq<Field>) returns (event: Wire)
      requires Valid()
      modifies this, ring
      ensures Valid() && published == old(published) + [event] && event == Event(draft, |published|)
    {
      hide Event, Sequenced, SequenceOf;
      var before := last;
      last := last + 1;
      event := Event(draft, last);
      Assigned(draft, last);
      ring[before % limit] := Some(event);
      published := published + [event];
      forall i | 0 <= i < last && last - limit <= i ensures ring[i % limit] == Some(published[i]) {
        if i < before { SlotsApart(i, before, limit); }
      }
    }

    method Since(cursor: Str, count: int) returns (r: Answer)
      requires Valid()
      ensures r == EventsSince(published, limit, cursor, count)
    {
      var from := ParseChanges(cursor);
      if from.None? { return NotACursor; }
      if from.value > last { return Ahead; }
      if last > 0 && from.value < Oldest(last, limit) - 1 { return CursorExpired; }
      var take := Larger(0, Smaller(count, last - from.value));
      var events: seq<Wire> := [];
      for sequence := from.value to from.value + take
        invariant events == published[from.value..sequence]
      {
        var event := ring[sequence % limit];
        assert event == Some(published[sequence]);
        if event.Some? { events := events + [event.value]; }
      }
      var returned := if |events| > 0 then SequenceAt(events[|events| - 1], from.value) else from.value;
      r := Page(events, MakeChanges(returned));
    }
  }

  /** The sequence of an event. */
  function SequenceAt(e: Wire, default: nat): (n: nat)
    ensures Sequenced(e) ==> n == SequenceOf(e)
  {
    if e.Obj? && Get(e.fields, "sequence").Int? && Get(e.fields, "sequence").n >= 0 then Get(e.fields, "sequence").n else default
  }

  // ---------------------------------------------------------------------------
  // the answer of notebook_changes
  // ---------------------------------------------------------------------------

  /** What else an answer says. */
  datatype View = View(notebook: Str, connection: Str, stale: bool, timedOut: bool, envelope: seq<Field>)

  function ChangesFields(view: View, events: seq<Wire>, next: Str, truncated: bool): seq<Field> {
    [Field("notebook_id", Text(view.notebook)), Field("events", Arr(events)), Field("next_cursor", Text(next)),
     Field("truncated", Bool(truncated)), Field("connection_state", Text(view.connection)),
     Field("stale", Bool(view.stale)), Field("wait_timed_out", Bool(view.timedOut))] + view.envelope
  }

  /** The events of a page that no later event of the page supersedes. */
  function Coalesced(cell: OutputCell, events: seq<Wire>): seq<Wire> { Pick(events, Kept(cell, events, 0, |events|)) }

  function ChangesAnswer(published: seq<Wire>, capacity: nat, cell: OutputCell, cursor: Str, count: int, view: View): Option<seq<Field>> {
    match EventsSince(published, capacity, cursor, count)
    case Page(events, next) =>
      var delivered := if ParseChanges(next).Some? then ParseChanges(next).value else |published|;
      Some(ChangesFields(view, Coalesced(cell, events), next, delivered < |published|))
    case _ => None
  }

  method NotebookChanges(journal: ChangeJournal, cell: OutputCell, cursor: Str, count: int, view: View) returns (r: Option<seq<Field>>)
    requires journal.Valid()
    ensures r == ChangesAnswer(journal.published, journal.limit, cell, cursor, count, view)
  {
    var page := journal.Since(cursor, count);
    if !page.Page? { return None; }
    assert Rising(page.events);
    var events := CoalesceOutputEvents(cell, page.events);
    var delivered := if ParseChanges(page.next).Some? then ParseChanges(page.next).value else journal.last;
    r := Some(ChangesFields(view, events, page.next, delivered < journal.last));
  }

  // ---------------------------------------------------------------------------
  // a journal is an honest server
  // ---------------------------------------------------------------------------

  /** By turns: how many events are published, how many are asked for, and what else is answered. */
  datatype Schedule = Schedule(published: nat -> nat, count: nat -> int, view: nat -> View)

  /** At each turn, the answer of a journal that has published the first events of the book. */
  function JournalServer(b: Book, capacity: nat, s: Schedule): Server {
    (turn: nat, position: nat) =>
      if s.published(turn) <= |b.all|
      then ChangesAnswer(b.all[..s.published(turn)], capacity, b.cell, MakeChanges(position), s.count(turn), s.view(turn))
      else None
  }

  /** A book of journal events, answered with envelopes that hold no page of their own. */
  ghost predicate JournalBook(b: Book, s: Schedule) {
    && b.kind.Events? && b.place.Top? && Numbered(b.all)
    && forall turn :: Quiet(s.view(turn).envelope, {ListKey(Events)}, {})
  }

  lemma NumberedRising(b: Book)
    requires b.kind.Events? && b.place.Top? && Numbered(b.all)
    ensures BookOk(b)
  {
  }

  lemma NumberedIndex(b: Book, position: nat)
    requires b.kind.Events? && b.place.Top? && Numbered(b.all) && BookOk(b)
    ensures IndexAt(b, position) == if position <= |b.all| then position else |b.all|
  {
    var n := CountTo(b.all, position);
    if n < |b.all| { assert SequenceOf(b.all[n]) == n + 1; }
    if n > 0 { assert SequenceOf(b.all[n - 1]) == n; }
  }

  function LeadingFields(view: View, events: seq<Wire>, next: Str): seq<Field> {
    [Field("notebook_id", Text(view.notebook)), Field("events", Arr(events)), Field("next_cursor", Text(next))]
  }

  lemma FieldsRead(view: View, events: seq<Wire>, next: Str, rest: seq<Field>)
    ensures var fields := LeadingFields(view, events, next) + rest;
      Get(fields, "events") == Arr(events) && Get(fields, "next_cursor") == Text(next)
  {
    var f := LeadingFields(view, events, next);
    var f2 := [f[2]] + rest;
    var f1 := [f[1]] + f2;
    assert f + rest == [f[0]] + f1;
    hide Get;
    ConsGet(f[2], rest, "next_cursor");
    ConsGet(f[1], f2, "next_cursor");
    ConsGet(f[0], f1, "next_cursor");
    ConsGet(f[1], f2, "events");
    ConsGet(f[0], f1, "events");
  }

  lemma {:induction false} QuietFields(first: seq<Field>, rest: seq<Field>)
    requires Quiet(rest, {ListKey(Events)}, {})
    requires forall f | f in first :: !f.value.Obj? && (f.value.Arr? ==> f.key == ListKey(Events))
    ensures Quiet(first + rest, {ListKey(Events)}, {})
  {
    if first == [] {
      assert first + rest == rest;
    } else {
      hide Quiet;
      QuietFields(first[1..], rest);
      QuietCons(first[0], first[1..] + rest);
      assert [first[0]] + (first[1..] + rest) == first + rest;
    }
  }

  lemma FieldsArePage(view: View, items: seq<Wire>, next: nat, truncated: bool)
    requires Quiet(view.envelope, {ListKey(Events)}, {}) && EndsAt(Events, items, next)
    ensures PageIn(Top, Events, ChangesFields(view, items, MakeChanges(next), truncated), items, next)
  {
    hide EndsAt, MakeChanges, Quiet, Get;
    var fields := ChangesFields(view, items, MakeChanges(next), truncated);
    var rest := fields[3..];
    assert fields == LeadingFields(view, items, MakeChanges(next)) + rest;
    FieldsRead(view, items, MakeChanges(next), rest);
    var first := fields[..7];
    assert fields == first + view.envelope;
    QuietFields(first, view.envelope);
  }

  lemma QuietCons(f: Field, rest: seq<Field>)
    requires Quiet(rest, {ListKey(Events)}, {}) && !f.value.Obj? && (f.value.Arr? ==> f.key == ListKey(Events))
    ensures Quiet([f] + rest, {ListKey(Events)}, {})
  {
    assert ([f] + rest)[1..] == rest && {} - {f.key} == {};
  }

  /** One answer of the journal, if it has one: the next window, coalesced, with the cursor after it. */
  lemma AnswerServes(b: Book, capacity: nat, s: Schedule, turn: nat, position: nat)
    requires JournalBook(b, s) && BookOk(b) && JournalServer(b, capacity, s)(turn, position).Some?
    ensures Serves(b, position, JournalServer(b, capacity, s)(turn, position).value)
    ensures s.published(turn) == |b.all| && s.count(turn) > 0 && position < |b.all| ==>
      Records(b, JournalServer(b, capacity, s)(turn, position).value) != []
  {
    hide Kept, Stale, Quiet, MakeChanges, ParseChanges, BookOk, ChangesFields, PageIn, IndexAt;
    var m := s.published(turn);
    ChangesExact(MakeChanges(position), position);
    var to := position + Larger(0, Smaller(s.count(turn), m - position));
    var window := b.all[position..to];
    assert b.all[..m][position..to] == window;
    var items := PageItems(b, position, to);
    KeptOfPage(b.cell, b.all, position, to);
    assert items == Coalesced(b.cell, window);
    NumberedIndex(b, position);
    NumberedIndex(b, to);
    WindowEnds(b, position, to);
    var truncated := (if ParseChanges(MakeChanges(to)).Some? then ParseChanges(MakeChanges(to)).value else m) < m;
    FieldsArePage(s.view(turn), items, to, truncated);
    var fields := JournalServer(b, capacity, s)(turn, position).value;
    assert fields == ChangesFields(s.view(turn), items, MakeChanges(to), truncated);
    assert Paged(b, fields, position, to, to);
    ReadsPage(b, fields, items, to);
    if position < to { LatestKept(b.cell, b.all, position, to); }
  }

  lemma WindowEnds(b: Book, from: nat, to: nat)
    requires b.kind.Events? && Numbered(b.all) && from <= to <= |b.all|
    ensures EndsAt(Events, PageItems(b, from, to), to)
  {
    hide Stale, Sequenced, SequenceOf;
  }

  /** Whatever is published and asked for between the turns, the journal answers honestly. */
  lemma JournalIsHonest(b: Book, capacity: nat, s: Schedule)
    requires JournalBook(b, s)
    ensures BookOk(b) && Honest(b, JournalServer(b, capacity, s))
    ensures (forall turn :: s.published(turn) == |b.all| && s.count(turn) > 0) ==> Prompt(b, JournalServer(b, capacity, s))
  {
    NumberedRising(b);
    hide JournalBook, Serves, JournalServer, Records, BookOk;
    forall turn, position | JournalServer(b, capacity, s)(turn, position).Some?
      ensures Serves(b, position, JournalServer(b, capacity, s)(turn, position).value)
      ensures (forall turn :: s.published(turn) == |b.all| && s.count(turn) > 0) && IndexAt(b, position) < |b.all| ==>
        Records(b, JournalServer(b, capacity, s)(turn, position).value) != []
    {
      AnswerServes(b, capacity, s, turn, position);
      NumberedIndex(b, position) by { assert b.kind.Events? && b.place.Top? && Numbered(b.all) by { BookFacts(b, s); } }
    }
  }

  lemma BookFacts(b: Book, s: Schedule)
    requires JournalBook(b, s)
    ensures b.kind.Events? && b.place.Top? && Numbered(b.all)
  {
  }

  /**
   * Following the cursors of `notebook_changes` over a journal that is written to, and forgets, while it
   * is read: the events met are the next ones in order, each once, and of those passed over each was
   * superseded by a later one of the same cell. An expired cursor ends the reading, it skips nothing.
   */
  lemma ReadingTheJournal(b: Book, capacity: nat, s: Schedule, size: Wire -> nat, text: Notes -> Str, budgets: seq<nat>, position: nat)
    returns (at: seq<nat>, end: nat)
    requires JournalBook(b, s) && position <= |b.all|
    ensures BookOk(b)
    ensures var r := Follow(b, JournalServer(b, capacity, s), size, text, budgets, position);
      && position <= end <= |b.all| && Delivered(b, r.records, at, position, end)
      && (r.Finished? ==> end == |b.all|) && (r.Paused? && r.position <= |b.all| ==> end == r.position)
      && ((r.Paused? && forall turn :: s.published(turn) == |b.all| && s.count(turn) > 0)
          ==> end >= Least(|b.all|, position + |budgets|))
  {
    hide JournalServer, Delivered, Follow, BookOk;
    JournalIsHonest(b, capacity, s);
    BookFacts(b, s);
    NumberedIndex(b, position);
    at, end := EveryRecordOnce(b, JournalServer(b, capacity, s), size, text, budgets, position);
    var r := Follow(b, JournalServer(b, capacity, s), size, text, budgets, position);
    if r.Paused? { NumberedIndex(b, r.position); }
  }
}
