/** Output events of a page are announced once per cell, between events of other kinds. */
module Coalescing {
  import opened Options
  import opened Utf16
  import opened Wires
  import opened PageSteps

  /** The cell whose outputs an event announces, if that is what it does. */
  type OutputCell = Wire -> Option<Str>

  /** Event `k` announces the same cell's outputs later, with nothing but output events in between. */
  predicate Supersedes(cell: OutputCell, all: seq<Wire>, k: nat, j: nat)
    requires j < |all| && k < |all|
  {
    && j < k && cell(all[j]).Some? && cell(all[k]) == cell(all[j])
    && forall m | j < m < k :: cell(all[m]).Some?
  }

  predicate Stale(cell: OutputCell, all: seq<Wire>, j: nat, to: nat)
    requires j < |all| && to <= |all|
  {
    exists k | j < k < to :: Supersedes(cell, all, k, j)
  }

  /** The events of a page that no later event of it supersedes. */
  function Kept(cell: OutputCell, all: seq<Wire>, from: nat, to: nat): (at: seq<nat>)
    requires from <= to <= |all|
    ensures forall i | 0 <= i < |at| :: from <= at[i] < to
    ensures forall i, j | 0 <= i < j < |at| :: at[i] < at[j]
    ensures forall j :: j in at <==> (from <= j < to && !Stale(cell, all, j, to))
    decreases |all| - from
  {
    if from == to then []
    else if Stale(cell, all, from, to) then Kept(cell, all, from + 1, to)
    else [from] + Kept(cell, all, from + 1, to)
  }

  function Pick(all: seq<Wire>, at: seq<nat>): (items: seq<Wire>)
    requires forall i | 0 <= i < |at| :: at[i] < |all|
    ensures |items| == |at| && forall i | 0 <= i < |at| :: items[i] == all[at[i]]
  {
    seq(|at|, i requires 0 <= i < |at| => all[at[i]])
  }

  // ---------------------------------------------------------------------------
  // the loop of the source
  // ---------------------------------------------------------------------------

  /** Into its place by sequence. */
  function Insert(items: seq<Wire>, e: Wire): (r: seq<Wire>)
    requires Rising(items) && Sequenced(e) && forall x | x in items :: SequenceOf(x) != SequenceOf(e)
    ensures Rising(r) && forall x :: x in r <==> x in items || x == e
  {
    if items == [] || SequenceOf(items[|items| - 1]) < SequenceOf(e) then
      RisingAppend(items, e);
      items + [e]
    else
      var last := items[|items| - 1];
      var rest := Insert(items[..|items| - 1], e);
      LastApart(items);
      RisingAppend(rest, last);
      rest + [last]
  }

  lemma RisingAppend(items: seq<Wire>, e: Wire)
    requires Rising(items) && Sequenced(e) && forall x | x in items :: SequenceOf(x) < SequenceOf(e)
    ensures Rising(items + [e]) && forall x :: x in items + [e] <==> x in items || x == e
  {
    hide Sequenced, SequenceOf;
  }

  lemma LastApart(items: seq<Wire>)
    requires Rising(items) && items != []
    ensures var last := items[|items| - 1]; var rest := items[..|items| - 1];
      && Rising(rest) && (forall x :: x in items <==> x in rest || x == last)
      && forall x | x in rest :: SequenceOf(x) < SequenceOf(last)
  {
    hide Sequenced, SequenceOf;
    assert items == items[..|items| - 1] + [items[|items| - 1]];
  }

  lemma NoneRising()
    ensures Rising([])
  {
  }

  /** Different cells with different events. */
  predicate Pending(pending: map<Str, Wire>) {
    && (forall c | c in pending :: Sequenced(pending[c]))
    && forall c, d | c in pending && d in pending && c != d :: SequenceOf(pending[c]) != SequenceOf(pending[d])
  }

  /** The pending events by sequence. */
  method Flush(pending: map<Str, Wire>) returns (items: seq<Wire>)
    requires Pending(pending)
    ensures Rising(items) && forall e :: e in items <==> exists c :: c in pending && pending[c] == e
  {
    hide Rising, Sequenced, SequenceOf;
    var left := pending;
    items := [];
    assert Rising(items) by { NoneRising(); }
    while left != map[]
      invariant Rising(items) && left.Keys <= pending.Keys && (forall c | c in left :: left[c] == pending[c])
      invariant forall e :: e in items <==> exists c :: c in pending && c !in left && pending[c] == e
      decreases |left|
    {
      var c :| c in left;
      items := Insert(items, left[c]);
      left := left - {c};
    }
  }

  method CoalesceOutputEvents(cell: OutputCell, events: seq<Wire>) returns (result: seq<Wire>)
    requires Rising(events)
    ensures result == Pick(events, Kept(cell, events, 0, |events|))
  {
    hide Rising, Kept, Stale, Newest, OutputsOnly, Pick;
    result := [];
    var pending: map<Str, Wire> := map[];
    ghost var start := 0;
    NothingPending(cell, events, 0);
    for i := 0 to |events|
      invariant start <= i && Run(cell, events, start, i, pending)
      invariant result == Pick(events, Kept(cell, events, 0, start))
    {
      match cell(events[i])
      case Some(c) =>
        NewestNext(cell, events, start, i, pending);
        pending := pending[c := events[i]];
      case None =>
        NewestPending(cell, events, start, i, pending);
        var flushed := Flush(pending);
        FlushedAre(cell, events, start, i, pending, flushed);
        RunEnds(cell, events, start, i, pending);
        result := result + flushed + [events[i]];
        pending := map[];
        start := i + 1;
        NothingPending(cell, events, i + 1);
    }
    NewestPending(cell, events, start, |events|, pending);
    var flushed := Flush(pending);
    FlushedAre(cell, events, start, |events|, pending, flushed);
    RunSplit(cell, events, start, |events|, pending);
    result := result + flushed;
  }

  /** Since `start`, where a run of output events may begin, the newest of each cell are pending. */
  ghost predicate Run(cell: OutputCell, all: seq<Wire>, start: nat, i: nat, pending: map<Str, Wire>)
    requires start <= i <= |all|
  {
    && OutputsOnly(cell, all, start, i) && (start > 0 ==> cell(all[start - 1]).None?)
    && Newest(cell, all, start, i, pending)
  }

  lemma NothingPending(cell: OutputCell, all: seq<Wire>, start: nat)
    requires start <= |all| && (start > 0 ==> cell(all[start - 1]).None?)
    ensures Run(cell, all, start, start, map[])
    ensures start == 0 ==> Pick(all, Kept(cell, all, 0, 0)) == []
  {
  }

  lemma RunSplit(cell: OutputCell, all: seq<Wire>, start: nat, i: nat, pending: map<Str, Wire>)
    requires start <= i <= |all| && Run(cell, all, start, i, pending)
    ensures Pick(all, Kept(cell, all, 0, i)) == Pick(all, Kept(cell, all, 0, start)) + Pick(all, Kept(cell, all, start, i))
  {
    KeptSplit(cell, all, 0, start, i);
    hide Kept;
    PickAppend(all, Kept(cell, all, 0, start), Kept(cell, all, start, i));
  }

  lemma RunEnds(cell: OutputCell, all: seq<Wire>, start: nat, i: nat, pending: map<Str, Wire>)
    requires start <= i < |all| && Run(cell, all, start, i, pending) && cell(all[i]).None?
    ensures Pick(all, Kept(cell, all, 0, i + 1))
         == Pick(all, Kept(cell, all, 0, start)) + Pick(all, Kept(cell, all, start, i)) + [all[i]]
  {
    hide Kept, Run, Pick;
    RunSplit(cell, all, start, i, pending);
    KeptSplit(cell, all, 0, i, i + 1);
    LastKept(cell, all, i);
    PickAppend(all, Kept(cell, all, 0, i), [i]);
    assert Pick(all, [i]) == [all[i]];
  }

  lemma LastKept(cell: OutputCell, all: seq<Wire>, i: nat)
    requires i < |all|
    ensures Kept(cell, all, i, i + 1) == [i]
  {
    assert !Stale(cell, all, i, i + 1) && Kept(cell, all, i + 1, i + 1) == [];
  }

  predicate OutputsOnly(cell: OutputCell, all: seq<Wire>, from: nat, to: nat)
    requires from <= to <= |all|
  {
    forall m | from <= m < to :: cell(all[m]).Some?
  }

  /** The pending events are those not superseded so far, by their cells. */
  ghost predicate Newest(cell: OutputCell, all: seq<Wire>, from: nat, to: nat, pending: map<Str, Wire>)
    requires from <= to <= |all|
  {
    && (forall c | c in pending :: exists m | from <= m < to && !Stale(cell, all, m, to) :: cell(all[m]) == Some(c) && pending[c] == all[m])
    && forall m | from <= m < to && !Stale(cell, all, m, to) ::
         cell(all[m]).Some? && cell(all[m]).value in pending && pending[cell(all[m]).value] == all[m]
  }

  lemma StaleNext(cell: OutputCell, all: seq<Wire>, from: nat, i: nat, m: nat)
    requires from <= m < i < |all| && OutputsOnly(cell, all, from, i + 1)
    ensures Stale(cell, all, m, i + 1) <==> Stale(cell, all, m, i) || cell(all[m]) == cell(all[i])
  {
    assert Supersedes(cell, all, i, m) <==> cell(all[m]) == cell(all[i]);
  }

  lemma NewestNext(cell: OutputCell, all: seq<Wire>, from: nat, i: nat, pending: map<Str, Wire>)
    requires from <= i < |all| && cell(all[i]).Some? && Run(cell, all, from, i, pending)
    ensures Run(cell, all, from, i + 1, pending[cell(all[i]).value := all[i]])
  {
    forall m | from <= m < i ensures Stale(cell, all, m, i + 1) <==> Stale(cell, all, m, i) || cell(all[m]) == cell(all[i]) {
      StaleNext(cell, all, from, i, m);
    }
    assert !Stale(cell, all, i, i + 1);
  }

  lemma NewestPending(cell: OutputCell, all: seq<Wire>, from: nat, to: nat, pending: map<Str, Wire>)
    requires Rising(all) && from <= to <= |all| && Run(cell, all, from, to, pending)
    ensures Pending(pending)
  {
    hide Sequenced, SequenceOf, Stale;
  }

  /** Two rising lists of the same events are the same list. */
  lemma {:induction false} SameList(a: seq<Wire>, b: seq<Wire>)
    requires Rising(a) && Rising(b) && forall e :: e in a <==> e in b
    ensures a == b
    decreases |a|
  {
    assert a != [] ==> a[0] in b;
    assert b != [] ==> b[0] in a;
    if a != [] {
      hide Rising, Sequenced, SequenceOf;
      LastApart(a);
      LastApart(b);
      var x, y := a[|a| - 1], b[|b| - 1];
      assert x in b && y in a;
      assert x == y;
      SameList(a[..|a| - 1], b[..|b| - 1]);
    }
  }

  lemma PickRising(all: seq<Wire>, at: seq<nat>)
    requires Rising(all) && forall i | 0 <= i < |at| :: at[i] < |all|
    requires forall i, j | 0 <= i < j < |at| :: at[i] < at[j]
    ensures Rising(Pick(all, at)) && forall e :: e in Pick(all, at) <==> exists j | j in at :: all[j] == e
  {
    hide Sequenced, SequenceOf;
    forall e ensures e in Pick(all, at) <==> exists j | j in at :: all[j] == e {
      if j :| j in at && all[j] == e {
        var i :| 0 <= i < |at| && at[i] == j;
        assert Pick(all, at)[i] == e;
      }
    }
  }

  lemma FlushedAre(cell: OutputCell, all: seq<Wire>, from: nat, to: nat, pending: map<Str, Wire>, flushed: seq<Wire>)
    requires Rising(all) && from <= to <= |all| && Run(cell, all, from, to, pending)
    requires Rising(flushed) && forall e :: e in flushed <==> exists c :: c in pending && pending[c] == e
    ensures flushed == Pick(all, Kept(cell, all, from, to))
  {
    var kept := Kept(cell, all, from, to);
    hide Rising, Stale, Kept, Pick;
    PickRising(all, kept);
    forall e ensures e in flushed <==> e in Pick(all, kept) {
      if e in flushed {
        var c :| c in pending && pending[c] == e;
        var m: nat :| from <= m < to && !Stale(cell, all, m, to) && cell(all[m]) == Some(c) && pending[c] == all[m];
        assert m in kept;
      }
    }
    SameList(flushed, Pick(all, kept));
  }

  lemma PickAppend(all: seq<Wire>, a: seq<nat>, b: seq<nat>)
    requires forall i | 0 <= i < |a + b| :: (a + b)[i] < |all|
    ensures forall i | 0 <= i < |a| :: a[i] < |all|
    ensures forall i | 0 <= i < |b| :: b[i] < |all|
    ensures Pick(all, a + b) == Pick(all, a) + Pick(all, b)
  {
    assert forall i | 0 <= i < |a| :: a[i] == (a + b)[i];
    assert forall i | 0 <= i < |b| :: b[i] == (a + b)[|a| + i];
  }

  lemma StaleSplit(cell: OutputCell, all: seq<Wire>, j: nat, mid: nat, to: nat)
    requires j < mid <= to <= |all|
    requires mid < |all| ==> cell(all[mid - 1]).None? || (to == mid + 1 && cell(all[mid]).None?)
    ensures Stale(cell, all, j, to) <==> Stale(cell, all, j, mid)
  {
    if Stale(cell, all, j, to) {
      var k: nat :| j < k < to && Supersedes(cell, all, k, j);
    }
  }

  lemma StaleOfPage(cell: OutputCell, all: seq<Wire>, from: nat, to: nat, i: nat)
    requires from <= from + i < to <= |all|
    ensures Stale(cell, all, from + i, to) <==> Stale(cell, all[from..to], i, to - from)
  {
    var page := all[from..to];
    if Stale(cell, page, i, to - from) {
      var k: nat :| i < k < to - from && Supersedes(cell, page, k, i);
      forall m | from + i < m < from + k ensures cell(all[m]).Some? {
        assert cell(page[m - from]).Some?;
      }
      assert Supersedes(cell, all, from + k, from + i);
    }
    if Stale(cell, all, from + i, to) {
      var k: nat :| from + i < k < to && Supersedes(cell, all, k, from + i);
      assert forall m | i < m < k - from :: page[m] == all[from + m];
      assert Supersedes(cell, page, k - from, i);
    }
  }

  /** Two increasing lists of the same numbers are the same list. */
  lemma {:induction false} SamePlaces(a: seq<nat>, b: seq<nat>)
    requires forall i, j | 0 <= i < j < |a| :: a[i] < a[j]
    requires forall i, j | 0 <= i < j < |b| :: b[i] < b[j]
    requires forall j :: j in a <==> j in b
    ensures a == b
  {
    assert a != [] ==> a[0] in b;
    assert b != [] ==> b[0] in a;
    if a != [] {
      assert a[0] == b[0];
      assert a == [a[0]] + a[1..] && b == [b[0]] + b[1..];
      forall j ensures j in a[1..] <==> j in b[1..] {
        assert j in a[1..] <==> j in a && j != a[0];
        assert j in b[1..] <==> j in b && j != b[0];
      }
      SamePlaces(a[1..], b[1..]);
    }
  }

  /** A place no event is superseded across. */
  lemma KeptSplit(cell: OutputCell, all: seq<Wire>, from: nat, mid: nat, to: nat)
    requires from <= mid <= to <= |all|
    requires mid > 0 && mid < |all| ==> cell(all[mid - 1]).None? || (to == mid + 1 && cell(all[mid]).None?)
    ensures Kept(cell, all, from, to) == Kept(cell, all, from, mid) + Kept(cell, all, mid, to)
  {
    hide Kept, Stale;
    forall j | from <= j < mid ensures Stale(cell, all, j, to) <==> Stale(cell, all, j, mid) {
      StaleSplit(cell, all, j, mid, to);
    }
    SamePlaces(Kept(cell, all, from, to), Kept(cell, all, from, mid) + Kept(cell, all, mid, to));
  }

  lemma KeptShift(cell: OutputCell, all: seq<Wire>, from: nat, to: nat, j: nat)
    requires from <= j < to <= |all|
    ensures j in Kept(cell, all, from, to) <==> j - from in Kept(cell, all[from..to], 0, to - from)
  {
    hide Kept, Stale;
    StaleOfPage(cell, all, from, to, j - from);
  }

  predicate Increasing(at: seq<nat>, from: nat, to: nat) {
    && (forall i | 0 <= i < |at| :: from <= at[i] < to)
    && forall i, j | 0 <= i < j < |at| :: at[i] < at[j]
  }

  lemma Shifted(a: seq<nat>, b: seq<nat>, from: nat, n: nat)
    requires Increasing(a, from, from + n) && Increasing(b, 0, n)
    requires forall j: nat | from <= j < from + n :: j in a <==> j - from in b
    ensures |a| == |b| && forall i | 0 <= i < |b| :: a[i] == from + b[i]
  {
    var shifted := seq(|b|, i requires 0 <= i < |b| => from + b[i]);
    forall j: nat ensures j in a <==> j in shifted {
      if j in a {
        var k :| 0 <= k < |b| && b[k] == j - from;
        assert shifted[k] == j;
      }
      if j in shifted {
        var k :| 0 <= k < |b| && shifted[k] == j;
        assert from + b[k] in a;
      }
    }
    SamePlaces(a, shifted);
  }

  lemma PlacesOfPage(cell: OutputCell, all: seq<Wire>, from: nat, to: nat)
    requires from <= to <= |all|
    ensures var a, b := Kept(cell, all, from, to), Kept(cell, all[from..to], 0, to - from);
      |a| == |b| && forall i | 0 <= i < |b| :: a[i] == from + b[i]
  {
    hide Kept, Stale;
    var a, b := Kept(cell, all, from, to), Kept(cell, all[from..to], 0, to - from);
    forall j: nat | from <= j < to ensures j in a <==> j - from in b {
      KeptShift(cell, all, from, to, j);
    }
    Shifted(a, b, from, to - from);
  }

  /** A page is coalesced on its own. */
  lemma KeptOfPage(cell: OutputCell, all: seq<Wire>, from: nat, to: nat)
    requires from <= to <= |all|
    ensures Pick(all, Kept(cell, all, from, to)) == Pick(all[from..to], Kept(cell, all[from..to], 0, to - from))
  {
    hide Kept, Stale;
    PlacesOfPage(cell, all, from, to);
  }
}
