/** The `display_id` routing table of one kernel. */
module Displays {
  import opened Outputs

  datatype Entry = Entry(id: string, targets: seq<Target>)

  /** A JavaScript `Map` in insertion order, with the two caps it is kept under. */
  datatype Table = Table(entries: seq<Entry>, maxIds: nat, maxPerId: nat)

  function Find(es: seq<Entry>, id: string): (r: nat)
    ensures r <= |es| && (r < |es| ==> es[r].id == id) && forall i | 0 <= i < r :: es[i].id != id
  {
    if es == [] || es[0].id == id then 0 else 1 + Find(es[1..], id)
  }

  /** Every place `id` is shown. */
  function TargetsOf(t: Table, id: string): seq<Target> {
    var i := Find(t.entries, id);
    if i < |t.entries| then t.entries[i].targets else []
  }

  function DropFirst<T>(s: seq<T>): seq<T> { if s == [] then [] else s[1..] }

  /** A target list after one more registration: no duplicates, the oldest makes room. */
  function AddTarget(list: seq<Target>, target: Target, cap: nat): seq<Target> {
    if target in list then list
    else (if |list| >= cap then DropFirst(list) else list) + [target]
  }

  /** A new id at the end, after the oldest id made room when the table is full. */
  function WithId(t: Table, id: string): seq<Entry> {
    if Find(t.entries, id) < |t.entries| then t.entries
    else (if |t.entries| >= t.maxIds then DropFirst(t.entries) else t.entries) + [Entry(id, [])]
  }

  function WithTarget(t: Table, id: string, target: Target): Table {
    var es := WithId(t, id);
    var i := Find(es, id);
    if i < |es| then t.(entries := es[i := Entry(id, AddTarget(es[i].targets, target, t.maxPerId))])
    else t.(entries := es)
  }

  /** The targets of a list outside `area`. */
  function Outside(list: seq<Target>, area: Area): seq<Target> {
    if list == [] then []
    else Outside(list[..|list| - 1], area) + (if list[|list| - 1].area == area then [] else [list[|list| - 1]])
  }

  function ForgetEntries(es: seq<Entry>, area: Area): seq<Entry> {
    if es == [] then []
    else
      var e := es[|es| - 1];
      var kept := Outside(e.targets, area);
      ForgetEntries(es[..|es| - 1], area)
      + (if |kept| == |e.targets| then [e] else if kept == [] then [] else [Entry(e.id, kept)])
  }

  function Without(t: Table, area: Area): Table {
    t.(entries := ForgetEntries(t.entries, area))
  }

  function Emptied(t: Table): Table { t.(entries := []) }

  // ---------------------------------------------------------------------------
  // what the table keeps
  // ---------------------------------------------------------------------------

  predicate NoDuplicates<T(==)>(s: seq<T>) {
    forall i, j | 0 <= i < j < |s| :: s[i] != s[j]
  }

  function Max(a: nat, b: nat): nat { if a < b then b else a }

  /** Unique ids, no empty or duplicated target list, and both caps (a cap of 0 acts as 1). */
  predicate Sound(t: Table) {
    && |t.entries| <= Max(t.maxIds, 1)
    && (forall i, j | 0 <= i < j < |t.entries| :: t.entries[i].id != t.entries[j].id)
    && forall i | 0 <= i < |t.entries| :: SoundList(t.entries[i].targets, t.maxPerId)
  }

  predicate SoundList(list: seq<Target>, cap: nat) {
    list != [] && NoDuplicates(list) && |list| <= Max(cap, 1)
  }

  predicate Registered(t: Table, target: Target) {
    exists i :: 0 <= i < |t.entries| && target in t.entries[i].targets
  }

  /** Making room for an id keeps unique ids and sound lists, up to the new empty list. */
  lemma WithIdSound(t: Table, id: string)
    requires Sound(t)
    ensures var es := WithId(t, id); var i := Find(es, id);
      && |es| <= Max(t.maxIds, 1) && (forall j, k | 0 <= j < k < |es| :: es[j].id != es[k].id)
      && i < |es| && NoDuplicates(es[i].targets) && |es[i].targets| <= Max(t.maxPerId, 1)
      && (forall k | 0 <= k < |es| && k != i :: SoundList(es[k].targets, t.maxPerId))
      && (forall k | 0 <= k < |es| && es[k].targets != [] :: es[k] in t.entries)
  {
    var es := WithId(t, id);
    if Find(t.entries, id) == |t.entries| {
      assert es[|es| - 1].id == id && es[|es| - 1].targets == [];
      FindUnique(es, id, |es| - 1);
    }
  }

  lemma AddedEntry(es: seq<Entry>, i: nat, e: Entry, t: Table)
    requires i < |es| && e.id == es[i].id && SoundList(e.targets, t.maxPerId) && |es| <= Max(t.maxIds, 1)
    requires forall j, k | 0 <= j < k < |es| :: es[j].id != es[k].id
    requires forall k | 0 <= k < |es| && k != i :: SoundList(es[k].targets, t.maxPerId)
    ensures Sound(t.(entries := es[i := e]))
  {
  }

  /** Registration keeps the table sound, shows the new target, and adds no other. */
  lemma RegisterSound(t: Table, id: string, target: Target)
    requires Sound(t)
    ensures Sound(WithTarget(t, id, target))
    ensures target in TargetsOf(WithTarget(t, id, target), id)
    ensures forall x | Registered(WithTarget(t, id, target), x) :: x == target || Registered(t, x)
  {
    WithIdSound(t, id);
    hide Sound, SoundList, AddTarget, WithId, NoDuplicates;
    var es := WithId(t, id);
    var i := Find(es, id);
    var e := Entry(id, AddTarget(es[i].targets, target, t.maxPerId));
    AddedEntry(es, i, e, t);
    var r := WithTarget(t, id, target);
    FindUnique(r.entries, id, i);
    forall x | Registered(r, x) ensures x == target || Registered(t, x) {
      var k :| 0 <= k < |r.entries| && x in r.entries[k].targets;
      if x != target {
        assert x in es[k].targets;
        assert es[k] in t.entries;
      }
    }
  }

  lemma FindUnique(es: seq<Entry>, id: string, k: nat)
    requires k < |es| && es[k].id == id && forall i | 0 <= i < k :: es[i].id != id
    ensures Find(es, id) == k
  {
  }

  lemma {:induction false} OutsideElements(list: seq<Target>, area: Area)
    ensures forall x :: x in Outside(list, area) <==> x in list && x.area != area
    ensures |Outside(list, area)| <= |list|
    ensures |Outside(list, area)| == |list| ==> Outside(list, area) == list
  {
    if list != [] {
      var init, last := list[..|list| - 1], list[|list| - 1];
      OutsideElements(init, area);
      assert list == init + [last];
      assert forall x :: x in list <==> x in init || x == last;
    }
  }

  lemma {:induction false} OutsideKeeps(list: seq<Target>, area: Area)
    ensures forall x :: x in Outside(list, area) <==> x in list && x.area != area
    ensures |Outside(list, area)| <= |list|
    ensures NoDuplicates(list) ==> NoDuplicates(Outside(list, area))
    ensures |Outside(list, area)| == |list| ==> Outside(list, area) == list
  {
    OutsideElements(list, area);
    if list != [] && NoDuplicates(list) {
      var init, last := list[..|list| - 1], list[|list| - 1];
      OutsideKeeps(init, area);
      if last.area != area {
        assert last !in init;
        hide Outside;
      }
    }
  }

  predicate UniqueIds(es: seq<Entry>) {
    forall i, j | 0 <= i < j < |es| :: es[i].id != es[j].id
  }

  /** What forgetting `area` leaves of an entry. */
  function Leave(e: Entry, area: Area): Entry { Entry(e.id, Outside(e.targets, area)) }

  lemma ForgetLast(es: seq<Entry>, area: Area)
    requires es != [] && es[|es| - 1].targets != []
    ensures var left := Leave(es[|es| - 1], area);
            ForgetEntries(es, area)
            == ForgetEntries(es[..|es| - 1], area) + (if left.targets == [] then [] else [left])
  {
    OutsideKeeps(es[|es| - 1].targets, area);
  }

  lemma {:induction false} ForgetRemains(es: seq<Entry>, area: Area, x: Entry)
    requires forall e | e in es :: e.targets != []
    ensures x in ForgetEntries(es, area) <==> x.targets != [] && exists e :: e in es && Leave(e, area) == x
  {
    if es != [] {
      var init, last := es[..|es| - 1], es[|es| - 1];
      ForgetLast(es, area);
      ForgetRemains(init, area, x);
      assert forall e :: e in es <==> e in init || e == last;
    }
  }

  lemma {:induction false} ForgetUnique(es: seq<Entry>, area: Area)
    requires (forall e | e in es :: e.targets != []) && UniqueIds(es)
    ensures UniqueIds(ForgetEntries(es, area)) && |ForgetEntries(es, area)| <= |es|
  {
    if es != [] {
      var init, last := es[..|es| - 1], es[|es| - 1];
      ForgetLast(es, area);
      ForgetUnique(init, area);
      var r := ForgetEntries(init, area);
      forall k | 0 <= k < |r| ensures r[k].id != last.id {
        ForgetRemains(init, area, r[k]);
      }
    }
  }

  lemma ForgetTarget(t: Table, area: Area, x: Target)
    requires Sound(t)
    ensures Registered(Without(t, area), x) <==> Registered(t, x) && x.area != area
  {
    var r := ForgetEntries(t.entries, area);
    if Registered(Without(t, area), x) {
      var k :| 0 <= k < |r| && x in r[k].targets;
      ForgetRemains(t.entries, area, r[k]);
      var e :| e in t.entries && Leave(e, area) == r[k];
      OutsideKeeps(e.targets, area);
    }
    if Registered(t, x) && x.area != area {
      var i :| 0 <= i < |t.entries| && x in t.entries[i].targets;
      var e := t.entries[i];
      OutsideKeeps(e.targets, area);
      ForgetRemains(t.entries, area, Leave(e, area));
      assert e in t.entries && Leave(e, area) in r;
    }
  }

  /** Forgetting an area removes exactly its targets. */
  lemma ForgetSound(t: Table, area: Area)
    requires Sound(t)
    ensures Sound(Without(t, area))
    ensures forall x :: Registered(Without(t, area), x) <==> Registered(t, x) && x.area != area
  {
    var r := ForgetEntries(t.entries, area);
    ForgetUnique(t.entries, area);
    forall k | 0 <= k < |r| ensures SoundList(r[k].targets, t.maxPerId) {
      ForgetRemains(t.entries, area, r[k]);
      var e :| e in t.entries && Leave(e, area) == r[k];
      OutsideKeeps(e.targets, area);
      var i :| 0 <= i < |t.entries| && t.entries[i] == e;
      assert SoundList(t.entries[i].targets, t.maxPerId);
    }
    forall x ensures Registered(Without(t, area), x) <==> Registered(t, x) && x.area != area {
      ForgetTarget(t, area, x);
    }
  }

  // ---------------------------------------------------------------------------
  // the registry object
  // ---------------------------------------------------------------------------

  class DisplayRegistry {
    var entries: seq<Entry>
    const maxIds: nat
    const maxPerId: nat

    ghost function State(): Table
      reads this
    {
      Table(entries, maxIds, maxPerId)
    }

    constructor (maxIds: nat := 1024, maxPerId: nat := 64)
      ensures State() == Table([], maxIds, maxPerId)
      ensures Sound(State())
    {
      entries := [];
      this.maxIds, this.maxPerId := maxIds, maxPerId;
    }

    method Register(id: string, target: Target)
      modifies this
      ensures State() == WithTarget(old(State()), id, target)
      ensures old(Sound(State())) ==> Sound(State()) && target in TargetsOf(State(), id)
    {
      ghost var before := State();
      if Sound(before) { RegisterSound(before, id, target); }
      var at := Find(entries, id);
      if at == |entries| {
        if |entries| >= maxIds && |entries| > 0 {
          entries := entries[1..];
        }
        entries := entries + [Entry(id, [])];
        assert entries == WithId(before, id) && entries[|entries| - 1].id == id;
      }
      at := Find(entries, id);
      var list := entries[at].targets;
      if target !in list {
        if |list| >= maxPerId && |list| > 0 {
          list := list[1..];
        }
        list := list + [target];
      }
      entries := entries[at := Entry(id, list)];
    }

    method Resolve(id: string) returns (targets: seq<Target>)
      ensures targets == TargetsOf(State(), id)
    {
      var at := Find(entries, id);
      targets := if at < |entries| then entries[at].targets else [];
    }

    method ForgetGeneration(area: Area)
      modifies this
      ensures State() == Without(old(State()), area)
      ensures old(Sound(State())) ==>
                Sound(State()) && forall x :: Registered(State(), x) <==> old(Registered(State(), x)) && x.area != area
    {
      ghost var before := State();
      if Sound(before) { ForgetSound(before, area); }
      var remaining: seq<Entry> := [];
      for i := 0 to |entries|
        invariant entries == before.entries
        invariant remaining == ForgetEntries(entries[..i], area)
      {
        var e := entries[i];
        var kept := Outside(e.targets, area);
        assert entries[..i + 1][..i] == entries[..i];
        if |kept| == |e.targets| {
          remaining := remaining + [e];
        } else if kept != [] {
          remaining := remaining + [Entry(e.id, kept)];
        }
      }
      assert entries[..|entries|] == entries;
      entries := remaining;
    }

    method Clear()
      modifies this
      ensures State() == Emptied(old(State()))
    {
      entries := [];
    }
  }
}
