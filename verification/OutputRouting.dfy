/** The area table and the command routing of the execution registry, as it updates them in place. */
module OutputRouting {
  import opened Options
  import opened Outputs
  import opened Displays
  import opened Reducer
  import opened OutputPlane

  class OutputRouter {
    var displays: Table
    var execs: map<ExecId, Exec>
    var areas: seq<OwnedArea>
    var doc: map<CellKey, DocCell>

    ghost function View(): Plane
      reads this
    {
      Plane(displays, execs, areas, doc)
    }

    constructor (doc: map<CellKey, DocCell>, maxIds: nat, maxPerId: nat)
      ensures View() == Plane(Table([], maxIds, maxPerId), map[], [], doc)
    {
      displays, execs, areas, this.doc := Table([], maxIds, maxPerId), map[], [], doc;
    }

    method IsCurrent(e: ExecId) returns (current: bool)
      ensures current == Current(View(), e)
    {
      current := e in execs && CellOf(execs[e].area) in doc && doc[CellOf(execs[e].area)].writer == Some(e);
    }

    /** Stale entries are dropped first, then the oldest until there is room. */
    method Remember(owned: OwnedArea)
      modifies this`areas
      ensures View() == RememberArea(old(View()), owned)
    {
      var live: seq<OwnedArea> := [];
      for i := 0 to |areas|
        invariant areas == old(areas)
        invariant live == Live(old(View()), areas[..i])
      {
        assert areas[..i + 1][..i] == areas[..i];
        var current := IsCurrent(areas[i].exec);
        if current {
          live := live + [areas[i]];
        }
      }
      assert areas[..|areas|] == areas;
      ghost var n := |live|;
      ghost var all := live;
      while |live| >= AREA_CACHE_LIMIT
        invariant |live| <= n && live == all[n - |live|..]
        invariant n < AREA_CACHE_LIMIT ==> live == all
        invariant n >= AREA_CACHE_LIMIT ==> |live| >= AREA_CACHE_LIMIT - 1
      {
        live := live[1..];
      }
      areas := live + [owned];
    }

    /** A generation was opened for the cell; the request went out unless `sent` is false. */
    method OpenGeneration(e: ExecId, area: Area, budget: Option<nat>, sent: bool)
      requires Enabled(View(), Open(e, area, budget, sent))
      modifies this
      ensures View() == OpenArea(old(View()), e, area, budget, sent)
    {
      doc := doc[CellOf(area) := DocCell([], None, true, Some(e))];
      execs := execs[e := Exec(area, if sent then Some(Fresh(area, budget)) else None, [], 0, false)];
      Remember(OwnedArea(area, e));
    }

    method MarkLost(e: ExecId)
      requires e in execs
      modifies this`execs
      ensures View() == Lose(old(View()), e)
    {
      execs := execs[e := execs[e].(areaLost := true)];
    }

    /** Apply one command, but only while the target area is still live. */
    method Apply(e: ExecId, effect: Effect)
      requires e in execs
      modifies this
      ensures View() == ApplyEffect(old(View()), e, effect)
    {
      hide SinkWrite, WriteCell, Refresh;
      if effect.Complete? { return; }
      var area := AreaOf(effect);
      var i := FindArea(areas, area);
      if i == |areas| {
        MarkLost(e);
        return;
      }
      var owner := areas[i].exec;
      var current := IsCurrent(owner);
      if !current {
        areas := areas[..i] + areas[i + 1..];
        MarkLost(e);
        return;
      }
      var cell := CellOf(execs[owner].area);
      var (_, applied) := SinkWrite(doc[cell].outputs, effect);
      if !applied {
        MarkLost(e);
        return;
      }
      doc := doc[cell := WriteCell(doc[cell], effect)];
      if area != execs[e].area && owner != e {
        execs := execs[owner := Refresh(execs[owner], effect)];
      }
    }

    /** One routed message: feed the reducer, apply its commands in order, refresh the record. */
    method Consume(e: ExecId, m: Msg)
      requires e in execs && execs[e].reducer.Some?
      modifies this
      ensures View() == OutputPlane.Consume(old(View()), e, m)
    {
      hide Feed, ApplyEffect;
      var f := Feed(execs[e].reducer.value, displays, m);
      displays := f.t;
      execs := execs[e := execs[e].(reducer := Some(f.r))];
      ghost var fed := View();
      for i := 0 to |f.effects|
        invariant e in execs
        invariant View() == ApplyAll(fed, e, f.effects[..i])
      {
        assert f.effects[..i + 1][..i] == f.effects[..i];
        Apply(e, f.effects[i]);
        assert View() == ApplyAll(fed, e, f.effects[..i + 1]);
        assert e in ApplyAll(fed, e, f.effects[..i + 1]).execs;
      }
      assert f.effects[..|f.effects|] == f.effects;
      execs := execs[e := execs[e].(record := f.r.out.outputs)];
    }

    /** A lifecycle event voids display targets and areas. */
    method KernelChange()
      modifies this
      ensures View() == Step(old(View()), KernelChanged)
    {
      displays := Emptied(displays);
      areas := [];
    }
  }
}
