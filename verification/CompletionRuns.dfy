/** When an execution completes, its cell shows the count and is idle; nothing else changes either. */
module CompletionRuns {
  import opened Options
  import opened Outputs
  import opened Displays
  import opened Reducer
  import opened ReducerRuns
  import opened OutputPlane

  /** Execution count and running state of a cell. */
  datatype Mark = Mark(count: Option<int>, running: bool)

  function MarkOf(p: Plane, e: ExecId): Mark
    requires Current(p, e)
  {
    var c := p.doc[CellOf(p.execs[e].area)];
    Mark(c.count, c.running)
  }

  /** What commands for an area make of them. */
  function Marked(m: Mark, es: seq<Effect>): Mark {
    if es == [] then m
    else
      var before := Marked(m, es[..|es| - 1]);
      match es[|es| - 1]
      case SetCount(_, count) => before.(count := count)
      case SetIdle(_) => before.(running := false)
      case _ => before
  }

  lemma EffectMarks(p: Plane, e: ExecId, effect: Effect)
    requires WellFormed(p) && Listed(p, e) && Current(p, e) && (effect.Update? || AreaOf(effect) == p.execs[e].area)
    requires Current(ApplyEffect(p, e, effect), e)
    ensures MarkOf(ApplyEffect(p, e, effect), e) == Marked(MarkOf(p, e), [effect])
  {
    FindListed(p, e);
    assert [effect][..0] == [];
  }

  lemma MarkedOne(m: Mark, es: seq<Effect>, effect: Effect)
    ensures Marked(m, es + [effect]) == Marked(Marked(m, es), [effect])
  {
    assert (es + [effect])[..|es|] == es && [effect][..0] == [];
  }

  lemma {:induction false} AllMarks(p: Plane, e: ExecId, es: seq<Effect>)
    requires WellFormed(p) && Listed(p, e) && Current(p, e) && OwnOrUpdate(es, p.execs[e].area)
    ensures Current(ApplyAll(p, e, es), e) && MarkOf(ApplyAll(p, e, es), e) == Marked(MarkOf(p, e), es)
  {
    hide WellFormed, Agrees, ApplyEffect, Replay;
    AllKeeps(p, e, es);
    if es != [] {
      var init, last := es[..|es| - 1], es[|es| - 1];
      assert es == init + [last];
      AllKeeps(p, e, init);
      AllMarks(p, e, init);
      var mid := ApplyAll(p, e, init);
      EffectKeeps(mid, e, last);
      EffectMarks(mid, e, last);
      MarkedOne(MarkOf(p, e), init, last);
    }
  }

  /** Only the closing commands matter. */
  lemma {:induction false} MarkedByLifecycle(m: Mark, es: seq<Effect>)
    ensures Marked(m, es) == Marked(m, Lifecycle(es))
  {
    if es != [] {
      hide Lifecycle;
      var init, last := es[..|es| - 1], es[|es| - 1];
      MarkedByLifecycle(m, init);
      if IsLifecycle(last) {
        LifecycleLast(es);
        MarkedOne(m, init, last);
        MarkedOne(m, Lifecycle(init), last);
        assert es == init + [last];
      } else {
        LifecycleLast(es);
      }
    }
  }

  lemma LifecycleLast(es: seq<Effect>)
    requires es != []
    ensures var init, last := es[..|es| - 1], es[|es| - 1];
      Lifecycle(es) == if IsLifecycle(last) then Lifecycle(init) + [last] else Lifecycle(init)
  {
  }

  lemma MarkedByBatch(m: Mark, area: Area, life: Progress)
    ensures Marked(m, Batch(area, life)) == Mark(life.count, false)
  {
    var b := Batch(area, life);
    assert b == [] + [b[0]] + [b[1]] + [b[2]];
    MarkedOne(m, [], b[0]);
    MarkedOne(m, [] + [b[0]], b[1]);
    MarkedOne(m, [] + [b[0]] + [b[1]], b[2]);
  }

  /**
   * In a live area, the message that completes an execution writes its count into the cell and makes it
   * idle; every other message leaves count and running state as they are.
   */
  lemma CompletionShows(p: Plane, e: ExecId, m: Msg)
    requires WellFormed(p) && Showing(p, e)
    ensures var q := Consume(p, e, m); var r := p.execs[e].reducer.value; var life := Feed(r, p.displays, m).r.life;
      Current(q, e) && MarkOf(q, e) == if life.completed && !r.life.completed then Mark(life.count, false) else MarkOf(p, e)
  {
    hide Feed, WellFormed, Agrees, ApplyAll, Lifecycle, Batch, Marked;
    var r := p.execs[e].reducer.value;
    ReducerArea(p, e);
    var f := Feed(r, p.displays, m);
    FeedLifecycle(r, p.displays, m);
    FeedTargets(r, p.displays, m);
    FedWellFormed(p, e, f.r, f.t);
    var fed := p.(displays := f.t, execs := p.execs[e := p.execs[e].(reducer := Some(f.r))]);
    assert Listed(fed, e) && Current(fed, e) && MarkOf(fed, e) == MarkOf(p, e);
    AllMarks(fed, e, f.effects);
    AllKeeps(fed, e, f.effects);
    MarkedByLifecycle(MarkOf(p, e), f.effects);
    MarkedByBatch(MarkOf(p, e), r.area, f.r.life);
    assert Marked(MarkOf(p, e), []) == MarkOf(p, e) by { MarkedNone(MarkOf(p, e)); }
  }

  lemma MarkedNone(m: Mark)
    ensures Marked(m, []) == m
  {
  }
}
