/** The display table over whole runs: what it always keeps, and when its targets stay displays. */
module DisplayRuns {
  import opened Options
  import opened Outputs
  import Utf16
  import opened Displays
  import opened Reducer
  import opened ReducerRuns
  import opened OutputPlane

  // ---------------------------------------------------------------------------
  // one reducer and the table
  // ---------------------------------------------------------------------------

  /** Every registered target of the area is in range. */
  ghost predicate Reaches(r: State, t: Table) {
    forall x | Registered(t, x) && x.area == r.area :: x.index < |r.out.outputs|
  }

  /** Every registered target of the area is a display output. */
  ghost predicate Shows(r: State, t: Table) {
    forall x | Registered(t, x) && x.area == r.area && x.index < |r.out.outputs| :: r.out.outputs[x.index].Display?
  }

  /** The step registers nothing for other areas. */
  ghost predicate OnlyOwn(t: Table, t': Table, area: Area) {
    forall x | Registered(t', x) :: x.area == area || Registered(t, x)
  }

  /** What one reducer owes the shared display table. */
  ghost predicate Tidy(r: State, t: Table) { Sound(t) && Reaches(r, t) }

  /** An output added now is stored. */
  predicate Stored(r: State, o: NbOutput) {
    !Exceeds(r.budget, if r.out.clearPending then Collected([], 0, r.out.incomplete, false) else r.out, Size(o))
  }

  lemma ClearTidy(r: State, t: Table)
    requires Sound(t)
    ensures var r1 := r.(out := Collected([], 0, r.out.incomplete, false));
            Tidy(r1, Without(t, r.area)) && Shows(r1, Without(t, r.area)) && OnlyOwn(t, Without(t, r.area), r.area)
  {
    ForgetSound(t, r.area);
  }

  lemma PushTidy(r: State, t: Table, o: NbOutput, id: Option<string>)
    requires Tidy(r, t)
    ensures var t1 := if id.Some? then WithTarget(t, id.value, Target(r.area, |r.out.outputs|)) else t;
            && Tidy(Push(r, o), t1) && OnlyOwn(t, t1, r.area)
            && (id.None? || o.Display? ==> Shows(r, t) ==> Shows(Push(r, o), t1))
            && (id.Some? && !o.Display? ==> !Shows(Push(r, o), t1))
  {
    if id.Some? {
      var x := Target(r.area, |r.out.outputs|);
      RegisterSound(t, id.value, x);
      assert Registered(WithTarget(t, id.value, x), x);
    }
  }

  lemma AddTidy(r: State, t: Table, o: NbOutput, id: Option<string>)
    requires Tidy(r, t)
    ensures var f := AddOutput(r, t, o, id);
            && Tidy(f.r, f.t) && OnlyOwn(t, f.t, r.area)
            && (id.None? || !Stored(r, o) || o.Display? ==> Shows(r, t) ==> Shows(f.r, f.t))
            && (id.Some? && Stored(r, o) && !o.Display? ==> !Shows(f.r, f.t))
  {
    hide Sound, Size, Registered, WithTarget, Without;
    var (r1, t1) := TakeDeferredClear(r, t);
    ClearTidy(r, t);
    PushTidy(r1, t1, o, id);
  }

  lemma StreamTidy(r: State, t: Table, name: StreamName, text: Utf16.Str)
    requires Tidy(r, t)
    ensures var f := HandleStream(r, t, name, text);
            Tidy(f.r, f.t) && OnlyOwn(t, f.t, r.area) && (Shows(r, t) ==> Shows(f.r, f.t))
  {
    hide AddOutput, Sound, Registered, Stored;
    AddTidy(r, t, Stream(name, text, []), None);
  }

  /** A failure is added without an id. */
  lemma ErrorTidy(r: State, t: Table, failure: Failure)
    requires Tidy(r, t)
    ensures var f := HandleError(r, t, failure);
            Tidy(f.r, f.t) && OnlyOwn(t, f.t, r.area) && (Shows(r, t) ==> Shows(f.r, f.t))
  {
    hide AddOutput, Sound, Registered, Stored;
    AddTidy(r.(life := Blamed(r.life, failure)), t, ErrorOf(failure), None);
  }

  // -- updates -------------------------------------------------------------------

  /** Output `i` exists, and replacing it by `o` stays within the budget. */
  predicate Fits(r: State, i: nat, o: NbOutput) {
    i < |r.out.outputs| && !Exceeds(r.budget, r.out, Size(o) - Size(r.out.outputs[i]))
  }

  lemma {:induction false} UpdateChanges(r: State, targets: seq<Target>, o: NbOutput)
    ensures var a, b := r.out.outputs, UpdateTargets(r, targets, o).0.out.outputs;
      |b| == |a| && forall i | 0 <= i < |a| :: b[i] == a[i] || b[i] == o
  {
    if targets != [] { UpdateChanges(r, targets[..|targets| - 1], o); }
  }

  /** If no own target fits, no cached output changes. */
  lemma {:induction false} UpdateNone(r: State, targets: seq<Target>, o: NbOutput)
    requires forall x | x in targets && x.area == r.area :: !Fits(r, x.index, o)
    ensures var r1 := UpdateTargets(r, targets, o).0;
      r1.out.outputs == r.out.outputs && r1.out.bytes == r.out.bytes && r1.budget == r.budget && r1.area == r.area
  {
    if targets != [] {
      var init, last := targets[..|targets| - 1], targets[|targets| - 1];
      assert targets == init + [last] && last in targets;
      UpdateNone(r, init, o);
      hide Size;
    }
  }

  lemma UpdateOne(r: State, target: Target, o: NbOutput)
    ensures var a, b := r.out.outputs, UpdateTarget(r, target, o).0.out.outputs;
      && |b| == |a| && (forall i | 0 <= i < |a| :: b[i] == a[i] || b[i] == o)
      && (target.area == r.area && Fits(r, target.index, o) ==> b[target.index] == o)
  {
    hide Size;
  }

  predicate Placed(os: seq<NbOutput>, targets: seq<Target>, area: Area, o: NbOutput) {
    exists x :: x in targets && x.area == area && x.index < |os| && os[x.index] == o
  }

  /** If one fits, some own target holds `o` afterwards. */
  lemma {:induction false} UpdateSome(r: State, targets: seq<Target>, o: NbOutput)
    requires exists x :: x in targets && x.area == r.area && Fits(r, x.index, o)
    ensures Placed(UpdateTargets(r, targets, o).0.out.outputs, targets, r.area, o)
  {
    var init, last := targets[..|targets| - 1], targets[|targets| - 1];
    assert targets == init + [last];
    UpdateTargetsFrame(r, init, o);
    var r1 := UpdateTargets(r, init, o).0;
    UpdateOne(r1, last, o);
    hide UpdateTarget;
    var b := UpdateTargets(r, targets, o).0.out.outputs;
    if exists x :: x in init && x.area == r.area && Fits(r, x.index, o) {
      UpdateSome(r, init, o);
      var x :| x in init && x.area == r.area && x.index < |r1.out.outputs| && r1.out.outputs[x.index] == o;
      assert x in targets && b[x.index] == o;
    } else {
      UpdateNone(r, init, o);
      assert last in targets && Fits(r1, last.index, o);
      assert b[last.index] == o;
    }
  }

  /** An update to other areas is sent for each of their targets. */
  lemma {:induction false} UpdateCross(r: State, targets: seq<Target>, o: NbOutput, x: Target)
    requires x.area != r.area
    ensures Update(x, o) in UpdateTargets(r, targets, o).1 <==> x in targets
  {
    if targets != [] {
      var init, last := targets[..|targets| - 1], targets[|targets| - 1];
      assert targets == init + [last];
      UpdateCross(r, init, o, x);
      UpdateTargetsFrame(r, init, o);
    }
  }

  lemma TargetsRegistered(t: Table, id: string, x: Target)
    requires x in TargetsOf(t, id)
    ensures Registered(t, x)
  {
  }

  /** Which part of the condition below is about the own area. */
  predicate OwnDisplays(r: State, t: Table, m: Msg) {
    match m
    case DisplayMsg(kind, content, id) => id.Some? && Stored(r, OutputOf(kind, content)) ==> OutputOf(kind, content).Display?
    case UpdateDisplay(content, id) =>
      var o := OutputOf(DisplayData, content);
      id.Some? && !o.Display? ==> forall x | x in TargetsOf(t, id.value) && x.area == r.area :: !Fits(r, x.index, o)
    case _ => true
  }

  lemma UpdateTidy(r: State, t: Table, content: Content, id: string)
    requires Tidy(r, t)
    ensures var f := HandleUpdateDisplay(r, t, content, Some(id)); var m := UpdateDisplay(content, Some(id));
      && Tidy(f.r, f.t) && f.t == t
      && (OwnDisplays(r, t, m) ==> Shows(r, t) ==> Shows(f.r, f.t)) && (!OwnDisplays(r, t, m) ==> !Shows(f.r, f.t))
  {
    hide Sound, UpdateTargets, Fits, Registered;
    var o := OutputOf(DisplayData, content);
    var targets := TargetsOf(t, id);
    UpdateTargetsFrame(r, targets, o);
    UpdateChanges(r, targets, o);
    if !OwnDisplays(r, t, UpdateDisplay(content, Some(id))) {
      UpdateSome(r, targets, o);
      var b := UpdateTargets(r, targets, o).0.out.outputs;
      var x :| x in targets && x.area == r.area && x.index < |b| && b[x.index] == o;
      TargetsRegistered(t, id, x);
    } else if !o.Display? {
      UpdateNone(r, targets, o);
    }
  }

  /**
   * Whatever the message: the table stays sound, own targets stay in range, nothing is registered for
   * others. The own targets stay displays exactly under the stated condition.
   */
  lemma FeedTidy(r: State, t: Table, m: Msg)
    requires Tidy(r, t)
    ensures var f := Feed(r, t, m);
      && Tidy(f.r, f.t) && OnlyOwn(t, f.t, r.area)
      && (OwnDisplays(r, t, m) ==> Shows(r, t) ==> Shows(f.r, f.t)) && (!OwnDisplays(r, t, m) ==> !Shows(f.r, f.t))
  {
    hide AddOutput, HandleStream, HandleUpdateDisplay, HandleError, Sound, Registered, Stored, Fits;
    match m
    case StreamMsg(name, text) => StreamTidy(r, t, name, text);
    case DisplayMsg(kind, content, id) => AddTidy(r, t, OutputOf(kind, content), id);
    case UpdateDisplay(content, id) =>
      if id.Some? { UpdateTidy(r, t, content, id.value); } else { NoId(r, t, content); }
    case ErrorMsg(failure) => ErrorTidy(r, t, failure);
    case Reply(status, count, failure) => ErrorTidy(r.(life := Replied(r.life, count)), t, failure);
    case ClearOutput(_) =>
      ClearTidy(r, t);
      ClearTidy(r.(out := r.out.(incomplete := false)), t);
    case _ =>
  }

  lemma NoId(r: State, t: Table, content: Content)
    ensures HandleUpdateDisplay(r, t, content, None) == Fed(r, t, [])
  {
  }

  // ---------------------------------------------------------------------------
  // the plane
  // ---------------------------------------------------------------------------

  /** Some execution's area has the target. */
  predicate HeldBy(x: Exec, target: Target) {
    x.area == target.area && x.reducer.Some? && target.index < |x.reducer.value.out.outputs|
  }

  predicate ShownBy(x: Exec, target: Target) {
    HeldBy(x, target) && x.reducer.value.out.outputs[target.index].Display?
  }

  /** Caps, unique ids, no empty list, no repeated target - and every target is an output somebody has. */
  ghost predicate Held(p: Plane) {
    && Sound(p.displays)
    && forall x | Registered(p.displays, x) :: exists e :: e in p.execs && HeldBy(p.execs[e], x)
  }

  ghost predicate AllDisplays(p: Plane) {
    forall x | Registered(p.displays, x) :: exists e :: e in p.execs && ShownBy(p.execs[e], x)
  }

  lemma OwnerReaches(p: Plane, e: ExecId)
    requires WellFormed(p) && Held(p) && e in p.execs && p.execs[e].reducer.Some?
    ensures Tidy(p.execs[e].reducer.value, p.displays)
  {
    hide Sound, Registered;
    var r := p.execs[e].reducer.value;
    forall x | Registered(p.displays, x) && x.area == r.area ensures x.index < |r.out.outputs| {
      var o :| o in p.execs && HeldBy(p.execs[o], x);
      assert o == e;
    }
  }

  lemma OwnerShows(p: Plane, e: ExecId)
    requires WellFormed(p) && AllDisplays(p) && e in p.execs && p.execs[e].reducer.Some?
    ensures Shows(p.execs[e].reducer.value, p.displays)
  {
    hide Registered;
    var r := p.execs[e].reducer.value;
    forall x | Registered(p.displays, x) && x.area == r.area && x.index < |r.out.outputs| ensures r.out.outputs[x.index].Display? {
      var o :| o in p.execs && ShownBy(p.execs[o], x);
      assert o == e;
    }
  }

  /** Some update of the message reaches the area of another execution. */
  predicate CrossLands(p: Plane, e: ExecId, x: Target) {
    exists o :: o in p.execs && o != e && p.execs[o].area == x.area && Landing(p, o, x.index)
  }

  /**
   * A display that is stored under an id has display content; so has an update that replaces an output,
   * be it an own one that fits the budget, or one of another area that is live and long enough.
   */
  predicate DisplaysOnly(p: Plane, ev: Event) {
    ev.Routed? && Enabled(p, ev) ==>
      && OwnDisplays(p.execs[ev.exec].reducer.value, p.displays, ev.m)
      && (ev.m.UpdateDisplay? && ev.m.id.Some? && !Wrote(ev.m).Display? ==>
            forall x | x in TargetsOf(p.displays, ev.m.id.value) :: !CrossLands(p, ev.exec, x))
  }

  lemma HeldElsewhere(p: Plane, e: ExecId, m: Msg, o: ExecId, x: Target)
    requires WellFormed(p) && e in p.execs && p.execs[e].reducer.Some? && o in p.execs && o != e && HeldBy(p.execs[o], x)
    ensures o in Consume(p, e, m).execs && HeldBy(Consume(p, e, m).execs[o], x)
  {
    hide Consume, Feed, Landing, WellFormed;
    ConsumeFollowed(p, e, m, o);
  }

  lemma HeldOwn(p: Plane, e: ExecId, m: Msg, x: Target)
    requires WellFormed(p) && Held(p) && e in p.execs && p.execs[e].reducer.Some?
    requires Registered(Consume(p, e, m).displays, x) && x.area == p.execs[e].area
    ensures e in Consume(p, e, m).execs && HeldBy(Consume(p, e, m).execs[e], x)
  {
    hide Sound, Registered, Consume, Feed, WellFormed, OwnDisplays, Shows;
    OwnerReaches(p, e);
    FeedTidy(p.execs[e].reducer.value, p.displays, m);
    ConsumeOwn(p, e, m);
  }

  lemma RegisteredBefore(p: Plane, e: ExecId, m: Msg, x: Target)
    requires WellFormed(p) && Held(p) && e in p.execs && p.execs[e].reducer.Some?
    requires Registered(Consume(p, e, m).displays, x) && x.area != p.execs[e].area
    ensures Registered(p.displays, x)
  {
    hide Sound, Registered, Consume, Feed, WellFormed, OwnDisplays, Shows;
    OwnerReaches(p, e);
    FeedTidy(p.execs[e].reducer.value, p.displays, m);
    ConsumeOwn(p, e, m);
    ReducerArea(p, e);
  }

  lemma HeldStays(p: Plane, e: ExecId, m: Msg, x: Target)
    requires WellFormed(p) && Held(p) && e in p.execs && p.execs[e].reducer.Some?
    requires Registered(Consume(p, e, m).displays, x)
    ensures var q := Consume(p, e, m);
      exists o :: o in q.execs && HeldBy(q.execs[o], x)
                  && (o != e ==> o in p.execs && HeldBy(p.execs[o], x) && Registered(p.displays, x))
  {
    hide Sound, Registered, Consume, WellFormed;
    var q := Consume(p, e, m);
    if x.area == p.execs[e].area {
      HeldOwn(p, e, m, x);
      assert e in q.execs && HeldBy(q.execs[e], x);
    } else {
      RegisteredBefore(p, e, m, x);
      var o :| o in p.execs && HeldBy(p.execs[o], x);
      HeldElsewhere(p, e, m, o, x);
      assert o in q.execs && HeldBy(q.execs[o], x);
    }
  }

  lemma ConsumeHeld(p: Plane, e: ExecId, m: Msg)
    requires WellFormed(p) && Held(p) && e in p.execs && p.execs[e].reducer.Some?
    ensures Held(Consume(p, e, m))
  {
    hide Sound, Registered, Consume, Feed, WellFormed;
    OwnerReaches(p, e);
    FeedTidy(p.execs[e].reducer.value, p.displays, m);
    ConsumeOwn(p, e, m);
    forall x | Registered(Consume(p, e, m).displays, x)
      ensures exists o :: o in Consume(p, e, m).execs && HeldBy(Consume(p, e, m).execs[o], x)
    {
      HeldStays(p, e, m, x);
    }
  }

  /** What a message writes over output `i` of another execution's area. */
  lemma CrossWrites(p: Plane, e: ExecId, m: Msg, o: ExecId, i: nat)
    requires WellFormed(p) && e in p.execs && p.execs[e].reducer.Some? && o in p.execs && o != e
    ensures Update(Target(p.execs[o].area, i), Wrote(m)) in Feed(p.execs[e].reducer.value, p.displays, m).effects
       <==> m.UpdateDisplay? && m.id.Some? && Target(p.execs[o].area, i) in TargetsOf(p.displays, m.id.value)
  {
    var r := p.execs[e].reducer.value;
    ReducerArea(p, e);
    FeedUpdates(r, p.displays, m);
    assert p.execs[o].area != r.area;
    if m.UpdateDisplay? && m.id.Some? {
      UpdateCross(r, TargetsOf(p.displays, m.id.value), Wrote(m), Target(p.execs[o].area, i));
    }
    hide WellFormed, UpdateTargets, TargetsOf, Size;
  }

  lemma ConsumeShows(p: Plane, e: ExecId, m: Msg)
    requires WellFormed(p) && Held(p) && AllDisplays(p) && e in p.execs && p.execs[e].reducer.Some?
    requires DisplaysOnly(p, Routed(e, m))
    ensures AllDisplays(Consume(p, e, m))
  {
    hide Sound, Registered, Consume, Feed, WellFormed, Landing, OwnDisplays, TargetsOf;
    var q := Consume(p, e, m);
    OwnerReaches(p, e);
    OwnerShows(p, e);
    FeedTidy(p.execs[e].reducer.value, p.displays, m);
    ConsumeOwn(p, e, m);
    forall x | Registered(q.displays, x) ensures exists o :: o in q.execs && ShownBy(q.execs[o], x) {
      HeldStays(p, e, m, x);
      var o :| o in q.execs && HeldBy(q.execs[o], x)
               && (o != e ==> o in p.execs && HeldBy(p.execs[o], x) && Registered(p.displays, x));
      if o != e {
        ConsumeFollowed(p, e, m, o);
        CrossWrites(p, e, m, o, x.index);
        OwnerShows(p, o);
        ReducerArea(p, o);
        assert x == Target(p.execs[o].area, x.index);
        if Landing(p, o, x.index) { assert CrossLands(p, e, x); }
      }
      assert ShownBy(q.execs[o], x);
    }
  }

  lemma ConsumeBreaks(p: Plane, e: ExecId, m: Msg)
    requires WellFormed(p) && Held(p) && e in p.execs && p.execs[e].reducer.Some?
    requires !DisplaysOnly(p, Routed(e, m))
    ensures !AllDisplays(Consume(p, e, m))
  {
    hide Sound, Registered, Consume, Feed, WellFormed, Landing, OwnDisplays, TargetsOf;
    var r := p.execs[e].reducer.value;
    var q := Consume(p, e, m);
    OwnerReaches(p, e);
    FeedTidy(r, p.displays, m);
    ConsumeOwn(p, e, m);
    ConsumeWellFormed(p, e, m);
    if AllDisplays(q) {
      OwnerShows(q, e);
      assert OwnDisplays(r, p.displays, m);
      var x :| x in TargetsOf(p.displays, m.id.value) && CrossLands(p, e, x);
      var o :| o in p.execs && o != e && p.execs[o].area == x.area && Landing(p, o, x.index);
      UpdatedElsewhere(p, e, m, o, x);
      OwnerShows(q, o);
      ReducerArea(q, o);
    }
  }

  /** The update lands: the target is still registered, and is no display any more. */
  lemma UpdatedElsewhere(p: Plane, e: ExecId, m: Msg, o: ExecId, x: Target)
    requires WellFormed(p) && Held(p) && e in p.execs && p.execs[e].reducer.Some? && m.UpdateDisplay? && m.id.Some?
    requires o in p.execs && o != e && p.execs[o].area == x.area && Landing(p, o, x.index)
    requires x in TargetsOf(p.displays, m.id.value) && !Wrote(m).Display?
    ensures var q := Consume(p, e, m);
      && Registered(q.displays, x) && o in q.execs && q.execs[o].reducer.Some? && q.execs[o].area == x.area
      && x.index < |q.execs[o].reducer.value.out.outputs| && !q.execs[o].reducer.value.out.outputs[x.index].Display?
  {
    hide Sound, Registered, Consume, WellFormed, Landing, UpdateTargets;
    TargetsRegistered(p.displays, m.id.value, x);
    ConsumeOwn(p, e, m);
    assert Feed(p.execs[e].reducer.value, p.displays, m).t == p.displays;
    var h :| h in p.execs && HeldBy(p.execs[h], x);
    assert h == o by { SameArea(p, h, o); }
    ConsumeFollowed(p, e, m, o);
    CrossWrites(p, e, m, o, x.index);
    assert x == Target(p.execs[o].area, x.index);
  }

  lemma SameArea(p: Plane, a: ExecId, b: ExecId)
    requires WellFormed(p) && a in p.execs && b in p.execs && p.execs[a].area == p.execs[b].area
    ensures a == b
  {
  }

  // ---------------------------------------------------------------------------
  // whole runs
  // ---------------------------------------------------------------------------

  /** Everything but a message leaves registered outputs alone, or voids the whole table. */
  lemma RestHeld(p: Plane, ev: Event)
    requires WellFormed(p) && Enabled(p, ev) && !ev.Routed?
    ensures Held(p) ==> Held(Step(p, ev))
    ensures AllDisplays(p) ==> AllDisplays(Step(p, ev))
  {
    hide Registered, WellFormed, Trimmed, Live;
    var q := Step(p, ev);
    assert q.displays == p.displays || q.displays == Emptied(p.displays);
    assert forall e | e in p.execs :: e in q.execs && q.execs[e] == p.execs[e];
    EmptiedHolds(p.displays);
    forall x | Registered(q.displays, x) && Held(p) ensures exists e :: e in q.execs && HeldBy(q.execs[e], x) {
      var e :| e in p.execs && HeldBy(p.execs[e], x);
      assert e in q.execs && HeldBy(q.execs[e], x);
    }
    forall x | Registered(q.displays, x) && AllDisplays(p) ensures exists e :: e in q.execs && ShownBy(q.execs[e], x) {
      var e :| e in p.execs && ShownBy(p.execs[e], x);
      assert e in q.execs && ShownBy(q.execs[e], x);
    }
  }

  lemma EmptiedHolds(t: Table)
    ensures Sound(Emptied(t)) && forall x :: !Registered(Emptied(t), x)
  {
  }

  lemma StepHeld(p: Plane, ev: Event)
    requires WellFormed(p) && Held(p)
    ensures Held(Apply(p, ev))
    ensures AllDisplays(p) && DisplaysOnly(p, ev) ==> AllDisplays(Apply(p, ev))
    ensures !DisplaysOnly(p, ev) ==> !AllDisplays(Apply(p, ev))
  {
    hide WellFormed, Held, AllDisplays, Consume, Feed, OwnDisplays, CrossLands, TargetsOf;
    if Enabled(p, ev) {
      if ev.Routed? {
        ConsumeHeld(p, ev.exec, ev.m);
        if !DisplaysOnly(p, ev) {
          ConsumeBreaks(p, ev.exec, ev.m);
        } else if AllDisplays(p) {
          ConsumeShows(p, ev.exec, ev.m);
        }
      } else {
        RestHeld(p, ev);
      }
    }
  }

  lemma {:induction false} RunHeld(p: Plane, evs: seq<Event>)
    requires Initial(p)
    ensures Held(RunAll(p, evs))
  {
    if evs != [] {
      RunHeld(p, evs[..|evs| - 1]);
      RunWellFormed(p, evs[..|evs| - 1]);
      hide WellFormed, Held, Apply, DisplaysOnly;
      StepHeld(RunAll(p, evs[..|evs| - 1]), evs[|evs| - 1]);
    }
  }

  /**
   * The display table over every run, whatever the messages bring: both caps hold, ids are unique,
   * no list is empty or repeats a target, and every target is an output that its area really has.
   */
  lemma DisplayTableSound(p: Plane, evs: seq<Event>, x: Target)
    requires Initial(p)
    ensures Sound(RunAll(p, evs).displays)
    ensures Registered(RunAll(p, evs).displays, x) ==>
              exists e :: e in RunAll(p, evs).execs && HeldBy(RunAll(p, evs).execs[e], x)
  {
    RunHeld(p, evs);
  }

  lemma {:induction false} DisplaysUpTo(p: Plane, evs: seq<Event>, k: nat)
    requires Initial(p) && k <= |evs| && forall j | 0 <= j < k :: DisplaysOnly(RunAll(p, evs[..j]), evs[j])
    ensures AllDisplays(RunAll(p, evs[..k]))
  {
    if k == 0 {
      assert evs[..0] == [];
    } else {
      DisplaysUpTo(p, evs, k - 1);
      RunNext(p, evs, k - 1);
      RunWellFormed(p, evs[..k - 1]);
      RunHeld(p, evs[..k - 1]);
      hide WellFormed, Held, AllDisplays, Apply, DisplaysOnly;
      StepHeld(RunAll(p, evs[..k - 1]), evs[k - 1]);
    }
  }

  /**
   * Throughout a run every registered target is a display exactly when no display stored under an id,
   * and no update that replaces an output, brings content that is not a display.
   */
  lemma DisplaysIff(p: Plane, evs: seq<Event>)
    requires Initial(p)
    ensures (forall k | 0 <= k <= |evs| :: AllDisplays(RunAll(p, evs[..k])))
       <==> (forall k | 0 <= k < |evs| :: DisplaysOnly(RunAll(p, evs[..k]), evs[k]))
  {
    hide WellFormed, Held, AllDisplays, DisplaysOnly, RunAll, Initial, Apply;
    if forall k | 0 <= k < |evs| :: DisplaysOnly(RunAll(p, evs[..k]), evs[k]) {
      forall k | 0 <= k <= |evs| ensures AllDisplays(RunAll(p, evs[..k])) {
        DisplaysUpTo(p, evs, k);
      }
    }
    if forall k | 0 <= k <= |evs| :: AllDisplays(RunAll(p, evs[..k])) {
      forall k | 0 <= k < |evs| ensures DisplaysOnly(RunAll(p, evs[..k]), evs[k]) {
        RunNext(p, evs, k);
        RunWellFormed(p, evs[..k]);
        RunHeld(p, evs[..k]);
        assert AllDisplays(RunAll(p, evs[..k + 1]));
        StepHeld(RunAll(p, evs[..k]), evs[k]);
      }
    }
  }

  /** A display with an id whose content is an error. */
  function PosingDisplay(area: Area, o: NbOutput): seq<Event> {
    [Open(0, area, None, true), Routed(0, DisplayMsg(DisplayData, Override(o), Some("id")))]
  }

  /** From a fresh start, a registered target is then no display. */
  lemma PosingDisplayBreaks(p: Plane, area: Area, o: NbOutput)
    requires Initial(p) && CellOf(area) in p.doc && !o.Display?
    ensures !AllDisplays(RunAll(p, PosingDisplay(area, o)))
  {
    var evs := PosingDisplay(area, o);
    assert evs[..1] == [evs[0]] && [evs[0]][..0] == [] && RunAll(p, []) == p;
    Opened(p, area);
    hide OpenArea, Consume, WellFormed, AllDisplays;
    var a := RunAll(p, evs[..1]);
    assert a == OpenArea(p, 0, area, None, true);
    assert !DisplaysOnly(a, evs[1]);
    RunWellFormed(p, evs[..1]);
    RunHeld(p, evs[..1]);
    StepHeld(a, evs[1]);
    assert RunAll(p, evs) == Apply(a, evs[1]);
  }
}
