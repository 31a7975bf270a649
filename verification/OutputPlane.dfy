/**
 * The three copies of an execution's outputs - shared document, reducer, job record - and
 * the routing of commands to whichever output area is still current.
 */
module OutputPlane {
  import opened Options
  import opened Utf16
  import opened JsonText
  import opened Outputs
  import opened Displays
  import opened Reducer
  import opened ReducerRuns
  import opened ReducerBudget

  /** One sent cell: its sink, its job record and its reducer once the request went out. */
  type ExecId = nat

  datatype Exec = Exec(area: Area, reducer: Option<State>, record: seq<NbOutput>, version: nat, areaLost: bool)

  /** An entry of the area table: the key with the execution that owns sink, record and reducer. */
  datatype OwnedArea = OwnedArea(area: Area, exec: ExecId)

  /** A code cell of the shared document; `writer` is the sink whose generation is current. */
  datatype DocCell = DocCell(outputs: seq<NbOutput>, count: Option<int>, running: bool, writer: Option<ExecId>)

  type CellKey = (string, string)

  datatype Plane = Plane(
    displays: Table,
    execs: map<ExecId, Exec>,
    areas: seq<OwnedArea>,
    doc: map<CellKey, DocCell>)

  function CellOf(area: Area): CellKey { (area.notebook, area.cell) }

  /** `sink.isCurrent()`. */
  predicate Current(p: Plane, e: ExecId) {
    && e in p.execs && CellOf(p.execs[e].area) in p.doc
    && p.doc[CellOf(p.execs[e].area)].writer == Some(e)
  }

  function DocOutputs(p: Plane, e: ExecId): seq<NbOutput>
    requires Current(p, e)
  {
    p.doc[CellOf(p.execs[e].area)].outputs
  }

  // ---------------------------------------------------------------------------
  // the area table
  // ---------------------------------------------------------------------------

  const AREA_CACHE_LIMIT: nat := 1024

  function FindArea(es: seq<OwnedArea>, area: Area): (r: nat)
    ensures r <= |es| && (r < |es| ==> es[r].area == area) && forall i | 0 <= i < r :: es[i].area != area
  {
    if es == [] || es[0].area == area then 0 else 1 + FindArea(es[1..], area)
  }

  function RemoveAt<T>(s: seq<T>, i: nat): seq<T>
    requires i < |s|
  {
    s[..i] + s[i + 1..]
  }

  /** The entries whose sink is still current. */
  function Live(p: Plane, es: seq<OwnedArea>): seq<OwnedArea> {
    if es == [] then []
    else Live(p, es[..|es| - 1]) + (if Current(p, es[|es| - 1].exec) then [es[|es| - 1]] else [])
  }

  /** The oldest entries make room for one more. */
  function Trimmed(es: seq<OwnedArea>): seq<OwnedArea> {
    if |es| < AREA_CACHE_LIMIT then es else es[|es| - (AREA_CACHE_LIMIT - 1)..]
  }

  // ---------------------------------------------------------------------------
  // sinks and commands
  // ---------------------------------------------------------------------------

  /** What a sink operation makes of the outputs of its cell, and whether it applied. */
  function SinkWrite(os: seq<NbOutput>, effect: Effect): (seq<NbOutput>, bool) {
    match effect
    case Append(_, o) => (os + [o], true)
    case AppendStream(target, text) =>
      if target.index < |os| && os[target.index].Stream? then
        (os[target.index := os[target.index].(text := os[target.index].text + text)], true)
      else (os, false)
    case Update(target, o) => if target.index < |os| then (os[target.index := o], true) else (os, false)
    case Replace(_, outputs) => (outputs, true)
    case Clear(_) => ([], true)
    case _ => (os, true)
  }

  function AreaOf(effect: Effect): Area {
    match effect
    case AppendStream(target, _) => target.area
    case Update(target, _) => target.area
    case _ => effect.area
  }

  function WriteCell(c: DocCell, effect: Effect): DocCell {
    match effect
    case SetCount(_, count) => c.(count := count)
    case SetIdle(_) => c.(running := false)
    case _ => c.(outputs := SinkWrite(c.outputs, effect).0)
  }

  function Lose(p: Plane, e: ExecId): Plane
    requires e in p.execs
  {
    p.(execs := p.execs[e := p.execs[e].(areaLost := true)])
  }

  /** An area owner's record follows an update written by another execution. */
  function Refresh(x: Exec, effect: Effect): Exec {
    var reducer :=
      if effect.Update? && x.reducer.Some? then Some(ReplaceOutput(x.reducer.value, effect.target.index, effect.output))
      else x.reducer;
    x.(reducer := reducer, record := if reducer.Some? then reducer.value.out.outputs else x.record, version := x.version + 1)
  }

  /** One command of execution `e`, applied only while its target area is live. */
  function ApplyEffect(p: Plane, e: ExecId, effect: Effect): Plane
    requires e in p.execs
  {
    if effect.Complete? then p
    else
      var area := AreaOf(effect);
      var i := FindArea(p.areas, area);
      if i == |p.areas| then Lose(p, e)
      else if !Current(p, p.areas[i].exec) then Lose(p.(areas := RemoveAt(p.areas, i)), e)
      else
        var owner := p.areas[i].exec;
        var cell := CellOf(p.execs[owner].area);
        if !SinkWrite(p.doc[cell].outputs, effect).1 then Lose(p, e)
        else
          var written := p.(doc := p.doc[cell := WriteCell(p.doc[cell], effect)]);
          if area != p.execs[e].area && owner != e then
            written.(execs := p.execs[owner := Refresh(p.execs[owner], effect)])
          else written
  }

  function ApplyAll(p: Plane, e: ExecId, es: seq<Effect>): (r: Plane)
    requires e in p.execs
    ensures e in r.execs
  {
    if es == [] then p else ApplyEffect(ApplyAll(p, e, es[..|es| - 1]), e, es[|es| - 1])
  }

  // ---------------------------------------------------------------------------
  // events
  // ---------------------------------------------------------------------------

  datatype Event =
    // getSink opened a generation; the request was sent, or provably was not
    | Open(exec: ExecId, area: Area, budget: Option<nat>, sent: bool)
    // a message routed to the execution, before or after its completion
    | Routed(exec: ExecId, m: Msg)
    // anybody else wrote outputs, count or state of the cell, or deleted it
    | Foreign(cell: CellKey, content: Option<DocCell>)
    // restart, shutdown, death: routes and display targets are void
    | KernelChanged
    // the registry was disposed
    | Disposed

  /** The sink contract: a generation of a cell is handed out once. */
  predicate Enabled(p: Plane, ev: Event) {
    match ev
    case Open(e, area, _, _) =>
      e !in p.execs && CellOf(area) in p.doc && forall x | x in p.execs :: p.execs[x].area != area
    case Routed(e, _) => e in p.execs && p.execs[e].reducer.Some?
    case Foreign(_, content) => content.Some? ==> content.value.writer.None?
    case _ => true
  }

  function RememberArea(p: Plane, owned: OwnedArea): Plane {
    p.(areas := Trimmed(Live(p, p.areas)) + [owned])
  }

  function OpenArea(p: Plane, e: ExecId, area: Area, budget: Option<nat>, sent: bool): Plane {
    var x := Exec(area, if sent then Some(Fresh(area, budget)) else None, [], 0, false);
    RememberArea(p.(execs := p.execs[e := x], doc := p.doc[CellOf(area) := DocCell([], None, true, Some(e))]),
                 OwnedArea(area, e))
  }

  function Consume(p: Plane, e: ExecId, m: Msg): Plane
    requires e in p.execs && p.execs[e].reducer.Some?
  {
    var f := Feed(p.execs[e].reducer.value, p.displays, m);
    var fed := p.(displays := f.t, execs := p.execs[e := p.execs[e].(reducer := Some(f.r))]);
    var applied := ApplyAll(fed, e, f.effects);
    applied.(execs := applied.execs[e := applied.execs[e].(record := f.r.out.outputs)])
  }

  function Step(p: Plane, ev: Event): Plane
    requires Enabled(p, ev)
  {
    match ev
    case Open(e, area, budget, sent) => OpenArea(p, e, area, budget, sent)
    case Routed(e, m) => Consume(p, e, m)
    case Foreign(cell, content) => p.(doc := if content.Some? then p.doc[cell := content.value] else p.doc - {cell})
    case KernelChanged => p.(displays := Emptied(p.displays), areas := [])
    case Disposed => p.(areas := [])
  }

  // ---------------------------------------------------------------------------
  // agreement
  // ---------------------------------------------------------------------------

  predicate WellFormed(p: Plane) {
    && (forall i | 0 <= i < |p.areas| :: p.areas[i].exec in p.execs && p.execs[p.areas[i].exec].area == p.areas[i].area)
    && (forall i, j | 0 <= i < j < |p.areas| :: p.areas[i].area != p.areas[j].area)
    && (forall x, y | x in p.execs && y in p.execs && p.execs[x].area == p.execs[y].area :: x == y)
    && (forall x | x in p.execs && p.execs[x].reducer.Some? :: p.execs[x].reducer.value.area == p.execs[x].area)
    && (forall c | c in p.doc && p.doc[c].writer.Some? ::
          p.doc[c].writer.value in p.execs && CellOf(p.execs[p.doc[c].writer.value].area) == c)
  }

  predicate Plain(p: Plane) {
    forall x | x in p.execs && p.execs[x].reducer.Some? :: PlainStreams(p.execs[x].reducer.value.out.outputs)
  }

  predicate Listed(p: Plane, e: ExecId) {
    e in p.execs && OwnedArea(p.execs[e].area, e) in p.areas
  }

  /** Document, reducer and job record of `e` hold the same outputs, if its area is live. */
  predicate Agrees(p: Plane, e: ExecId) {
    Listed(p, e) && Current(p, e) && p.execs[e].reducer.Some? ==>
      DocOutputs(p, e) == p.execs[e].reducer.value.out.outputs == p.execs[e].record
  }

  /** The outputs of an area after the commands that address it. */
  function Replay(os: seq<NbOutput>, area: Area, es: seq<Effect>): seq<NbOutput> {
    if es == [] then os
    else
      var before := Replay(os, area, es[..|es| - 1]);
      var effect := es[|es| - 1];
      if effect.Complete? || AreaOf(effect) != area then before else SinkWrite(before, effect).0
  }

  lemma {:induction false} ReplayConcat(os: seq<NbOutput>, area: Area, a: seq<Effect>, b: seq<Effect>)
    ensures Replay(os, area, a + b) == Replay(Replay(os, area, a), area, b)
  {
    if b == [] {
      assert a + b == a;
    } else {
      assert (a + b)[..|a + b| - 1] == a + b[..|b| - 1];
      ReplayConcat(os, area, a, b[..|b| - 1]);
    }
  }

  lemma {:induction false} ReplayUpdates(r: State, targets: seq<Target>, o: NbOutput)
    ensures var (r1, es) := UpdateTargets(r, targets, o);
            Replay(r.out.outputs, r.area, es) == r1.out.outputs
  {
    if targets != [] {
      var init, target := targets[..|targets| - 1], targets[|targets| - 1];
      ReplayUpdates(r, init, o);
      UpdateTargetsFrame(r, init, o);
      var (r1, es) := UpdateTargets(r, init, o);
      var (r2, last) := UpdateTarget(r1, target, o);
      ReplayConcat(r.out.outputs, r.area, es, last);
      if last != [] {
        assert last[..0] == [];
      }
    }
  }

  lemma ReplayAdd(r: State, t: Table, o: NbOutput, id: Option<string>)
    ensures var f := AddOutput(r, t, o, id);
            Replay(r.out.outputs, r.area, f.effects) == f.r.out.outputs
  {
  }

  /** The stream a chunk is merged into, if it is, has no members beyond name and text. */
  predicate PlainMerge(r: State, m: Msg) {
    m.StreamMsg? && Merges(r.out, m.name) && !Exceeds(r.budget, r.out, |QuoteBody(m.text)|) ==>
      r.out.outputs[|r.out.outputs| - 1].extra == []
  }

  lemma ReplayStream(r: State, t: Table, name: StreamName, text: Str)
    requires PlainMerge(r, StreamMsg(name, text))
    ensures var f := HandleStream(r, t, name, text);
            Replay(r.out.outputs, r.area, f.effects) == f.r.out.outputs
  {
  }

  lemma {:induction false} ReplayIgnores(os: seq<NbOutput>, area: Area, es: seq<Effect>)
    requires forall i | 0 <= i < |es| :: IsLifecycle(es[i])
    ensures Replay(os, area, es) == os
  {
    if es != [] {
      ReplayIgnores(os, area, es[..|es| - 1]);
    }
  }

  lemma ReplayBatch(os: seq<NbOutput>, f: Fed)
    requires Replay(os, f.r.area, f.effects) == f.r.out.outputs
    ensures var g := MaybeComplete(f); Replay(os, g.r.area, g.effects) == g.r.out.outputs
  {
    var life := Completed(f.r.life);
    var tail := if life.completed && !f.r.life.completed then Batch(f.r.area, life) else [];
    ReplayConcat(os, f.r.area, f.effects, tail);
    ReplayIgnores(f.r.out.outputs, f.r.area, tail);
  }

  lemma ReplayReply(r: State, t: Table, status: ReplyStatus, count: Option<int>, failure: Failure)
    ensures var f := MaybeComplete(ReplyCore(r, t, status, count, failure));
            Replay(r.out.outputs, r.area, f.effects) == f.r.out.outputs
  {
    hide AddOutput;
    var r1 := r.(life := Replied(r.life, count));
    ReplayAdd(r1.(life := Blamed(r1.life, failure)), t, ErrorOf(failure), None);
    CoreArea(r, t, status, count, failure);
    assert (ReplyCore(r, t, status, count, failure)).effects == [] ==>
      Replay(r.out.outputs, r.area, ReplyCore(r, t, status, count, failure).effects) == r.out.outputs;
    ReplayBatch(r.out.outputs, ReplyCore(r, t, status, count, failure));
    assert MaybeComplete(ReplyCore(r, t, status, count, failure)).r.area == r.area;
  }

  /** Replaying a message's commands on the old outputs gives the reducer's new outputs. */
  lemma FeedReplay(r: State, t: Table, m: Msg)
    requires PlainMerge(r, m)
    ensures var f := Feed(r, t, m); Replay(r.out.outputs, r.area, f.effects) == f.r.out.outputs
  {
    hide AddOutput, HandleStream, UpdateTargets, ReplyCore, Batch, Without;
    match m
    case StreamMsg(name, text) => ReplayStream(r, t, name, text);
    case DisplayMsg(kind, content, id) => ReplayAdd(r, t, OutputOf(kind, content), id);
    case UpdateDisplay(content, id) =>
      if id.Some? { ReplayUpdates(r, TargetsOf(t, id.value), OutputOf(DisplayData, content)); }
    case ErrorMsg(failure) => ReplayAdd(r.(life := Blamed(r.life, failure)), t, ErrorOf(failure), None);
    case Reply(status, count, failure) => ReplayReply(r, t, status, count, failure);
    case Status(idle) =>
      if idle {
        ReplayBatch(r.out.outputs, Fed(r.(life := r.life.(idleSeen := true)), t, []));
        assert MaybeComplete(Fed(r.(life := r.life.(idleSeen := true)), t, [])).r.area == r.area;
      }
    case ClearOutput(wait) =>
    case _ =>
  }

  lemma CoreArea(r: State, t: Table, status: ReplyStatus, count: Option<int>, failure: Failure)
    ensures ReplyCore(r, t, status, count, failure).r.area == r.area
  {
  }

  /** Commands of a message address its own area, or are updates. */
  predicate OwnOrUpdate(es: seq<Effect>, area: Area) {
    forall e | e in es :: e.Update? || AreaOf(e) == area
  }

  lemma AddTargets(r: State, t: Table, o: NbOutput, id: Option<string>)
    ensures OwnOrUpdate(AddOutput(r, t, o, id).effects, r.area) && AddOutput(r, t, o, id).r.area == r.area
  {
    hide Size, WithTarget, Without;
  }

  lemma ReplyTargets(r: State, t: Table, status: ReplyStatus, count: Option<int>, failure: Failure)
    ensures OwnOrUpdate(HandleReply(r, t, status, count, failure).effects, r.area)
  {
    hide AddOutput;
    CoreArea(r, t, status, count, failure);
    var life := Blamed(Replied(r.life, count), failure);
    AddTargets(r.(life := life), t, ErrorOf(failure), None);
  }

  lemma FeedTargets(r: State, t: Table, m: Msg)
    ensures OwnOrUpdate(Feed(r, t, m).effects, r.area)
  {
    hide Size, WithTarget, Without, AddOutput, HandleReply, UpdateTargets;
    match m
    case StreamMsg(name, text) => AddTargets(r, t, Stream(name, text, []), None);
    case DisplayMsg(kind, content, id) => AddTargets(r, t, OutputOf(kind, content), id);
    case UpdateDisplay(content, id) =>
      if id.Some? { UpdateTargetsFrame(r, TargetsOf(t, id.value), OutputOf(DisplayData, content)); }
    case ErrorMsg(failure) => AddTargets(r.(life := Blamed(r.life, failure)), t, ErrorOf(failure), None);
    case Reply(status, count, failure) => ReplyTargets(r, t, status, count, failure);
    case _ =>
  }

  // ---------------------------------------------------------------------------
  // one command
  // ---------------------------------------------------------------------------

  /** What a command of `e` leaves alone, and that the other executions stay in agreement. */
  predicate Keeps(p: Plane, q: Plane, e: ExecId) {
    && e in p.execs && q.execs.Keys == p.execs.Keys && q.displays == p.displays
    && (forall x | x in p.execs :: q.execs[x].area == p.execs[x].area)
    && (forall x | x in p.execs :: Current(q, x) == Current(p, x))
    && (forall x | x in p.execs && Current(p, x) :: Listed(q, x) == Listed(p, x))
    && (forall x | x in p.execs && x != e && Agrees(p, x) :: Agrees(q, x))
    && q.execs[e].reducer == p.execs[e].reducer
  }

  /** The document outputs of `e` itself follow the command. */
  predicate Writes(p: Plane, q: Plane, e: ExecId, effect: Effect) {
    e in p.execs && e in q.execs &&
    (Listed(p, e) && Current(p, e) && Current(q, e) ==>
      DocOutputs(q, e) == Replay(DocOutputs(p, e), p.execs[e].area, [effect]))
  }

  lemma LoseKeeps(p: Plane, e: ExecId)
    requires WellFormed(p) && e in p.execs
    ensures WellFormed(Lose(p, e)) && Keeps(p, Lose(p, e), e)
  {
    LoseFrame(p, e);
    hide Current, Listed, Agrees, WellFormed;
  }

  lemma LoseFrame(p: Plane, e: ExecId)
    requires WellFormed(p) && e in p.execs
    ensures var q := Lose(p, e);
      && WellFormed(q)
      && (forall x | x in p.execs :: Current(q, x) == Current(p, x) && Listed(q, x) == Listed(p, x))
      && (forall x | x in p.execs && Agrees(p, x) :: Agrees(q, x))
  {
    var q := Lose(p, e);
    assert forall x | x in p.execs :: q.execs[x] == p.execs[x].(areaLost := q.execs[x].areaLost);
  }

  lemma FindListed(p: Plane, x: ExecId)
    requires WellFormed(p) && x in p.execs
    ensures var i := FindArea(p.areas, p.execs[x].area);
            Listed(p, x) <==> i < |p.areas| && p.areas[i].exec == x
  {
    var i := FindArea(p.areas, p.execs[x].area);
    if Listed(p, x) {
      var k :| 0 <= k < |p.areas| && p.areas[k] == OwnedArea(p.execs[x].area, x);
      assert i <= k;
    }
  }

  lemma RemoveAtElements<T>(s: seq<T>, i: nat)
    requires i < |s|
    ensures |RemoveAt(s, i)| == |s| - 1
    ensures forall k | 0 <= k < |s| - 1 :: RemoveAt(s, i)[k] == s[if k < i then k else k + 1]
    ensures forall x | x in s && x != s[i] :: x in RemoveAt(s, i)
    ensures forall x | x in RemoveAt(s, i) :: x in s
  {
  }

  /** A table without some entries of executions that are not current. */
  lemma FewerEntries(p: Plane, areas: seq<OwnedArea>, e: ExecId)
    requires WellFormed(p.(areas := areas)) && e in p.execs
    requires forall o | o in areas :: o in p.areas
    requires forall o | o in p.areas && Current(p, o.exec) :: o in areas
    ensures Keeps(p, p.(areas := areas), e)
  {
  }

  /** Dropping a stale entry: nothing current loses its place. */
  lemma DropStale(p: Plane, e: ExecId, i: nat)
    requires WellFormed(p) && e in p.execs && i < |p.areas| && !Current(p, p.areas[i].exec)
    ensures var q := p.(areas := RemoveAt(p.areas, i)); WellFormed(q) && Keeps(p, q, e)
  {
    hide Keeps, Current, RemoveAt;
    RemoveAtElements(p.areas, i);
    FewerEntries(p, RemoveAt(p.areas, i), e);
  }

  /** Writing the cell of one current execution touches no other current execution's outputs. */
  lemma WriteFrame(p: Plane, owner: ExecId, effect: Effect)
    requires WellFormed(p) && Current(p, owner)
    ensures var cell := CellOf(p.execs[owner].area);
            var q := p.(doc := p.doc[cell := WriteCell(p.doc[cell], effect)]);
            && WellFormed(q)
            && (forall x | x in p.execs :: Current(q, x) == Current(p, x) && Listed(q, x) == Listed(p, x))
            && (forall x | x in p.execs && Current(p, x) :: DocOutputs(q, x) ==
                  if x == owner then WriteCell(p.doc[cell], effect).outputs else DocOutputs(p, x))
  {
  }

  lemma RefreshKeeps(p: Plane, owner: ExecId, effect: Effect)
    requires WellFormed(p) && owner in p.execs
    ensures var q := p.(execs := p.execs[owner := Refresh(p.execs[owner], effect)]);
            && WellFormed(q)
            && (forall x | x in p.execs :: Current(q, x) == Current(p, x) && Listed(q, x) == Listed(p, x))
            && (forall x | x in p.execs && Current(p, x) :: DocOutputs(q, x) == DocOutputs(p, x))
  {
  }

  /** A command addressed to the area of another execution: always an update, and all three copies follow. */
  lemma CrossKeeps(p: Plane, e: ExecId, owner: ExecId, effect: Effect)
    requires WellFormed(p) && e in p.execs && owner != e && effect.Update? && Current(p, owner)
    requires SinkWrite(DocOutputs(p, owner), effect).1
    ensures var cell := CellOf(p.execs[owner].area);
            var q := p.(doc := p.doc[cell := WriteCell(p.doc[cell], effect)],
                        execs := p.execs[owner := Refresh(p.execs[owner], effect)]);
            WellFormed(q) && Keeps(p, q, e)
            && (Current(p, e) && Current(q, e) ==> DocOutputs(q, e) == DocOutputs(p, e))
  {
    var cell := CellOf(p.execs[owner].area);
    var w := p.(doc := p.doc[cell := WriteCell(p.doc[cell], effect)]);
    WriteFrame(p, owner, effect);
    RefreshKeeps(w, owner, effect);
    var q := w.(execs := w.execs[owner := Refresh(w.execs[owner], effect)]);
    assert q.execs.Keys == p.execs.Keys;
    forall x | x in p.execs && x != e && Agrees(p, x) ensures Agrees(q, x) {
      if Listed(q, x) && Current(q, x) && q.execs[x].reducer.Some? {
        if x == owner {
          assert p.execs[x].reducer.Some?;
        } else {
          assert q.execs[x] == p.execs[x];
        }
      }
    }
  }

  /** A command addressed to `e`'s own area. */
  lemma OwnKeeps(p: Plane, e: ExecId, effect: Effect)
    requires WellFormed(p) && Current(p, e) && !effect.Complete? && AreaOf(effect) == p.execs[e].area
    ensures var cell := CellOf(p.execs[e].area);
            var q := p.(doc := p.doc[cell := WriteCell(p.doc[cell], effect)]);
            WellFormed(q) && Keeps(p, q, e) && Writes(p, q, e, effect)
  {
    var cell := CellOf(p.execs[e].area);
    var q := p.(doc := p.doc[cell := WriteCell(p.doc[cell], effect)]);
    WriteFrame(p, e, effect);
    forall x | x in p.execs && x != e && Agrees(p, x) ensures Agrees(q, x) {
      assert q.execs[x] == p.execs[x];
    }
  }

  lemma ReplayElsewhere(os: seq<NbOutput>, area: Area, effect: Effect)
    requires effect.Complete? || AreaOf(effect) != area
    ensures Replay(os, area, [effect]) == os
  {
  }

  lemma KeepsTransitive(p: Plane, q: Plane, r: Plane, e: ExecId)
    requires Keeps(p, q, e) && Keeps(q, r, e)
    ensures Keeps(p, r, e)
  {
  }

  /** One command: agreement of everybody else, and the own document outputs as replayed. */
  lemma EffectKeeps(p: Plane, e: ExecId, effect: Effect)
    requires WellFormed(p) && e in p.execs && (effect.Update? || AreaOf(effect) == p.execs[e].area)
    ensures var q := ApplyEffect(p, e, effect); WellFormed(q) && Keeps(p, q, e) && Writes(p, q, e, effect)
  {
    hide WellFormed, Keeps, SinkWrite, WriteCell, Refresh, Agrees, Replay;
    KeepsSelf(p, e);
    if effect.Complete? {
      WritesElsewhere(p, p, e, effect);
    } else {
      var area := AreaOf(effect);
      var i := FindArea(p.areas, area);
      FindListed(p, e);
      LoseKeeps(p, e);
      if i == |p.areas| {
        WritesElsewhere(p, Lose(p, e), e, effect);
      } else if !Current(p, p.areas[i].exec) {
        var q := p.(areas := RemoveAt(p.areas, i));
        DropStale(p, e, i);
        LoseKeeps(q, e);
        KeepsTransitive(p, q, Lose(q, e), e);
        WritesElsewhere(p, Lose(q, e), e, effect);
      } else {
        ApplicableKeeps(p, e, effect, i);
      }
    }
  }

  lemma KeepsSelf(p: Plane, e: ExecId)
    requires e in p.execs
    ensures Keeps(p, p, e)
  {
  }

  /** The command does not address `e`'s listed, current area, and the document of `e` stays as it is. */
  lemma WritesElsewhere(p: Plane, q: Plane, e: ExecId, effect: Effect)
    requires e in p.execs && e in q.execs && q.execs[e].area == p.execs[e].area && q.doc == p.doc
    requires effect.Complete? || AreaOf(effect) != p.execs[e].area || !Listed(p, e) || !Current(p, e)
          || !SinkWrite(DocOutputs(p, e), effect).1
    ensures Writes(p, q, e, effect)
  {
  }

  lemma ApplicableKeeps(p: Plane, e: ExecId, effect: Effect, i: nat)
    requires WellFormed(p) && e in p.execs && (effect.Update? || AreaOf(effect) == p.execs[e].area)
    requires !effect.Complete? && i == FindArea(p.areas, AreaOf(effect)) && i < |p.areas|
    requires Current(p, p.areas[i].exec)
    ensures var q := ApplyEffect(p, e, effect); WellFormed(q) && Keeps(p, q, e) && Writes(p, q, e, effect)
  {
    hide Keeps, SinkWrite, WriteCell, Refresh, Agrees, Replay;
    var area := AreaOf(effect);
    var owner := p.areas[i].exec;
    var cell := CellOf(p.execs[owner].area);
    assert p.execs[owner].area == area;
    assert owner == e <==> area == p.execs[e].area;
    if !SinkWrite(p.doc[cell].outputs, effect).1 {
      LoseKeeps(p, e);
      WritesElsewhere(p, Lose(p, e), e, effect);
    } else if owner == e {
      OwnKeeps(p, e, effect);
    } else {
      CrossKeeps(p, e, owner, effect);
      if Current(p, e) {
        ReplayElsewhere(DocOutputs(p, e), p.execs[e].area, effect);
      }
    }
  }

  // ---------------------------------------------------------------------------
  // one event
  // ---------------------------------------------------------------------------

  lemma {:induction false} AllKeeps(p: Plane, e: ExecId, es: seq<Effect>)
    requires WellFormed(p) && e in p.execs && OwnOrUpdate(es, p.execs[e].area)
    ensures WellFormed(ApplyAll(p, e, es)) && Keeps(p, ApplyAll(p, e, es), e)
    ensures Listed(p, e) && Current(p, e) && Current(ApplyAll(p, e, es), e) ==>
              DocOutputs(ApplyAll(p, e, es), e) == Replay(DocOutputs(p, e), p.execs[e].area, es)
  {
    hide WellFormed, Agrees, ApplyEffect;
    if es == [] {
      KeepsSelf(p, e);
    } else {
      var init, last := es[..|es| - 1], es[|es| - 1];
      assert es == init + [last];
      AllKeeps(p, e, init);
      var mid := ApplyAll(p, e, init);
      EffectKeeps(mid, e, last);
      KeepsTransitive(p, mid, ApplyEffect(mid, e, last), e);
      if Listed(p, e) && Current(p, e) {
        ReplayConcat(DocOutputs(p, e), p.execs[e].area, init, [last]);
      }
    }
  }

  /** Every live area holds the same outputs in all three places. */
  ghost predicate Agreement(p: Plane) {
    forall e | e in p.execs :: Agrees(p, e)
  }

  /** The reducer has taken the message, the sinks have not. */
  lemma FedWellFormed(p: Plane, e: ExecId, r: State, t: Table)
    requires WellFormed(p) && e in p.execs && p.execs[e].reducer.Some? && r.area == p.execs[e].area
    ensures WellFormed(p.(displays := t, execs := p.execs[e := p.execs[e].(reducer := Some(r))]))
  {
  }

  lemma FedFrame(p: Plane, e: ExecId, r: State, t: Table)
    requires Agreement(p) && e in p.execs && p.execs[e].reducer.Some? && r.area == p.execs[e].area
    ensures var q := p.(displays := t, execs := p.execs[e := p.execs[e].(reducer := Some(r))]);
            && (forall x | x in p.execs && x != e :: Agrees(q, x))
            && Listed(q, e) == Listed(p, e) && Current(q, e) == Current(p, e)
            && (Current(p, e) ==> DocOutputs(q, e) == DocOutputs(p, e))
  {
  }

  lemma RecordKeeps(p: Plane, e: ExecId, os: seq<NbOutput>)
    requires WellFormed(p) && e in p.execs && p.execs[e].reducer.Some? && p.execs[e].reducer.value.out.outputs == os
    requires forall x | x in p.execs && x != e :: Agrees(p, x)
    requires Listed(p, e) && Current(p, e) ==> DocOutputs(p, e) == os
    ensures Agreement(p.(execs := p.execs[e := p.execs[e].(record := os)]))
  {
  }

  lemma RecordWellFormed(p: Plane, e: ExecId, os: seq<NbOutput>)
    requires WellFormed(p) && e in p.execs
    ensures WellFormed(p.(execs := p.execs[e := p.execs[e].(record := os)]))
  {
  }

  lemma ConsumeWellFormed(p: Plane, e: ExecId, m: Msg)
    requires WellFormed(p) && e in p.execs && p.execs[e].reducer.Some?
    ensures WellFormed(Consume(p, e, m))
  {
    hide Feed, WellFormed;
    var r := p.execs[e].reducer.value;
    ReducerArea(p, e);
    var f := Feed(r, p.displays, m);
    FeedLifecycle(r, p.displays, m);
    FeedTargets(r, p.displays, m);
    FedWellFormed(p, e, f.r, f.t);
    var fed := p.(displays := f.t, execs := p.execs[e := p.execs[e].(reducer := Some(f.r))]);
    AllKeeps(fed, e, f.effects);
    RecordWellFormed(ApplyAll(fed, e, f.effects), e, f.r.out.outputs);
  }

  predicate Showing(p: Plane, e: ExecId) { Listed(p, e) && Current(p, e) && p.execs[e].reducer.Some? }

  lemma ConsumeAgrees(p: Plane, e: ExecId, m: Msg)
    requires WellFormed(p) && Agreement(p) && e in p.execs && p.execs[e].reducer.Some?
    requires Showing(p, e) ==> PlainMerge(p.execs[e].reducer.value, m)
    ensures WellFormed(Consume(p, e, m)) && Agreement(Consume(p, e, m))
  {
    ConsumeWellFormed(p, e, m);
    hide Feed, Agrees, WellFormed, Replay;
    var r := p.execs[e].reducer.value;
    ReducerArea(p, e);
    var f := Feed(r, p.displays, m);
    FeedLifecycle(r, p.displays, m);
    if Showing(p, e) {
      FeedReplay(r, p.displays, m);
      OwnAgreement(p, e);
    }
    FeedTargets(r, p.displays, m);
    FedWellFormed(p, e, f.r, f.t);
    FedFrame(p, e, f.r, f.t);
    var fed := p.(displays := f.t, execs := p.execs[e := p.execs[e].(reducer := Some(f.r))]);
    AllKeeps(fed, e, f.effects);
    RecordKeeps(ApplyAll(fed, e, f.effects), e, f.r.out.outputs);
  }

  lemma ReducerArea(p: Plane, e: ExecId)
    requires WellFormed(p) && e in p.execs && p.execs[e].reducer.Some?
    ensures p.execs[e].reducer.value.area == p.execs[e].area
  {
  }

  lemma OwnAgreement(p: Plane, e: ExecId)
    requires Agreement(p) && Showing(p, e)
    ensures DocOutputs(p, e) == p.execs[e].reducer.value.out.outputs
  {
  }

  // -- collected streams stay plain ------------------------------------------------

  predicate PlainOutput(o: NbOutput) { o.Stream? ==> o.extra == [] }

  /** Streams collected here have no members beyond name and text. */
  predicate PlainStreams(os: seq<NbOutput>) {
    forall i | 0 <= i < |os| :: PlainOutput(os[i])
  }

  /** The message brings no stream with members beyond name and text. */
  predicate PlainContent(m: Msg) {
    m.DisplayMsg? || m.UpdateDisplay? ==> PlainOutput(OutputOf(DisplayData, m.content))
  }

  lemma AddPlain(r: State, t: Table, o: NbOutput, id: Option<string>)
    requires PlainStreams(r.out.outputs) && PlainOutput(o)
    ensures PlainStreams(AddOutput(r, t, o, id).r.out.outputs)
  {
  }

  lemma {:induction false} UpdatePlain(r: State, targets: seq<Target>, o: NbOutput)
    requires PlainStreams(r.out.outputs) && PlainOutput(o)
    ensures PlainStreams(UpdateTargets(r, targets, o).0.out.outputs)
  {
    if targets != [] {
      UpdatePlain(r, targets[..|targets| - 1], o);
    }
  }

  lemma FeedPlain(r: State, t: Table, m: Msg)
    requires PlainStreams(r.out.outputs) && PlainContent(m)
    ensures PlainStreams(Feed(r, t, m).r.out.outputs)
  {
    hide AddOutput, UpdateTargets;
    match m
    case StreamMsg(name, text) => AddPlain(r, t, Stream(name, text, []), None);
    case DisplayMsg(kind, content, id) => AddPlain(r, t, OutputOf(kind, content), id);
    case UpdateDisplay(content, id) =>
      if id.Some? { UpdatePlain(r, TargetsOf(t, id.value), OutputOf(DisplayData, content)); }
    case ErrorMsg(failure) => AddPlain(r.(life := Blamed(r.life, failure)), t, ErrorOf(failure), None);
    case Reply(status, count, failure) =>
      AddPlain(r.(life := Blamed(Replied(r.life, count), failure)), t, ErrorOf(failure), None);
    case _ =>
  }

  // -- what a message does to the reducers of other executions ------------------------

  /** A command can reach output `i` of the area of `x`: listed, current, and in range in the document. */
  predicate Landing(p: Plane, x: ExecId, i: nat) {
    Listed(p, x) && Current(p, x) && i < |DocOutputs(p, x)|
  }

  /** After updates to `o`, the reducer of `x` has changed exactly where one of them could land. */
  predicate Followed(p: Plane, q: Plane, x: ExecId, es: seq<Effect>, o: NbOutput) {
    && x in p.execs && x in q.execs && q.execs[x].area == p.execs[x].area
    && q.execs[x].reducer.Some? == p.execs[x].reducer.Some?
    && (p.execs[x].reducer.Some? ==>
          var a, b := p.execs[x].reducer.value, q.execs[x].reducer.value;
          && b.area == a.area && |b.out.outputs| == |a.out.outputs|
          && forall i | 0 <= i < |a.out.outputs| ::
               b.out.outputs[i]
               == if Update(Target(p.execs[x].area, i), o) in es && Landing(p, x, i) then o else a.out.outputs[i])
  }

  lemma FollowedConcat(p: Plane, mid: Plane, q: Plane, x: ExecId, a: seq<Effect>, b: seq<Effect>, o: NbOutput)
    requires Followed(p, mid, x, a, o) && Followed(mid, q, x, b, o)
    requires forall i: nat :: Landing(mid, x, i) == Landing(p, x, i)
    ensures Followed(p, q, x, a + b, o)
  {
    hide Landing;
  }

  /** The command belongs to `e`, or it is an update to `o`. */
  predicate OwnOrTo(effect: Effect, area: Area, o: NbOutput) {
    if effect.Update? then effect.output == o else AreaOf(effect) == area
  }

  lemma EffectReducer(p: Plane, e: ExecId, effect: Effect, x: ExecId, o: NbOutput)
    requires WellFormed(p) && e in p.execs && x in p.execs && x != e && OwnOrTo(effect, p.execs[e].area, o)
    ensures var q := ApplyEffect(p, e, effect);
      && x in q.execs && q.execs[x].area == p.execs[x].area
      && q.execs[x].reducer ==
           if effect.Update? && effect.target.area == p.execs[x].area && Landing(p, x, effect.target.index) && p.execs[x].reducer.Some?
           then Some(ReplaceOutput(p.execs[x].reducer.value, effect.target.index, o))
           else p.execs[x].reducer
  {
    hide Overwrite, WriteCell, ReplaceOutput;
    FindListed(p, x);
    assert p.execs[x].area != p.execs[e].area;
  }

  lemma EffectFollowed(p: Plane, e: ExecId, effect: Effect, x: ExecId, o: NbOutput)
    requires WellFormed(p) && e in p.execs && x in p.execs && x != e && OwnOrTo(effect, p.execs[e].area, o)
    ensures Followed(p, ApplyEffect(p, e, effect), x, [effect], o)
  {
    EffectReducer(p, e, effect, x, o);
    hide ApplyEffect, WellFormed, Landing, Size;
  }

  lemma EffectLanding(p: Plane, e: ExecId, effect: Effect, x: ExecId, o: NbOutput)
    requires WellFormed(p) && e in p.execs && x in p.execs && x != e && OwnOrTo(effect, p.execs[e].area, o)
    ensures forall i: nat :: Landing(ApplyEffect(p, e, effect), x, i) == Landing(p, x, i)
  {
    EffectKeeps(p, e, effect);
    hide WellFormed, Agrees, Replay, Listed;
    assert Current(p, x) ==> |DocOutputs(ApplyEffect(p, e, effect), x)| == |DocOutputs(p, x)| by { EffectLength(p, e, effect, x, o); }
    assert Current(p, x) ==> Listed(ApplyEffect(p, e, effect), x) == Listed(p, x);
  }

  lemma EffectLength(p: Plane, e: ExecId, effect: Effect, x: ExecId, o: NbOutput)
    requires WellFormed(p) && e in p.execs && x in p.execs && x != e && OwnOrTo(effect, p.execs[e].area, o)
    ensures var q := ApplyEffect(p, e, effect);
      Current(p, x) && Current(q, x) ==> |DocOutputs(q, x)| == |DocOutputs(p, x)|
  {
  }

  lemma {:induction false} AllFollowed(p: Plane, e: ExecId, es: seq<Effect>, x: ExecId, o: NbOutput)
    requires WellFormed(p) && e in p.execs && x in p.execs && x != e
    requires forall f | f in es :: OwnOrTo(f, p.execs[e].area, o)
    ensures Followed(p, ApplyAll(p, e, es), x, es, o)
    ensures forall i: nat :: Landing(ApplyAll(p, e, es), x, i) == Landing(p, x, i)
  {
    if es != [] {
      hide WellFormed, Landing, ApplyEffect, Agrees, Followed;
      var init, last := es[..|es| - 1], es[|es| - 1];
      assert es == init + [last] && last in es;
      AllFollowed(p, e, init, x, o);
      AllKeeps(p, e, init);
      var mid := ApplyAll(p, e, init);
      EffectFollowed(mid, e, last, x, o);
      EffectLanding(mid, e, last, x, o);
      FollowedConcat(p, mid, ApplyEffect(mid, e, last), x, init, [last], o);
    }
  }

  predicate NoUpdate(es: seq<Effect>) { forall f | f in es :: !f.Update? }

  lemma AddNoUpdate(r: State, t: Table, o: NbOutput, id: Option<string>)
    ensures NoUpdate(AddOutput(r, t, o, id).effects)
  {
    hide Size, WithTarget, Without;
  }

  lemma ReplyNoUpdate(r: State, t: Table, status: ReplyStatus, count: Option<int>, failure: Failure)
    ensures NoUpdate(HandleReply(r, t, status, count, failure).effects)
  {
    hide AddOutput;
    AddNoUpdate(r.(life := Blamed(Replied(r.life, count), failure)), t, ErrorOf(failure), None);
  }

  /** What a message writes into outputs of other areas. */
  function Wrote(m: Msg): NbOutput {
    if m.UpdateDisplay? then OutputOf(DisplayData, m.content) else ErrorOf(Failure(None, None, []))
  }

  /** All updates of one message write the same output. */
  lemma FeedUpdates(r: State, t: Table, m: Msg)
    ensures forall f | f in Feed(r, t, m).effects :: OwnOrTo(f, r.area, Wrote(m))
    ensures !m.UpdateDisplay? ==> NoUpdate(Feed(r, t, m).effects)
  {
    FeedTargets(r, t, m);
    hide AddOutput, HandleReply, UpdateTargets, Without, Extend;
    match m
    case StreamMsg(name, text) => AddNoUpdate(r, t, Stream(name, text, []), None);
    case DisplayMsg(kind, content, id) => AddNoUpdate(r, t, OutputOf(kind, content), id);
    case UpdateDisplay(content, id) =>
      if id.Some? { UpdateTargetsFrame(r, TargetsOf(t, id.value), OutputOf(DisplayData, content)); }
    case ErrorMsg(failure) => AddNoUpdate(r.(life := Blamed(r.life, failure)), t, ErrorOf(failure), None);
    case Reply(status, count, failure) => ReplyNoUpdate(r, t, status, count, failure);
    case _ =>
  }

  // ---------------------------------------------------------------------------
  // whole runs
  // ---------------------------------------------------------------------------

  function Apply(p: Plane, ev: Event): Plane {
    if Enabled(p, ev) then Step(p, ev) else p
  }

  function RunAll(p: Plane, evs: seq<Event>): Plane {
    if evs == [] then p else Apply(RunAll(p, evs[..|evs| - 1]), evs[|evs| - 1])
  }

  /** Nothing executed yet: any document, no writer. */
  predicate Initial(p: Plane) {
    p.displays.entries == [] && p.execs == map[] && p.areas == [] && forall c | c in p.doc :: p.doc[c].writer.None?
  }

  /** The reducers of the other executions after a message: changed where its updates land. */
  lemma ConsumeFollowed(p: Plane, e: ExecId, m: Msg, x: ExecId)
    requires WellFormed(p) && e in p.execs && p.execs[e].reducer.Some? && x in p.execs && x != e
    ensures Followed(p, Consume(p, e, m), x, Feed(p.execs[e].reducer.value, p.displays, m).effects, Wrote(m))
  {
    hide Feed, WellFormed, Agrees, ApplyAll;
    var r := p.execs[e].reducer.value;
    ReducerArea(p, e);
    var f := Feed(r, p.displays, m);
    FeedLifecycle(r, p.displays, m);
    FeedTargets(r, p.displays, m);
    FeedUpdates(r, p.displays, m);
    FedWellFormed(p, e, f.r, f.t);
    var fed := p.(displays := f.t, execs := p.execs[e := p.execs[e].(reducer := Some(f.r))]);
    AllFollowed(fed, e, f.effects, x, Wrote(m));
    assert forall i: nat :: Landing(fed, x, i) == Landing(p, x, i);
  }

  lemma ConsumeOwn(p: Plane, e: ExecId, m: Msg)
    requires WellFormed(p) && e in p.execs && p.execs[e].reducer.Some?
    ensures var q := Consume(p, e, m); var f := Feed(p.execs[e].reducer.value, p.displays, m);
      && q.execs.Keys == p.execs.Keys && q.execs[e].reducer == Some(f.r) && q.execs[e].area == p.execs[e].area
      && q.displays == f.t && f.r.area == p.execs[e].area
  {
    hide Feed, WellFormed, Agrees, ApplyAll;
    var r := p.execs[e].reducer.value;
    ReducerArea(p, e);
    var f := Feed(r, p.displays, m);
    FeedLifecycle(r, p.displays, m);
    FeedTargets(r, p.displays, m);
    FedWellFormed(p, e, f.r, f.t);
    AllKeeps(p.(displays := f.t, execs := p.execs[e := p.execs[e].(reducer := Some(f.r))]), e, f.effects);
  }

  lemma ConsumePlain(p: Plane, e: ExecId, m: Msg)
    requires WellFormed(p) && Plain(p) && e in p.execs && p.execs[e].reducer.Some? && PlainContent(m)
    ensures Plain(Consume(p, e, m))
  {
    hide WellFormed, Consume, Feed, Landing;
    ConsumeOwn(p, e, m);
    FeedPlain(p.execs[e].reducer.value, p.displays, m);
    var q := Consume(p, e, m);
    forall x | x in q.execs && q.execs[x].reducer.Some? ensures PlainStreams(q.execs[x].reducer.value.out.outputs) {
      if x != e { ConsumeFollowed(p, e, m, x); }
    }
  }

  lemma PlainlyMerged(p: Plane, e: ExecId, m: Msg)
    requires Plain(p) && e in p.execs && p.execs[e].reducer.Some?
    ensures PlainMerge(p.execs[e].reducer.value, m)
  {
  }

  lemma {:induction false} LiveElements(p: Plane, es: seq<OwnedArea>)
    ensures forall o :: o in Live(p, es) <==> o in es && Current(p, o.exec)
    ensures NoDuplicateAreas(es) ==> NoDuplicateAreas(Live(p, es))
  {
    if es != [] {
      var init, last := es[..|es| - 1], es[|es| - 1];
      LiveElements(p, init);
      assert es == init + [last];
    }
  }

  predicate NoDuplicateAreas(es: seq<OwnedArea>) {
    forall i, j | 0 <= i < j < |es| :: es[i].area != es[j].area
  }

  /** Entries that survive keep their order. */
  lemma {:induction false} LiveAt(p: Plane, es: seq<OwnedArea>, i: nat)
    requires i < |es| && Current(p, es[i].exec)
    ensures |Live(p, es[..i])| < |Live(p, es)| && Live(p, es)[|Live(p, es[..i])|] == es[i]
    ensures forall j | 0 <= j < i && Current(p, es[j].exec) :: |Live(p, es[..j])| < |Live(p, es[..i])|
  {
    hide Current;
    var last := |es| - 1;
    assert es[..i + 1][..i] == es[..i];
    LiveGrows(p, es, i + 1);
    assert Live(p, es[..i + 1]) == Live(p, es[..i]) + [es[i]];
    forall j | 0 <= j < i && Current(p, es[j].exec) ensures |Live(p, es[..j])| < |Live(p, es[..i])| {
      assert es[..i][..j + 1] == es[..j + 1] && es[..j + 1][..j] == es[..j];
      LiveGrows(p, es[..i], j + 1);
    }
  }

  lemma {:induction false} LiveGrows(p: Plane, es: seq<OwnedArea>, n: nat)
    requires n <= |es|
    ensures Live(p, es[..n]) <= Live(p, es)
  {
    hide Current;
    if n == |es| {
      assert es[..n] == es;
    } else {
      assert es[..|es| - 1][..n] == es[..n];
      LiveGrows(p, es[..|es| - 1], n);
    }
  }

  /**
   * Opening an area keeps every current area while there is room, makes room by dropping the oldest
   * current ones and no more than needed, and adds the new one.
   */
  lemma RememberElements(p: Plane, owned: OwnedArea)
    requires NoDuplicateAreas(p.areas) && forall o | o in p.areas :: o.area != owned.area
    ensures var q := RememberArea(p, owned); var n := |Live(p, p.areas)|;
            && NoDuplicateAreas(q.areas) && owned in q.areas
            && |q.areas| == (if n < AREA_CACHE_LIMIT then n + 1 else AREA_CACHE_LIMIT)
            && (forall o | o in q.areas :: o == owned || (o in p.areas && Current(p, o.exec)))
            && (n < AREA_CACHE_LIMIT ==> forall o | o in p.areas && Current(p, o.exec) :: o in q.areas)
            && (forall i, j | 0 <= i < j < |p.areas| && Current(p, p.areas[i].exec) && Current(p, p.areas[j].exec)
                  && p.areas[i] in q.areas :: p.areas[j] in q.areas)
  {
    hide Current;
    LiveElements(p, p.areas);
    var live := Live(p, p.areas);
    var kept := Trimmed(live);
    assert forall o | o in kept :: o in live;
    assert NoDuplicateAreas(kept);
    var q := RememberArea(p, owned);
    forall i, j | 0 <= i < j < |p.areas| && Current(p, p.areas[i].exec) && Current(p, p.areas[j].exec) && p.areas[i] in q.areas
      ensures p.areas[j] in q.areas
    {
      LiveAt(p, p.areas, i);
      LiveAt(p, p.areas, j);
      StillKept(live, |Live(p, p.areas[..i])|, |Live(p, p.areas[..j])|);
    }
  }

  lemma StillKept(live: seq<OwnedArea>, i: nat, j: nat)
    requires NoDuplicateAreas(live) && i < j < |live| && live[i] in Trimmed(live)
    ensures live[j] in Trimmed(live)
  {
    if |live| >= AREA_CACHE_LIMIT {
      var cut := |live| - (AREA_CACHE_LIMIT - 1);
      var k :| 0 <= k < |Trimmed(live)| && Trimmed(live)[k] == live[i];
      assert live[cut + k] == live[i] && cut + k == i;
      assert Trimmed(live)[j - cut] == live[j];
    }
  }

  lemma OpenAgrees(p: Plane, e: ExecId, area: Area, budget: Option<nat>, sent: bool)
    requires WellFormed(p) && Agreement(p) && Enabled(p, Open(e, area, budget, sent))
    ensures Agreement(OpenArea(p, e, area, budget, sent))
  {
    var x := Exec(area, if sent then Some(Fresh(area, budget)) else None, [], 0, false);
    var mid := p.(execs := p.execs[e := x], doc := p.doc[CellOf(area) := DocCell([], None, true, Some(e))]);
    var q := OpenArea(p, e, area, budget, sent);
    RememberElements(mid, OwnedArea(area, e));
    assert forall y | y in p.execs :: q.execs[y] == p.execs[y];
    forall y | y in q.execs ensures Agrees(q, y) {
      if y != e && Listed(q, y) && Current(q, y) {
        assert Agrees(p, y) && OwnedArea(p.execs[y].area, y) in p.areas;
        assert CellOf(p.execs[y].area) != CellOf(area);
      }
    }
  }

  lemma OpenWellFormed(p: Plane, e: ExecId, area: Area, budget: Option<nat>, sent: bool)
    requires WellFormed(p) && Enabled(p, Open(e, area, budget, sent))
    ensures WellFormed(OpenArea(p, e, area, budget, sent))
  {
    var x := Exec(area, if sent then Some(Fresh(area, budget)) else None, [], 0, false);
    var mid := p.(execs := p.execs[e := x], doc := p.doc[CellOf(area) := DocCell([], None, true, Some(e))]);
    var q := OpenArea(p, e, area, budget, sent);
    RememberElements(mid, OwnedArea(area, e));
    forall i | 0 <= i < |q.areas| ensures q.areas[i].exec in q.execs && q.execs[q.areas[i].exec].area == q.areas[i].area {
      assert q.areas[i] in q.areas;
      if q.areas[i] != OwnedArea(area, e) {
        var k :| 0 <= k < |p.areas| && p.areas[k] == q.areas[i];
      }
    }
  }

  // ---------------------------------------------------------------------------
  // exactly when the three copies agree
  // ---------------------------------------------------------------------------

  /** A chunk that is about to be merged into the stream of a live area finds it plain. */
  predicate PlainEvent(p: Plane, ev: Event) {
    ev.Routed? && Showing(p, ev.exec) ==> PlainMerge(p.execs[ev.exec].reducer.value, ev.m)
  }

  lemma RestAgrees(p: Plane, ev: Event)
    requires WellFormed(p) && Enabled(p, ev) && !ev.Open? && !ev.Routed?
    ensures WellFormed(Step(p, ev)) && (Agreement(p) ==> Agreement(Step(p, ev)))
  {
  }

  lemma StepWellFormed(p: Plane, ev: Event)
    requires WellFormed(p) && Enabled(p, ev)
    ensures WellFormed(Step(p, ev))
  {
    hide WellFormed, Agreement;
    match ev
    case Open(e, area, budget, sent) => OpenWellFormed(p, e, area, budget, sent);
    case Routed(e, m) => ConsumeWellFormed(p, e, m);
    case _ => RestAgrees(p, ev);
  }

  lemma StepAgrees(p: Plane, ev: Event)
    requires WellFormed(p) && Agreement(p) && Enabled(p, ev) && PlainEvent(p, ev)
    ensures Agreement(Step(p, ev))
  {
    hide WellFormed, Agreement, Consume, OpenArea, PlainMerge;
    match ev
    case Open(e, area, budget, sent) => OpenAgrees(p, e, area, budget, sent);
    case Routed(e, m) => ConsumeAgrees(p, e, m);
    case _ => RestAgrees(p, ev);
  }

  lemma {:induction false} RunWellFormed(p: Plane, evs: seq<Event>)
    requires Initial(p)
    ensures WellFormed(RunAll(p, evs))
  {
    if evs != [] {
      RunWellFormed(p, evs[..|evs| - 1]);
      hide WellFormed, Step, Enabled;
      var q := RunAll(p, evs[..|evs| - 1]);
      if Enabled(q, evs[|evs| - 1]) {
        StepWellFormed(q, evs[|evs| - 1]);
      }
    }
  }

  lemma RunNext(p: Plane, evs: seq<Event>, k: nat)
    requires k < |evs|
    ensures RunAll(p, evs[..k + 1]) == Apply(RunAll(p, evs[..k]), evs[k])
  {
    assert evs[..k + 1][..k] == evs[..k] && evs[..k + 1][k] == evs[k];
  }

  lemma {:induction false} AgreesUpTo(p: Plane, evs: seq<Event>, k: nat)
    requires Initial(p) && k <= |evs| && forall j | 0 <= j < k :: PlainEvent(RunAll(p, evs[..j]), evs[j])
    ensures Agreement(RunAll(p, evs[..k]))
  {
    if k > 0 {
      AgreesUpTo(p, evs, k - 1);
      RunNext(p, evs, k - 1);
      RunWellFormed(p, evs[..k - 1]);
      hide WellFormed, Agreement, Step, Enabled, PlainEvent;
      var q := RunAll(p, evs[..k - 1]);
      if Enabled(q, evs[k - 1]) {
        StepAgrees(q, evs[k - 1]);
      }
    } else {
      assert evs[..0] == [];
    }
  }

  /** Agreement before and after a step means that it was plain. */
  lemma AgreedStepIsPlain(p: Plane, ev: Event)
    requires WellFormed(p) && Agreement(p) && Agreement(Apply(p, ev))
    ensures PlainEvent(p, ev)
  {
    if ev.Routed? && Showing(p, ev.exec) && ev.m.StreamMsg? && ChunkReady(p, ev.exec, ev.m.name, ev.m.text) {
      assert Agrees(p, ev.exec);
      MergeAgreesIff(p, ev.exec, ev.m.name, ev.m.text);
      assert ev.exec in Apply(p, ev).execs by { ConsumeWellFormed(p, ev.exec, ev.m); }
      hide WellFormed, Consume;
      assert Agrees(Apply(p, ev), ev.exec);
    }
  }

  /**
   * Whatever the messages bring, the copies of every live area agree throughout a run exactly when no
   * chunk is merged, in a live area, into a stream with members of its own.
   */
  lemma AgreementIff(p: Plane, evs: seq<Event>)
    requires Initial(p)
    ensures (forall k | 0 <= k <= |evs| :: Agreement(RunAll(p, evs[..k])))
       <==> (forall k | 0 <= k < |evs| :: PlainEvent(RunAll(p, evs[..k]), evs[k]))
  {
    hide WellFormed, Agreement, Step, Enabled, PlainEvent, RunAll, Initial, Apply;
    if forall k | 0 <= k < |evs| :: PlainEvent(RunAll(p, evs[..k]), evs[k]) {
      forall k | 0 <= k <= |evs| ensures Agreement(RunAll(p, evs[..k])) {
        AgreesUpTo(p, evs, k);
      }
    }
    if forall k | 0 <= k <= |evs| :: Agreement(RunAll(p, evs[..k])) {
      forall k | 0 <= k < |evs| ensures PlainEvent(RunAll(p, evs[..k]), evs[k]) {
        RunNext(p, evs, k);
        RunWellFormed(p, evs[..k]);
        assert Agreement(RunAll(p, evs[..k + 1]));
        AgreedStepIsPlain(RunAll(p, evs[..k]), evs[k]);
      }
    }
  }

  /**
   * Three-way agreement: after any interleaving of executions, late messages, updates across
   * cells, foreign writes, kernel changes and disposal, every area still in the table whose
   * sink is current shows in the document what its reducer and its job record hold, as long as
   * no display message brings a stream with members of its own.
   */
  lemma {:induction false} AgreementAlways(p: Plane, evs: seq<Event>, e: ExecId)
    requires Initial(p) && forall i | 0 <= i < |evs| :: evs[i].Routed? ==> PlainContent(evs[i].m)
    requires Listed(RunAll(p, evs), e) && Current(RunAll(p, evs), e)
    requires RunAll(p, evs).execs[e].reducer.Some?
    ensures var q := RunAll(p, evs);
            DocOutputs(q, e) == q.execs[e].reducer.value.out.outputs == q.execs[e].record
  {
    RunPlain(p, evs);
    assert Agrees(RunAll(p, evs), e);
  }

  lemma {:induction false} RunPlain(p: Plane, evs: seq<Event>)
    requires Initial(p) && forall i | 0 <= i < |evs| :: evs[i].Routed? ==> PlainContent(evs[i].m)
    ensures Agreement(RunAll(p, evs)) && Plain(RunAll(p, evs))
  {
    if evs != [] {
      var init, ev := evs[..|evs| - 1], evs[|evs| - 1];
      RunPlain(p, init);
      RunWellFormed(p, init);
      hide WellFormed, Agreement, Step, Plain;
      var q := RunAll(p, init);
      if Enabled(q, ev) {
        if ev.Routed? { PlainlyMerged(q, ev.exec, ev.m); }
        StepAgrees(q, ev);
        StepPlain(q, ev);
      }
    }
  }

  lemma StepPlain(p: Plane, ev: Event)
    requires WellFormed(p) && Plain(p) && Enabled(p, ev) && (ev.Routed? ==> PlainContent(ev.m))
    ensures Plain(Step(p, ev))
  {
    hide Consume;
    if ev.Routed? { ConsumePlain(p, ev.exec, ev.m); }
  }

  // ---------------------------------------------------------------------------
  // what a display content with its own output_type breaks
  // ---------------------------------------------------------------------------

  /** A chunk arrives for a live, agreeing area whose last output is the stream it continues. */
  predicate ChunkReady(p: Plane, e: ExecId, name: StreamName, text: Str) {
    && Listed(p, e) && Current(p, e) && p.execs[e].reducer.Some? && Merges(p.execs[e].reducer.value.out, name)
    && !Exceeds(p.execs[e].reducer.value.budget, p.execs[e].reducer.value.out, |QuoteBody(text)|)
  }

  /**
   * Exactly when a merged chunk keeps document and reducer equal: the stream must have no
   * members beyond name and text, which only a display content posing as a stream can bring.
   */
  lemma MergeAgreesIff(p: Plane, e: ExecId, name: StreamName, text: Str)
    requires WellFormed(p) && ChunkReady(p, e, name, text)
    requires DocOutputs(p, e) == p.execs[e].reducer.value.out.outputs == p.execs[e].record
    ensures var os := p.execs[e].reducer.value.out.outputs;
            Agrees(Consume(p, e, StreamMsg(name, text)), e) <==> os[|os| - 1].extra == []
  {
    var r := p.execs[e].reducer.value;
    var os := r.out.outputs;
    var at := |os| - 1;
    var f := Feed(r, p.displays, StreamMsg(name, text));
    var effect := AppendStream(Target(r.area, at), text);
    assert f.effects == [effect];
    var fed := p.(displays := f.t, execs := p.execs[e := p.execs[e].(reducer := Some(f.r))]);
    assert fed.execs[e].area == p.execs[e].area && Listed(fed, e) && Current(fed, e) && DocOutputs(fed, e) == os;
    MergeApplied(fed, e, effect);
    assert [effect][..0] == [] && ApplyAll(fed, e, [effect]) == ApplyEffect(fed, e, effect);
    var q := Consume(p, e, StreamMsg(name, text));
    var merged := os[at].(text := os[at].text + text);
    assert DocOutputs(q, e) == os[at := merged];
    assert q.execs[e].reducer.value.out.outputs == os[at := Stream(name, os[at].text + text, [])];
    assert os[at := merged][at] == merged && os[at := Stream(name, os[at].text + text, [])][at] == Stream(name, os[at].text + text, []);
  }

  lemma MergeApplied(p: Plane, e: ExecId, effect: Effect)
    requires e in p.execs && effect.AppendStream? && effect.target.area == p.execs[e].area
    requires Listed(p, e) && Current(p, e) && SinkWrite(DocOutputs(p, e), effect).1
    requires forall i, j | 0 <= i < j < |p.areas| :: p.areas[i].area != p.areas[j].area
    ensures var q := ApplyEffect(p, e, effect);
            && q.execs == p.execs && q.areas == p.areas && Current(q, e)
            && DocOutputs(q, e) == SinkWrite(DocOutputs(p, e), effect).0
  {
  }

  /** A display content that poses as a stream with a member of its own, and a chunk of that stream. */
  function PosingStream(area: Area): seq<Event> {
    [Open(0, area, None, true),
     Routed(0, DisplayMsg(DisplayData, Override(Stream(Stdout, [0x61], [0x2C])), None)),
     Routed(0, StreamMsg(Stdout, [0x62]))]
  }

  lemma PosedRun(p: Plane, area: Area)
    requires Initial(p) && CellOf(area) in p.doc
    ensures var q := RunAll(p, PosingStream(area)[..2]);
      && Showing(q, 0) && !PlainMerge(q.execs[0].reducer.value, PosingStream(area)[2].m)
    ensures RunAll(p, PosingStream(area)) == Apply(RunAll(p, PosingStream(area)[..2]), PosingStream(area)[2])
  {
    var evs := PosingStream(area);
    assert evs[..3] == evs && evs[..0] == [];
    Opened(p, area);
    PosedOnce(OpenArea(p, 0, area, None, true), area);
    hide OpenArea, Consume, WellFormed, PlainMerge;
    RunNext(p, evs, 0);
    RunNext(p, evs, 1);
    RunNext(p, evs, 2);
  }

  /** From a fresh start the document and the reducer come apart. */
  lemma PosingStreamBreaks(p: Plane, area: Area)
    requires Initial(p) && CellOf(area) in p.doc
    ensures !Agreement(RunAll(p, PosingStream(area)))
  {
    var evs := PosingStream(area);
    PosedRun(p, area);
    RunWellFormed(p, evs[..2]);
    assert forall j | 0 <= j < 2 :: PlainEvent(RunAll(p, evs[..j]), evs[j]) by { hide RunAll; }
    AgreesUpTo(p, evs, 2);
    hide RunAll, Initial, WellFormed, Agreement, Apply;
    if Agreement(RunAll(p, evs)) {
      AgreedStepIsPlain(RunAll(p, evs[..2]), evs[2]);
    }
  }

  lemma Opened(p: Plane, area: Area)
    requires Initial(p) && CellOf(area) in p.doc
    ensures Enabled(p, Open(0, area, None, true)) && WellFormed(OpenArea(p, 0, area, None, true))
    ensures var a := OpenArea(p, 0, area, None, true);
      && Showing(a, 0) && a.execs[0].area == area && a.execs[0].reducer == Some(Fresh(area, None))
  {
    assert Live(p, []) == [];
    OpenWellFormed(p, 0, area, None, true);
  }

  lemma PosedOnce(a: Plane, area: Area)
    requires WellFormed(a) && Showing(a, 0) && a.execs[0].area == area && a.execs[0].reducer == Some(Fresh(area, None))
    ensures var b := Consume(a, 0, PosingStream(area)[1].m);
      && Showing(b, 0) && !PlainMerge(b.execs[0].reducer.value, PosingStream(area)[2].m)
  {
    var m := PosingStream(area)[1].m;
    var r := Fresh(area, None);
    PosedFeed(a.displays, area);
    FeedTargets(r, a.displays, m);
    hide WellFormed, ApplyAll, Feed, Agrees, PlainMerge, PosingStream;
    var f := Feed(r, a.displays, m);
    FedWellFormed(a, 0, f.r, f.t);
    var fed := a.(displays := f.t, execs := a.execs[0 := a.execs[0].(reducer := Some(f.r))]);
    AllKeeps(fed, 0, f.effects);
    var q := ApplyAll(fed, 0, f.effects);
    assert Listed(fed, 0) && Current(fed, 0) && Listed(q, 0) && Current(q, 0);
  }

  lemma PosedFeed(t: Table, area: Area)
    ensures PosingStream(area)[1].Routed? && PosingStream(area)[2].Routed?
    ensures var f := Feed(Fresh(area, None), t, PosingStream(area)[1].m);
      f.r.area == area && !PlainMerge(f.r, PosingStream(area)[2].m)
  {
    hide Size;
    var f := Feed(Fresh(area, None), t, PosingStream(area)[1].m);
    assert f.r.out.outputs == [Stream(Stdout, [0x61], [0x2C])];
  }

  // ---------------------------------------------------------------------------
  // a writer is valid for one generation
  // ---------------------------------------------------------------------------

  predicate WritersKept(p: Plane, q: Plane) {
    && q.doc.Keys == p.doc.Keys && (forall c | c in p.doc :: q.doc[c].writer == p.doc[c].writer)
    && q.execs.Keys == p.execs.Keys && forall x | x in p.execs :: q.execs[x].area == p.execs[x].area
  }

  lemma EffectWriters(p: Plane, e: ExecId, effect: Effect)
    requires e in p.execs
    ensures WritersKept(p, ApplyEffect(p, e, effect))
  {
  }

  lemma {:induction false} AllWriters(p: Plane, e: ExecId, es: seq<Effect>)
    requires e in p.execs
    ensures WritersKept(p, ApplyAll(p, e, es))
  {
    if es != [] {
      AllWriters(p, e, es[..|es| - 1]);
      EffectWriters(ApplyAll(p, e, es[..|es| - 1]), e, es[|es| - 1]);
      hide ApplyEffect;
    }
  }

  lemma ApplyStale(p: Plane, ev: Event, e: ExecId)
    requires e in p.execs && !Current(p, e)
    ensures e in Apply(p, ev).execs && !Current(Apply(p, ev), e)
  {
    if Enabled(p, ev) && ev.Routed? {
      hide Feed, ApplyAll;
      var f := Feed(p.execs[ev.exec].reducer.value, p.displays, ev.m);
      AllWriters(p.(displays := f.t, execs := p.execs[ev.exec := p.execs[ev.exec].(reducer := Some(f.r))]), ev.exec, f.effects);
    }
  }

  /** A sink that is no longer current never becomes current again, whatever happens. */
  lemma {:induction false} StaysStale(p: Plane, evs: seq<Event>, more: seq<Event>, e: ExecId)
    requires e in RunAll(p, evs).execs && !Current(RunAll(p, evs), e)
    ensures e in RunAll(p, evs + more).execs && !Current(RunAll(p, evs + more), e)
  {
    if more == [] {
      assert evs + more == evs;
    } else {
      var init, last := more[..|more| - 1], more[|more| - 1];
      StaysStale(p, evs, init, e);
      assert (evs + more)[..|evs + more| - 1] == evs + init && (evs + more)[|evs + more| - 1] == last;
      hide Apply, Current;
      ApplyStale(RunAll(p, evs + init), last, e);
    }
  }
}
