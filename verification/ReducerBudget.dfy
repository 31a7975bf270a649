/** The byte budget: what it may change, and how exact its estimate is. */
module ReducerBudget {
  import opened Options
  import opened Utf16
  import opened JsonText
  import opened Outputs
  import opened Displays
  import opened Reducer
  import opened ReducerRuns

  // ---------------------------------------------------------------------------
  // the table while no cap is reached
  // ---------------------------------------------------------------------------

  /** Registering the target evicts nothing. */
  predicate HasRoom(t: Table, id: string, x: Target) {
    var i := Find(t.entries, id);
    if i < |t.entries| then x in t.entries[i].targets || |t.entries[i].targets| < t.maxPerId else |t.entries| < t.maxIds
  }

  lemma {:induction false} ForgetUpdate(es: seq<Entry>, i: nat, e: Entry, area: Area)
    requires i < |es| && (forall k | 0 <= k < |es| :: es[k].targets != []) && e.targets != []
    requires Leave(e, area) == Leave(es[i], area)
    ensures ForgetEntries(es[i := e], area) == ForgetEntries(es, area)
  {
    var last := |es| - 1;
    ForgetLast(es, area);
    ForgetLast(es[i := e], area);
    if i == last {
      assert es[i := e][..last] == es[..last];
    } else {
      assert es[i := e][..last] == es[..last][i := e];
      ForgetUpdate(es[..last], i, e, area);
    }
  }

  lemma OutsideOwn(list: seq<Target>, x: Target)
    ensures Outside(list + [x], x.area) == Outside(list, x.area)
  {
  }

  lemma RegisterKnown(t: Table, id: string, x: Target)
    requires Sound(t) && HasRoom(t, id, x) && Find(t.entries, id) < |t.entries|
    ensures ForgetEntries(WithTarget(t, id, x).entries, x.area) == ForgetEntries(t.entries, x.area)
  {
    var i := Find(t.entries, id);
    var list := t.entries[i].targets;
    OutsideOwn(list, x);
    if x in list {
      assert WithTarget(t, id, x).entries == t.entries;
    } else {
      ForgetUpdate(t.entries, i, Entry(id, AddTarget(list, x, t.maxPerId)), x.area);
    }
  }

  lemma NewEntry(t: Table, id: string, x: Target)
    requires |t.entries| < t.maxIds && Find(t.entries, id) == |t.entries|
    ensures WithTarget(t, id, x).entries == t.entries + [Entry(id, [x])]
  {
    hide Outside, Size;
    var es := t.entries;
    FindUnique(es + [Entry(id, [])], id, |es|);
    assert AddTarget([], x, t.maxPerId) == [] + [x] == [x];
  }

  lemma ForgetNew(es: seq<Entry>, id: string, x: Target)
    ensures ForgetEntries(es + [Entry(id, [x])], x.area) == ForgetEntries(es, x.area)
  {
    assert (es + [Entry(id, [x])])[..|es|] == es;
    OutsideOwn([], x);
    assert [] + [x] == [x];
    ForgetLast(es + [Entry(id, [x])], x.area);
    assert ForgetEntries(es, x.area) + [] == ForgetEntries(es, x.area);
  }

  /** Registering an own target leaves what other areas see. */
  lemma RegisterOwn(t: Table, id: string, x: Target)
    requires Sound(t) && HasRoom(t, id, x)
    ensures var r := WithTarget(t, id, x); Sound(r) && Without(r, x.area) == Without(t, x.area)
  {
    hide Sound, ForgetEntries;
    RegisterSound(t, id, x);
    if Find(t.entries, id) < |t.entries| {
      RegisterKnown(t, id, x);
    } else {
      NewEntry(t, id, x);
      ForgetNew(t.entries, id, x);
    }
  }

  lemma {:induction false} OutsideTwice(list: seq<Target>, area: Area)
    ensures Outside(Outside(list, area), area) == Outside(list, area)
  {
    if list != [] {
      OutsideTwice(list[..|list| - 1], area);
      var init := Outside(list[..|list| - 1], area);
      assert (init + [list[|list| - 1]])[..|init|] == init && init + [] == init;
    }
  }

  lemma {:induction false} ForgetTwice(es: seq<Entry>, area: Area)
    requires forall k | 0 <= k < |es| :: es[k].targets != []
    ensures ForgetEntries(ForgetEntries(es, area), area) == ForgetEntries(es, area)
  {
    if es != [] {
      var init, last := es[..|es| - 1], es[|es| - 1];
      ForgetTwice(init, area);
      ForgetLast(es, area);
      OutsideTwice(last.targets, area);
      var r := ForgetEntries(init, area);
      assert r + [] == r;
      if Leave(last, area).targets != [] {
        assert (r + [Leave(last, area)])[..|r|] == r;
        ForgetLast(r + [Leave(last, area)], area);
      }
    }
  }

  lemma ForgetAgain(t: Table, area: Area)
    requires Sound(t)
    ensures var r := Without(t, area); Sound(r) && Without(r, area) == r
  {
    ForgetSound(t, area);
    ForgetTwice(t.entries, area);
  }

  // ---------------------------------------------------------------------------
  // the budgeted reducer refines the unbounded one
  // ---------------------------------------------------------------------------

  /** There is room to register an output added now. */
  predicate AddRoom(f: Fed, o: NbOutput, id: Option<string>) {
    id.Some? ==>
      var (r, t) := TakeDeferredClear(f.r, f.t);
      Exceeds(r.budget, r.out, Size(o)) || HasRoom(t, id.value, Target(r.area, |r.out.outputs|))
  }

  /** If the message registers an output, the table has room for it. */
  predicate StepRoom(f: Fed, m: Msg) { m.DisplayMsg? ==> AddRoom(f, OutputOf(m.kind, m.content), m.id) }

  /** No registration of the run reaches a cap of the table. */
  predicate Spacious(r: State, t: Table, ms: seq<Msg>) {
    ms == [] || (Spacious(r, t, ms[..|ms| - 1]) && StepRoom(FeedAll(r, t, ms[..|ms| - 1]), ms[|ms| - 1]))
  }

  /** `b` is budgeted, `u` is not; they agree on everything until `b` drops output. */
  predicate Tracks(b: Fed, u: Fed, base: Table) {
    && b.r.area == u.r.area && b.r.life == u.r.life && u.r.budget.None?
    && b.r.out.clearPending == u.r.out.clearPending && !u.r.out.incomplete
    && Sound(b.t) && Sound(u.t)
    && Without(b.t, b.r.area) == base && Without(u.t, b.r.area) == base
    && (!b.r.out.incomplete ==> b.r.out == u.r.out && b.t == u.t)
  }

  function Stepped(f: Fed, m: Msg): Fed { Feed(f.r, f.t, m) }

  lemma TracksClear(b: Fed, u: Fed, base: Table)
    requires Tracks(b, u, base)
    ensures var (br, bt) := TakeDeferredClear(b.r, b.t);
            var (ur, ut) := TakeDeferredClear(u.r, u.t);
            Tracks(Fed(br, bt, []), Fed(ur, ut, []), base)
  {
    ForgetAgain(b.t, b.r.area);
    ForgetAgain(u.t, b.r.area);
  }

  /** Adding an output with the deferred clear already taken. */
  lemma TracksPlace(b: Fed, u: Fed, base: Table, o: NbOutput, id: Option<string>)
    requires Tracks(b, u, base) && !b.r.out.clearPending && AddRoom(b, o, id) && AddRoom(u, o, id)
    ensures Tracks(AddOutput(b.r, b.t, o, id), AddOutput(u.r, u.t, o, id), base)
  {
    hide Sound, Without, WithTarget, Size, HasRoom;
    if id.Some? {
      if !Exceeds(b.r.budget, b.r.out, Size(o)) { RegisterOwn(b.t, id.value, Target(b.r.area, |b.r.out.outputs|)); }
      RegisterOwn(u.t, id.value, Target(u.r.area, |u.r.out.outputs|));
    }
  }

  lemma AddAfterClear(r: State, t: Table, o: NbOutput, id: Option<string>)
    ensures var (r1, t1) := TakeDeferredClear(r, t);
            AddOutput(r, t, o, id).(effects := []) == AddOutput(r1, t1, o, id).(effects := [])
  {
  }

  lemma TracksAdd(b: Fed, u: Fed, base: Table, o: NbOutput, id: Option<string>)
    requires Tracks(b, u, base) && AddRoom(b, o, id) && AddRoom(u, o, id)
    ensures Tracks(AddOutput(b.r, b.t, o, id), AddOutput(u.r, u.t, o, id), base)
  {
    hide Sound, Without, WithTarget, Size, HasRoom, AddOutput, Exceeds;
    TracksClear(b, u, base);
    var (br, bt) := TakeDeferredClear(b.r, b.t);
    var (ur, ut) := TakeDeferredClear(u.r, u.t);
    TracksPlace(Fed(br, bt, []), Fed(ur, ut, []), base, o, id);
    AddAfterClear(b.r, b.t, o, id);
    AddAfterClear(u.r, u.t, o, id);
  }

  lemma {:induction false} TracksTargets(b: State, u: State, targets: seq<Target>, o: NbOutput)
    requires b.area == u.area && u.budget.None? && !u.out.incomplete
    requires !b.out.incomplete ==> b.out == u.out
    ensures var (b1, _) := UpdateTargets(b, targets, o);
            var (u1, _) := UpdateTargets(u, targets, o);
            (!b1.out.incomplete ==> b1.out == u1.out && !b.out.incomplete) && !u1.out.incomplete
  {
    if targets != [] {
      TracksTargets(b, u, targets[..|targets| - 1], o);
      UpdateTargetsFrame(b, targets[..|targets| - 1], o);
      UpdateTargetsFrame(u, targets[..|targets| - 1], o);
    }
  }

  /** An unbounded reducer never becomes incomplete, whatever it is told to update. */
  lemma {:induction false} UnboundedTargets(u: State, targets: seq<Target>, o: NbOutput)
    requires u.budget.None? && !u.out.incomplete
    ensures !UpdateTargets(u, targets, o).0.out.incomplete
  {
    if targets != [] {
      UnboundedTargets(u, targets[..|targets| - 1], o);
      UpdateTargetsFrame(u, targets[..|targets| - 1], o);
    }
  }

  lemma {:induction false} StaysIncomplete(b: State, targets: seq<Target>, o: NbOutput)
    requires b.out.incomplete
    ensures UpdateTargets(b, targets, o).0.out.incomplete
  {
    if targets != [] {
      StaysIncomplete(b, targets[..|targets| - 1], o);
    }
  }

  lemma TracksUpdate(b: Fed, u: Fed, base: Table, content: Content, id: Option<string>)
    requires Tracks(b, u, base)
    ensures Tracks(HandleUpdateDisplay(b.r, b.t, content, id), HandleUpdateDisplay(u.r, u.t, content, id), base)
  {
    if id.Some? {
      var o := OutputOf(DisplayData, content);
      UpdateTargetsFrame(b.r, TargetsOf(b.t, id.value), o);
      UpdateTargetsFrame(u.r, TargetsOf(u.t, id.value), o);
      UnboundedTargets(u.r, TargetsOf(u.t, id.value), o);
      if b.r.out.incomplete {
        StaysIncomplete(b.r, TargetsOf(b.t, id.value), o);
      } else {
        TracksTargets(b.r, u.r, TargetsOf(b.t, id.value), o);
      }
    }
  }

  lemma TracksStream(b: Fed, u: Fed, base: Table, name: StreamName, text: Str)
    requires Tracks(b, u, base)
    ensures Tracks(HandleStream(b.r, b.t, name, text), HandleStream(u.r, u.t, name, text), base)
  {
    hide Sound, Without, WithTarget, Size;
    TracksAdd(b, u, base, Stream(name, text, []), None);
  }

  lemma TracksError(b: Fed, u: Fed, base: Table, failure: Failure)
    requires Tracks(b, u, base)
    ensures Tracks(HandleError(b.r, b.t, failure), HandleError(u.r, u.t, failure), base)
  {
    hide Sound, Without, WithTarget, Size;
    TracksAdd(b.(r := b.r.(life := Blamed(b.r.life, failure))), u.(r := u.r.(life := Blamed(b.r.life, failure))),
              base, ErrorOf(failure), None);
  }

  lemma TracksStep(b: Fed, u: Fed, base: Table, m: Msg)
    requires Tracks(b, u, base) && StepRoom(b, m) && StepRoom(u, m)
    ensures Tracks(Stepped(b, m), Stepped(u, m), base)
  {
    hide Sound, Without, WithTarget, Size, HasRoom, AddOutput, UpdateTargets, HandleStream, TakeDeferredClear, Exceeds;
    match m
    case StreamMsg(name, text) => TracksStream(b, u, base, name, text);
    case DisplayMsg(kind, content, id) => TracksAdd(b, u, base, OutputOf(kind, content), id);
    case UpdateDisplay(content, id) => TracksUpdate(b, u, base, content, id);
    case ErrorMsg(failure) => TracksError(b, u, base, failure);
    case ClearOutput(wait) =>
      ForgetAgain(b.t, b.r.area);
      ForgetAgain(u.t, b.r.area);
    case Reply(status, count, failure) =>
      TracksError(b.(r := b.r.(life := Replied(b.r.life, count))), u.(r := u.r.(life := Replied(b.r.life, count))),
                  base, failure);
    case _ =>
  }

  /**
   * While no registration reaches a cap of the table and nothing is marked incomplete, the budget
   * changes no output and no registration.
   */
  lemma {:induction false} BudgetRefines(area: Area, budget: nat, t: Table, ms: seq<Msg>)
    requires Sound(t) && Spacious(Fresh(area, Some(budget)), t, ms) && Spacious(Fresh(area, None), t, ms)
    ensures var b := FeedAll(Fresh(area, Some(budget)), t, ms);
            var u := FeedAll(Fresh(area, None), t, ms);
            !b.r.out.incomplete ==> b.r.out == u.r.out && b.t == u.t
  {
    BudgetTracks(area, budget, t, ms);
  }

  lemma {:induction false} BudgetTracks(area: Area, budget: nat, t: Table, ms: seq<Msg>)
    requires Sound(t) && Spacious(Fresh(area, Some(budget)), t, ms) && Spacious(Fresh(area, None), t, ms)
    ensures Tracks(FeedAll(Fresh(area, Some(budget)), t, ms), FeedAll(Fresh(area, None), t, ms), Without(t, area))
  {
    if ms != [] {
      hide Feed, Sound, StepRoom, Without;
      var init, m := ms[..|ms| - 1], ms[|ms| - 1];
      BudgetTracks(area, budget, t, init);
      TracksStep(FeedAll(Fresh(area, Some(budget)), t, init), FeedAll(Fresh(area, None), t, init), Without(t, area), m);
    }
  }

  /** When and how the execution completes depends on neither budget nor table. */
  lemma {:induction false} CompletionIgnoresBudget(area: Area, budget: Option<nat>, t: Table, budget': Option<nat>, t': Table, ms: seq<Msg>)
    ensures var f, g := FeedAll(Fresh(area, budget), t, ms), FeedAll(Fresh(area, budget'), t', ms);
            Lifecycle(f.effects) == Lifecycle(g.effects) && f.r.life == g.r.life && f.r.area == g.r.area == area
  {
    if ms != [] {
      hide Feed, Advance;
      var init, m := ms[..|ms| - 1], ms[|ms| - 1];
      CompletionIgnoresBudget(area, budget, t, budget', t', init);
      var f, g := FeedAll(Fresh(area, budget), t, init), FeedAll(Fresh(area, budget'), t', init);
      FeedLifecycle(f.r, f.t, m);
      FeedLifecycle(g.r, g.t, m);
      LifecycleConcat(f.effects, Feed(f.r, f.t, m).effects);
      LifecycleConcat(g.effects, Feed(g.r, g.t, m).effects);
    }
  }

  // -- room enough, by counting ---------------------------------------------------------

  /** Room for `n` more registrations without an eviction. */
  predicate Roomy(t: Table, n: nat) {
    && |t.entries| + n <= t.maxIds && n <= t.maxPerId
    && forall i | 0 <= i < |t.entries| :: |t.entries[i].targets| + n <= t.maxPerId
  }

  predicate Registers(m: Msg) { m.DisplayMsg? && m.id.Some? }

  function Registrations(ms: seq<Msg>): nat {
    if ms == [] then 0 else Registrations(ms[..|ms| - 1]) + if Registers(ms[|ms| - 1]) then 1 else 0
  }

  lemma ForgetRoomy(t: Table, area: Area, n: nat)
    requires Sound(t) && Roomy(t, n)
    ensures var r := Without(t, area); Sound(r) && Roomy(r, n)
  {
    ForgetSound(t, area);
    ForgetUnique(t.entries, area);
    var r := ForgetEntries(t.entries, area);
    forall k | 0 <= k < |r| ensures |r[k].targets| + n <= t.maxPerId {
      assert r[k] in r;
      ForgetRemains(t.entries, area, r[k]);
      var e :| e in t.entries && Leave(e, area) == r[k];
      OutsideKeeps(e.targets, area);
    }
  }

  lemma RegisterRoomy(t: Table, id: string, x: Target, n: nat)
    requires Sound(t) && Roomy(t, n + 1)
    ensures HasRoom(t, id, x) && Sound(WithTarget(t, id, x)) && Roomy(WithTarget(t, id, x), n)
  {
    RegisterSound(t, id, x);
    hide Sound;
    if Find(t.entries, id) == |t.entries| { NewEntry(t, id, x); }
  }

  lemma AddRoomy(r: State, t: Table, o: NbOutput, id: Option<string>, n: nat)
    requires Sound(t) && Roomy(t, if id.Some? then n + 1 else n)
    ensures AddRoom(Fed(r, t, []), o, id)
    ensures Sound(AddOutput(r, t, o, id).t) && Roomy(AddOutput(r, t, o, id).t, n)
  {
    hide Sound, Size, WithTarget, Without;
    var m := if id.Some? then n + 1 else n;
    ForgetRoomy(t, r.area, m);
    var (r1, t1) := TakeDeferredClear(r, t);
    if id.Some? { RegisterRoomy(t1, id.value, Target(r1.area, |r1.out.outputs|), n); }
  }

  lemma StepRoomy(f: Fed, m: Msg, n: nat)
    requires Sound(f.t) && Roomy(f.t, if Registers(m) then n + 1 else n)
    ensures StepRoom(f, m) && Sound(Stepped(f, m).t) && Roomy(Stepped(f, m).t, n)
  {
    hide Sound, Roomy, Size, WithTarget, Without, AddOutput, TakeDeferredClear, HasRoom, Exceeds, UpdateTargets, Extend;
    match m
    case StreamMsg(name, text) => AddRoomy(f.r, f.t, Stream(name, text, []), None, n);
    case DisplayMsg(kind, content, id) => AddRoomy(f.r, f.t, OutputOf(kind, content), id, n);
    case ErrorMsg(failure) => AddRoomy(f.r.(life := Blamed(f.r.life, failure)), f.t, ErrorOf(failure), None, n);
    case Reply(status, count, failure) =>
      var r := f.r.(life := Replied(f.r.life, count));
      AddRoomy(r.(life := Blamed(r.life, failure)), f.t, ErrorOf(failure), None, n);
    case ClearOutput(wait) => ForgetRoomy(f.t, f.r.area, n);
    case _ =>
  }

  /** A run has room whenever the table has, for each display that carries an id. */
  lemma {:induction false} CountedRoom(area: Area, budget: Option<nat>, t: Table, ms: seq<Msg>, n: nat)
    requires Sound(t) && Roomy(t, Registrations(ms) + n)
    ensures Spacious(Fresh(area, budget), t, ms)
    ensures Sound(FeedAll(Fresh(area, budget), t, ms).t) && Roomy(FeedAll(Fresh(area, budget), t, ms).t, n)
  {
    if ms != [] {
      hide Feed, Sound, Roomy, StepRoom;
      var init, m := ms[..|ms| - 1], ms[|ms| - 1];
      CountedRoom(area, budget, t, init, if Registers(m) then n + 1 else n);
      StepRoomy(FeedAll(Fresh(area, budget), t, init), m, n);
    }
  }

  // ---------------------------------------------------------------------------
  // the size estimate
  // ---------------------------------------------------------------------------

  /** A message, or an update from another execution. */
  datatype Input = Message(m: Msg) | Cross(index: nat, output: NbOutput)

  function Take(f: Fed, i: Input): Fed {
    match i
    case Message(m) => Feed(f.r, f.t, m)
    case Cross(index, output) => Fed(ReplaceOutput(f.r, index, output), f.t, [])
  }

  function Run(r: State, t: Table, ins: seq<Input>): Fed {
    if ins == [] then Fed(r, t, []) else Take(Run(r, t, ins[..|ins| - 1]), ins[|ins| - 1])
  }

  /** The message is a chunk that is merged into the last output. */
  predicate Continues(r: State, m: Msg) {
    m.StreamMsg? && Merges(r.out, m.name) && !Exceeds(r.budget, r.out, |QuoteBody(m.text)|)
  }

  /** The message appends to a stream in the middle of a surrogate pair. */
  predicate SplitsChunk(r: State, m: Msg) {
    Continues(r, m) && SplitsPair(r.out.outputs[|r.out.outputs| - 1].text, m.text)
  }

  /** The length of the members beyond name and text that the merge drops from the stream. */
  function DroppedBy(r: State, m: Msg): nat {
    if Continues(r, m) then |r.out.outputs[|r.out.outputs| - 1].extra| else 0
  }

  /** The message empties the area, at once or by making a deferred clear due. */
  predicate Empties(r: State, m: Msg) {
    (m.ClearOutput? && !m.wait) || (r.out.clearPending && !Feed(r, Table([], 1, 1), m).r.out.clearPending)
  }

  /** Chunk boundaries inside a surrogate pair since the area was last emptied. */
  function Splits(r: State, t: Table, ins: seq<Input>): nat {
    if ins == [] then 0
    else
      var before := Run(r, t, ins[..|ins| - 1]).r;
      var n := Splits(r, t, ins[..|ins| - 1]);
      match ins[|ins| - 1]
      case Message(m) => if Empties(before, m) then 0 else if SplitsChunk(before, m) then n + 1 else n
      case Cross(_, _) => n
  }

  /** The length of what merges have dropped since the area was last emptied. */
  function Dropped(r: State, t: Table, ins: seq<Input>): nat {
    if ins == [] then 0
    else
      var before := Run(r, t, ins[..|ins| - 1]).r;
      var n := Dropped(r, t, ins[..|ins| - 1]);
      match ins[|ins| - 1]
      case Message(m) => if Empties(before, m) then 0 else n + DroppedBy(before, m)
      case Cross(_, _) => n
  }

  /** The recorded size is `slack` more than the stored outputs take. */
  predicate Estimates(out: Collected, slack: nat) {
    out.bytes == TotalSize(out.outputs) + slack
  }

  lemma OverwriteEstimate(out: Collected, index: nat, o: NbOutput, slack: nat)
    requires index < |out.outputs| && Estimates(out, slack)
    ensures Estimates(Overwrite(out, index, o), slack)
  {
    TotalSizeUpdate(out.outputs, index, o);
  }

  lemma {:induction false} UpdateEstimate(r: State, targets: seq<Target>, o: NbOutput, slack: nat)
    requires Estimates(r.out, slack)
    ensures Estimates(UpdateTargets(r, targets, o).0.out, slack)
  {
    if targets != [] {
      UpdateEstimate(r, targets[..|targets| - 1], o, slack);
      var r1 := UpdateTargets(r, targets[..|targets| - 1], o).0;
      var target := targets[|targets| - 1];
      if target.area == r1.area && target.index < |r1.out.outputs| {
        OverwriteEstimate(r1.out, target.index, o, slack);
      }
    }
  }

  lemma ExtendEstimate(out: Collected, name: StreamName, text: Str, slack: nat)
    requires Merges(out, name) && Estimates(out, slack)
    ensures var last := out.outputs[|out.outputs| - 1];
            Estimates(Extend(out, name, text), slack + |last.extra| + if SplitsPair(last.text, text) then 10 else 0)
  {
    var at := |out.outputs| - 1;
    QuoteLengthAdds(out.outputs[at].text, text);
    TotalSizeUpdate(out.outputs, at, Stream(name, out.outputs[at].text + text, []));
  }

  lemma AddEstimate(r: State, t: Table, o: NbOutput, id: Option<string>, slack: nat)
    requires Estimates(r.out, slack)
    ensures var f := AddOutput(r, t, o, id);
            Estimates(f.r.out, if r.out.clearPending then 0 else slack) && !f.r.out.clearPending
  {
  }

  /** Which messages reach the point where a deferred clear is taken. */
  predicate Adds(r: State, m: Msg) {
    match m
    case StreamMsg(name, _) => !Merges(r.out, name)
    case DisplayMsg(_, _, _) => true
    case ErrorMsg(_) => !r.life.errorSeen
    case Reply(status, _, _) => status.ReplyError? && !r.life.errorSeen
    case _ => false
  }

  lemma EmptiesIffAdds(r: State, m: Msg)
    ensures Empties(r, m) <==> (m.ClearOutput? && !m.wait) || (r.out.clearPending && Adds(r, m))
  {
  }

  /** What one message, whatever it brings, adds to the difference. */
  lemma FeedEstimate(r: State, t: Table, m: Msg, slack: nat)
    requires Estimates(r.out, slack)
    ensures Estimates(Feed(r, t, m).r.out,
                      if Empties(r, m) then 0 else slack + DroppedBy(r, m) + if SplitsChunk(r, m) then 10 else 0)
  {
    hide Estimates, Empties, Size, WithTarget, Without, Extend;
    EmptiesIffAdds(r, m);
    EmptyEstimate();
    match m
    case StreamMsg(name, text) =>
      AddEstimate(r, t, Stream(name, text, []), None, slack);
      if Merges(r.out, name) { ExtendEstimate(r.out, name, text, slack); }
      FlagEstimate(r.out, slack);
    case DisplayMsg(kind, content, id) => AddEstimate(r, t, OutputOf(kind, content), id, slack);
    case UpdateDisplay(content, id) =>
      if id.Some? { UpdateEstimate(r, TargetsOf(t, id.value), OutputOf(DisplayData, content), slack); }
    case ErrorMsg(failure) => AddEstimate(r.(life := Blamed(r.life, failure)), t, ErrorOf(failure), None, slack);
    case Reply(status, count, failure) =>
      var r1 := r.(life := Replied(r.life, count));
      AddEstimate(r1.(life := Blamed(r1.life, failure)), t, ErrorOf(failure), None, slack);
    case ClearOutput(wait) => FlagEstimate(r.out, slack);
    case _ =>
  }

  lemma EmptyEstimate()
    ensures Estimates(Collected([], 0, false, false), 0)
  {
  }

  lemma FlagEstimate(out: Collected, slack: nat)
    requires Estimates(out, slack)
    ensures Estimates(out.(incomplete := true), slack) && Estimates(out.(clearPending := true), slack)
  {
  }

  /**
   * For every input: the estimate is the stored JSON length, plus ten for every surrogate pair a chunk
   * boundary has split, plus what merges have dropped from streams with members of their own, both
   * counted since the area was last emptied.
   */
  lemma {:induction false} EstimateExact(area: Area, budget: Option<nat>, t: Table, ins: seq<Input>)
    ensures var r := Run(Fresh(area, budget), t, ins).r;
            r.out.bytes == TotalSize(r.out.outputs)
                           + 10 * Splits(Fresh(area, budget), t, ins) + Dropped(Fresh(area, budget), t, ins)
  {
    if ins != [] {
      var init, i := ins[..|ins| - 1], ins[|ins| - 1];
      EstimateExact(area, budget, t, init);
      var before := Run(Fresh(area, budget), t, init);
      var slack := 10 * Splits(Fresh(area, budget), t, init) + Dropped(Fresh(area, budget), t, init);
      match i
      case Message(m) => FeedEstimate(before.r, before.t, m, slack);
      case Cross(index, output) =>
        if index < |before.r.out.outputs| { OverwriteEstimate(before.r.out, index, output, slack); }
    }
  }

  /** The estimate never falls below the JSON length of what is stored. */
  lemma EstimateCovers(area: Area, budget: Option<nat>, t: Table, ins: seq<Input>)
    ensures var r := Run(Fresh(area, budget), t, ins).r; TotalSize(r.out.outputs) <= r.out.bytes
  {
    EstimateExact(area, budget, t, ins);
  }

  // -- the budget is respected by everything except updates from elsewhere ----------------

  predicate Within(r: State) {
    r.budget.Some? ==> r.out.bytes <= r.budget.value
  }

  lemma {:induction false} UpdateWithin(r: State, targets: seq<Target>, o: NbOutput)
    requires Within(r)
    ensures Within(UpdateTargets(r, targets, o).0)
  {
    if targets != [] {
      UpdateWithin(r, targets[..|targets| - 1], o);
    }
  }

  lemma FeedWithin(r: State, t: Table, m: Msg)
    requires Within(r)
    ensures Within(Feed(r, t, m).r)
  {
    hide Size, WithTarget, Without;
    if m.UpdateDisplay? && m.id.Some? {
      UpdateWithin(r, TargetsOf(t, m.id.value), OutputOf(DisplayData, m.content));
    }
  }

  /** Messages alone never push the estimate past the budget. */
  lemma {:induction false} BudgetRespected(area: Area, budget: nat, t: Table, ms: seq<Msg>)
    ensures FeedAll(Fresh(area, Some(budget)), t, ms).r.out.bytes <= budget
  {
    BudgetInvariant(area, budget, t, ms);
  }

  lemma {:induction false} BudgetInvariant(area: Area, budget: nat, t: Table, ms: seq<Msg>)
    ensures var r := FeedAll(Fresh(area, Some(budget)), t, ms).r; Within(r) && r.budget == Some(budget)
  {
    if ms != [] {
      var init, m := ms[..|ms| - 1], ms[|ms| - 1];
      BudgetInvariant(area, budget, t, init);
      var before := FeedAll(Fresh(area, Some(budget)), t, init);
      FeedWithin(before.r, before.t, m);
      FeedLifecycle(before.r, before.t, m);
    }
  }

  /** The check that an update from another execution does not get. */
  predicate CrossFits(r: State, i: Input, budget: nat) {
    i.Cross? && i.index < |r.out.outputs| ==> r.out.bytes - Size(r.out.outputs[i.index]) + Size(i.output) <= budget
  }

  lemma TakeWithin(f: Fed, i: Input, budget: nat)
    requires f.r.budget == Some(budget) && f.r.out.bytes <= budget
    ensures Take(f, i).r.budget == Some(budget) && (Take(f, i).r.out.bytes <= budget <==> CrossFits(f.r, i, budget))
  {
    if i.Message? {
      hide Feed;
      FeedWithin(f.r, f.t, i.m);
      FeedLifecycle(f.r, f.t, i.m);
    }
  }

  /** One prefix after the other. */
  lemma RunNext(area: Area, budget: nat, t: Table, ins: seq<Input>, k: nat)
    requires k < |ins|
    ensures Run(Fresh(area, Some(budget)), t, ins[..k + 1]) == Take(Run(Fresh(area, Some(budget)), t, ins[..k]), ins[k])
  {
    assert ins[..k + 1][..k] == ins[..k] && ins[..k + 1][k] == ins[k];
  }

  lemma {:induction false} WithinUpTo(area: Area, budget: nat, t: Table, ins: seq<Input>, k: nat)
    requires k <= |ins|
    requires forall j | 0 <= j < k :: CrossFits(Run(Fresh(area, Some(budget)), t, ins[..j]).r, ins[j], budget)
    ensures var r := Run(Fresh(area, Some(budget)), t, ins[..k]).r; r.budget == Some(budget) && r.out.bytes <= budget
  {
    hide Take, CrossFits;
    if k > 0 {
      WithinUpTo(area, budget, t, ins, k - 1);
      RunNext(area, budget, t, ins, k - 1);
      TakeWithin(Run(Fresh(area, Some(budget)), t, ins[..k - 1]), ins[k - 1], budget);
    } else {
      assert ins[..0] == [];
    }
  }

  lemma {:induction false} BudgetStays(area: Area, budget: nat, t: Table, ins: seq<Input>)
    ensures Run(Fresh(area, Some(budget)), t, ins).r.budget == Some(budget)
  {
    if ins != [] {
      hide Feed;
      BudgetStays(area, budget, t, ins[..|ins| - 1]);
      var f := Run(Fresh(area, Some(budget)), t, ins[..|ins| - 1]);
      if ins[|ins| - 1].Message? { FeedLifecycle(f.r, f.t, ins[|ins| - 1].m); }
    }
  }

  /**
   * With updates from other executions the budget holds throughout a run exactly when each of them,
   * when it comes, is out of range or leaves the estimate within the budget.
   */
  lemma BudgetHoldsIff(area: Area, budget: nat, t: Table, ins: seq<Input>)
    ensures (forall k | 0 <= k <= |ins| :: Run(Fresh(area, Some(budget)), t, ins[..k]).r.out.bytes <= budget)
       <==> (forall k | 0 <= k < |ins| :: CrossFits(Run(Fresh(area, Some(budget)), t, ins[..k]).r, ins[k], budget))
  {
    hide Take, CrossFits, Run;
    if forall k | 0 <= k < |ins| :: CrossFits(Run(Fresh(area, Some(budget)), t, ins[..k]).r, ins[k], budget) {
      forall k | 0 <= k <= |ins| ensures Run(Fresh(area, Some(budget)), t, ins[..k]).r.out.bytes <= budget {
        WithinUpTo(area, budget, t, ins, k);
      }
    }
    if forall k | 0 <= k <= |ins| :: Run(Fresh(area, Some(budget)), t, ins[..k]).r.out.bytes <= budget {
      forall k | 0 <= k < |ins| ensures CrossFits(Run(Fresh(area, Some(budget)), t, ins[..k]).r, ins[k], budget) {
        RunNext(area, budget, t, ins, k);
        BudgetStays(area, budget, t, ins[..k]);
        assert Run(Fresh(area, Some(budget)), t, ins[..k + 1]).r.out.bytes <= budget;
        TakeWithin(Run(Fresh(area, Some(budget)), t, ins[..k]), ins[k], budget);
      }
    }
  }

  /** An update from another execution does: one stored output, replaced by a larger one. */
  lemma CrossUpdateOverruns(area: Area, t: Table)
    ensures var small, large := Body([]), Body([0x2C]);
            var first := Message(DisplayMsg(DisplayData, small, None));
            var budget := Size(OutputOf(DisplayData, small));
            Run(Fresh(area, Some(budget)), t, [first, Cross(0, OutputOf(DisplayData, large))]).r.out.bytes == budget + 1
  {
    var o := Display(DisplayData, []);
    var first := Message(DisplayMsg(DisplayData, Body([]), None));
    var ins := [first, Cross(0, Display(DisplayData, [0x2C]))];
    assert ins[..1] == [first] && [first][..0] == [];
    var r := Fresh(area, Some(Size(o)));
    assert Run(r, t, [first]) == Take(Fed(r, t, []), first);
    assert [] + [o] == [o];
  }
}
