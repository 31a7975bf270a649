/** What a reducer guarantees over every message sequence. */
module ReducerRuns {
  import opened Options
  import opened Utf16
  import opened JsonText
  import opened Outputs
  import opened Displays
  import opened Reducer

  predicate IsLifecycle(e: Effect) { e.SetCount? || e.SetIdle? || e.Complete? }

  /** The commands that publish the end of an execution. */
  function Lifecycle(es: seq<Effect>): seq<Effect> {
    if es == [] then []
    else Lifecycle(es[..|es| - 1]) + (if IsLifecycle(es[|es| - 1]) then [es[|es| - 1]] else [])
  }

  lemma {:induction false} LifecycleConcat(a: seq<Effect>, b: seq<Effect>)
    ensures Lifecycle(a + b) == Lifecycle(a) + Lifecycle(b)
  {
    if b == [] {
      assert a + b == a;
    } else {
      assert (a + b)[..|a + b| - 1] == a + b[..|b| - 1];
      LifecycleConcat(a, b[..|b| - 1]);
    }
  }

  lemma {:induction false} NoLifecycle(es: seq<Effect>)
    requires forall e | e in es :: !IsLifecycle(e)
    ensures Lifecycle(es) == []
  {
    if es != [] {
      NoLifecycle(es[..|es| - 1]);
    }
  }

  /** What every reachable progress record satisfies. */
  predicate Consistent(life: Progress) {
    && life.completed == (life.replySeen && life.idleSeen)
    && (life.replySeen ==> !life.status.Running?)
    && (life.errorSeen <==> life.errorName.Some?)
  }

  lemma {:induction false} UpdateTargetsFrame(r: State, targets: seq<Target>, o: NbOutput)
    ensures var (r1, es) := UpdateTargets(r, targets, o);
            && r1 == r.(out := r1.out) && |r1.out.outputs| == |r.out.outputs| && r1.out.clearPending == r.out.clearPending
            && (forall e | e in es :: e.Update? && e.output == o && e.target in targets)
  {
    if targets != [] {
      UpdateTargetsFrame(r, targets[..|targets| - 1], o);
      assert targets == targets[..|targets| - 1] + [targets[|targets| - 1]];
    }
  }

  predicate OutputOnly(r: State, f: Fed) {
    f.r == r.(out := f.r.out) && Lifecycle(f.effects) == []
  }

  /** Handling an output message touches no progress variable and emits no lifecycle command. */
  lemma OutputStepFrame(r: State, t: Table, m: Msg)
    requires m.StreamMsg? || m.DisplayMsg? || m.UpdateDisplay? || m.ClearOutput?
    ensures OutputOnly(r, Feed(r, t, m))
  {
    match m
    case StreamMsg(name, text) =>
      if Merges(r.out, name) { NoLifecycle(HandleStream(r, t, name, text).effects); }
    case DisplayMsg(kind, content, id) =>
    case UpdateDisplay(content, id) =>
      if id.Some? { UpdateTargetsFrame(r, TargetsOf(t, id.value), OutputOf(DisplayData, content)); }
      NoLifecycle(HandleUpdateDisplay(r, t, content, id).effects);
    case ClearOutput(wait) => NoLifecycle(HandleClear(r, t, wait).effects);
  }

  lemma ErrorFrame(r: State, t: Table, failure: Failure)
    ensures OutputOnly(r.(life := Blamed(r.life, failure)), HandleError(r, t, failure))
  {
  }

  lemma BatchLifecycle(area: Area, life: Progress)
    ensures Lifecycle(Batch(area, life)) == Batch(area, life)
  {
    var b := Batch(area, life);
    assert IsLifecycle(b[0]) && IsLifecycle(b[1]) && IsLifecycle(b[2]);
    hide Lifecycle, IsLifecycle;
    assert b == [b[0]] + [b[1]] + [b[2]];
    LifecycleConcat([b[0]], [b[1]]);
    LifecycleConcat([b[0]] + [b[1]], [b[2]]);
  }

  lemma MaybeCompleteLifecycle(f: Fed)
    requires Lifecycle(f.effects) == []
    ensures var g := MaybeComplete(f);
            Lifecycle(g.effects) == if g.r.life.completed && !f.r.life.completed then Batch(g.r.area, g.r.life) else []
  {
    var g := MaybeComplete(f);
    BatchLifecycle(g.r.area, g.r.life);
    if g.r.life.completed && !f.r.life.completed {
      LifecycleConcat(f.effects, Batch(g.r.area, g.r.life));
    } else {
      assert g.effects == f.effects;
    }
  }

  /** How a message moves the progress record, by itself. */
  function Advance(life: Progress, m: Msg): Progress {
    match m
    case ExecuteInput(count) => if count.Some? then life.(count := count) else life
    case ErrorMsg(failure) => Blamed(life, failure)
    case Status(idle) => if idle then Completed(life.(idleSeen := true)) else life
    case Reply(ReplyAborted, count, _) => Completed(Replied(life, count).(status := Aborted))
    case Reply(ReplyError, count, failure) => Completed(Blamed(Replied(life, count), failure))
    case Reply(ReplyOk, count, _) =>
      var r := Replied(life, count);
      Completed(if r.status.Running? then r.(status := Ok) else r)
    case _ => life
  }

  /** One message: progress ignores the outputs, and the batch comes exactly at the first completion. */
  lemma FeedLifecycle(r: State, t: Table, m: Msg)
    ensures var f := Feed(r, t, m);
            && f.r.area == r.area && f.r.budget == r.budget && f.r.life == Advance(r.life, m)
            && Lifecycle(f.effects)
               == if f.r.life.completed && !r.life.completed then Batch(r.area, f.r.life) else []
  {
    match m
    case StreamMsg(_, _) => OutputStepFrame(r, t, m);
    case DisplayMsg(_, _, _) => OutputStepFrame(r, t, m);
    case UpdateDisplay(_, _) => OutputStepFrame(r, t, m);
    case ClearOutput(_) => OutputStepFrame(r, t, m);
    case ErrorMsg(failure) => ErrorFrame(r, t, failure);
    case Status(idle) =>
      if idle { MaybeCompleteLifecycle(Fed(r.(life := r.life.(idleSeen := true)), t, [])); }
    case Reply(status, count, failure) =>
      var r1 := r.(life := Replied(r.life, count));
      if status.ReplyError? { ErrorFrame(r1, t, failure); }
      MaybeCompleteLifecycle(ReplyCore(r, t, status, count, failure));
    case _ =>
  }

  lemma AdvanceConsistent(life: Progress, m: Msg)
    requires Consistent(life)
    ensures var next := Advance(life, m);
            && Consistent(next)
            && next.replySeen == (life.replySeen || m.Reply?)
            && next.idleSeen == (life.idleSeen || (m.Status? && m.idle))
  {
  }

  // ---------------------------------------------------------------------------
  // completion over whole runs
  // ---------------------------------------------------------------------------

  predicate HasReply(ms: seq<Msg>) { ms != [] && (HasReply(ms[..|ms| - 1]) || ms[|ms| - 1].Reply?) }

  predicate HasIdle(ms: seq<Msg>) {
    ms != [] && (HasIdle(ms[..|ms| - 1]) || (ms[|ms| - 1].Status? && ms[|ms| - 1].idle))
  }

  /** A closing batch: count, idle, completion, in that order and agreeing on the count. */
  predicate IsBatch(es: seq<Effect>, area: Area) {
    && |es| == 3 && es[2].Complete? && es[0] == SetCount(area, es[2].count) && es[1] == SetIdle(area)
    && es[2].area == area && !es[2].status.Running?
  }

  /** Exactly one completion, once both the reply and idle were fed, and none before. */
  lemma {:induction false} CompletesOnce(area: Area, budget: Option<nat>, t: Table, ms: seq<Msg>)
    ensures var f := FeedAll(Fresh(area, budget), t, ms);
            && f.r.area == area && f.r.budget == budget && Consistent(f.r.life)
            && f.r.life.replySeen == HasReply(ms) && f.r.life.idleSeen == HasIdle(ms)
            && (if HasReply(ms) && HasIdle(ms) then IsBatch(Lifecycle(f.effects), area) else Lifecycle(f.effects) == [])
  {
    if ms != [] {
      var init, m := ms[..|ms| - 1], ms[|ms| - 1];
      CompletesOnce(area, budget, t, init);
      var before := FeedAll(Fresh(area, budget), t, init);
      FeedLifecycle(before.r, before.t, m);
      AdvanceConsistent(before.r.life, m);
      LifecycleConcat(before.effects, Feed(before.r, before.t, m).effects);
    }
  }

  /** The last message that decides the outcome: an error, or a reply saying error or aborted. */
  function Verdict(ms: seq<Msg>): RunStatus {
    if ms == [] then Running
    else
      match ms[|ms| - 1]
      case ErrorMsg(_) => Failed
      case Reply(ReplyError, _, _) => Failed
      case Reply(ReplyAborted, _, _) => Aborted
      case _ => Verdict(ms[..|ms| - 1])
  }

  /** `execution_count`: the latest `execute_input` that has one, else the first reply that has one. */
  function CountOf(ms: seq<Msg>): Option<int> {
    if ms == [] then None
    else
      match ms[|ms| - 1]
      case ExecuteInput(Some(n)) => Some(n)
      case Reply(_, count, _) => if CountOf(ms[..|ms| - 1]).Some? then CountOf(ms[..|ms| - 1]) else count
      case _ => CountOf(ms[..|ms| - 1])
  }

  /** The failure a message reports. */
  function FailureOf(m: Msg): Option<Failure> {
    match m
    case ErrorMsg(failure) => Some(failure)
    case Reply(ReplyError, _, failure) => Some(failure)
    case _ => None
  }

  /** The name of the first failure. */
  function FirstError(ms: seq<Msg>): Option<Str> {
    if ms == [] then None
    else if FirstError(ms[..|ms| - 1]).Some? then FirstError(ms[..|ms| - 1])
    else
      match FailureOf(ms[|ms| - 1])
      case None => None
      case Some(failure) => Some(if failure.ename.Some? then failure.ename.value else DEFAULT_ENAME)
  }

  predicate Explained(life: Progress, ms: seq<Msg>) {
    && life.count == CountOf(ms)
    && life.errorName == FirstError(ms) && life.errorSeen == FirstError(ms).Some?
    && life.status == (if !Verdict(ms).Running? then Verdict(ms) else if life.replySeen then Ok else Running)
  }

  lemma AdvanceExplained(life: Progress, ms: seq<Msg>)
    requires ms != [] && Consistent(life) && Explained(life, ms[..|ms| - 1])
    ensures Explained(Advance(life, ms[|ms| - 1]), ms)
  {
  }

  /** Outcome and count are functions of the messages alone, whatever the budget and the table. */
  lemma {:induction false} OutcomeOfRun(area: Area, budget: Option<nat>, t: Table, ms: seq<Msg>)
    ensures Explained(FeedAll(Fresh(area, budget), t, ms).r.life, ms)
  {
    if ms != [] {
      hide Feed;
      var init, m := ms[..|ms| - 1], ms[|ms| - 1];
      OutcomeOfRun(area, budget, t, init);
      CompletesOnce(area, budget, t, init);
      var before := FeedAll(Fresh(area, budget), t, init);
      FeedLifecycle(before.r, before.t, m);
      AdvanceExplained(before.r.life, ms);
    }
  }

  // ---------------------------------------------------------------------------
  // one error output
  // ---------------------------------------------------------------------------

  predicate WritesError(e: Effect) {
    match e
    case Append(_, o) => o.Error?
    case Update(_, o) => o.Error?
    case Replace(_, os) => exists i :: 0 <= i < |os| && os[i].Error?
    case _ => false
  }

  function ErrorWrites(es: seq<Effect>): nat {
    if es == [] then 0 else ErrorWrites(es[..|es| - 1]) + (if WritesError(es[|es| - 1]) then 1 else 0)
  }

  lemma {:induction false} ErrorWritesConcat(a: seq<Effect>, b: seq<Effect>)
    ensures ErrorWrites(a + b) == ErrorWrites(a) + ErrorWrites(b)
  {
    if b == [] {
      assert a + b == a;
    } else {
      assert (a + b)[..|a + b| - 1] == a + b[..|b| - 1];
      ErrorWritesConcat(a, b[..|b| - 1]);
    }
  }

  lemma {:induction false} NoErrorWrites(es: seq<Effect>)
    requires forall e | e in es :: !WritesError(e)
    ensures ErrorWrites(es) == 0
  {
    if es != [] {
      NoErrorWrites(es[..|es| - 1]);
    }
  }

  lemma AddWritesOnce(r: State, t: Table, o: NbOutput, id: Option<string>)
    ensures ErrorWrites(AddOutput(r, t, o, id).effects) <= if o.Error? then 1 else 0
  {
  }

  lemma ReplyErrorWrites(r: State, t: Table, status: ReplyStatus, count: Option<int>, failure: Failure)
    ensures ErrorWrites(MaybeComplete(ReplyCore(r, t, status, count, failure)).effects)
         <= if status.ReplyError? && !r.life.errorSeen then 1 else 0
  {
    hide AddOutput, MaybeComplete;
    var r1 := r.(life := Replied(r.life, count));
    AddWritesOnce(r1.(life := Blamed(r1.life, failure)), t, ErrorOf(failure), None);
    CompletionWritesNoError(ReplyCore(r, t, status, count, failure));
  }

  /** The content of the message is itself an error output. */
  predicate PosesAsError(m: Msg) {
    (m.DisplayMsg? || m.UpdateDisplay?) && OutputOf(DisplayData, m.content).Error?
  }

  function ContentWrites(es: seq<Effect>): nat {
    if es == [] then 0
    else ContentWrites(es[..|es| - 1]) + (if es[|es| - 1].Append? || es[|es| - 1].Replace? || es[|es| - 1].Update? then 1 else 0)
  }

  /** The writes of outputs that display messages brought as errors. */
  function PosedErrors(r: State, t: Table, ms: seq<Msg>): nat {
    if ms == [] then 0
    else
      var before, m := FeedAll(r, t, ms[..|ms| - 1]), ms[|ms| - 1];
      PosedErrors(r, t, ms[..|ms| - 1]) + (if PosesAsError(m) then ContentWrites(Feed(before.r, before.t, m).effects) else 0)
  }

  lemma {:induction false} ErrorsAreWrites(es: seq<Effect>)
    ensures ErrorWrites(es) <= ContentWrites(es)
  {
    if es != [] { ErrorsAreWrites(es[..|es| - 1]); }
  }

  lemma DisplayErrorWrites(r: State, t: Table, content: Content, id: Option<string>)
    requires !OutputOf(DisplayData, content).Error?
    ensures ErrorWrites(HandleUpdateDisplay(r, t, content, id).effects) == 0
  {
    hide UpdateTargets;
    if id.Some? { UpdateTargetsFrame(r, TargetsOf(t, id.value), OutputOf(DisplayData, content)); }
    NoErrorWrites(HandleUpdateDisplay(r, t, content, id).effects);
  }

  lemma StreamErrorWrites(r: State, t: Table, name: StreamName, text: Str)
    ensures ErrorWrites(HandleStream(r, t, name, text).effects) == 0
  {
  }

  lemma FeedErrorWrites(r: State, t: Table, m: Msg)
    ensures var f := Feed(r, t, m);
            (r.life.errorSeen ==> f.r.life.errorSeen)
            && (!PosesAsError(m) ==> ErrorWrites(f.effects) <= (if f.r.life.errorSeen && !r.life.errorSeen then 1 else 0))
  {
    FeedLifecycle(r, t, m);
    hide AddOutput, HandleStream, HandleUpdateDisplay, ReplyCore, MaybeComplete, Lifecycle, Batch, TakeDeferredClear;
    assert ErrorWrites([]) == 0;
    match m
    case DisplayMsg(kind, content, id) => AddWritesOnce(r, t, OutputOf(kind, content), id);
    case StreamMsg(name, text) => StreamErrorWrites(r, t, name, text);
    case UpdateDisplay(content, id) => if !PosesAsError(m) { DisplayErrorWrites(r, t, content, id); }
    case ErrorMsg(failure) => AddWritesOnce(r.(life := Blamed(r.life, failure)), t, ErrorOf(failure), None);
    case Reply(status, count, failure) => ReplyErrorWrites(r, t, status, count, failure);
    case Status(idle) => if idle { CompletionWritesNoError(Fed(r.(life := r.life.(idleSeen := true)), t, [])); }
    case ClearOutput(wait) => NoErrorWrites(HandleClear(r, t, wait).effects);
    case _ =>
  }

  lemma CompletionWritesNoError(f: Fed)
    ensures ErrorWrites(MaybeComplete(f).effects) == ErrorWrites(f.effects)
  {
    var life := Completed(f.r.life);
    var tail := if life.completed && !f.r.life.completed then Batch(f.r.area, life) else [];
    ErrorWritesConcat(f.effects, tail);
    NoErrorWrites(tail);
  }

  /**
   * The traceback is stored at most once, whether it came by IOPub, by the reply, or by both: every
   * further error output was itself the content of a display message.
   */
  lemma {:induction false} ErrorStoredOnce(area: Area, budget: Option<nat>, t: Table, ms: seq<Msg>)
    ensures var f := FeedAll(Fresh(area, budget), t, ms);
            ErrorWrites(f.effects) <= (if f.r.life.errorSeen then 1 else 0) + PosedErrors(Fresh(area, budget), t, ms)
  {
    if ms != [] {
      var init, m := ms[..|ms| - 1], ms[|ms| - 1];
      ErrorStoredOnce(area, budget, t, init);
      hide Feed, PosesAsError;
      var before := FeedAll(Fresh(area, budget), t, init);
      FeedErrorWrites(before.r, before.t, m);
      ErrorsAreWrites(Feed(before.r, before.t, m).effects);
      ErrorWritesConcat(before.effects, Feed(before.r, before.t, m).effects);
    }
  }

  /** Two display messages that bring errors: both are stored, and the reducer has seen no error. */
  lemma PosedErrorsRepeat(area: Area, t: Table, o: NbOutput)
    requires o.Error?
    ensures var m := DisplayMsg(DisplayData, Override(o), None);
            var f := FeedAll(Fresh(area, None), t, [m, m]);
            ErrorWrites(f.effects) == 2 && !f.r.life.errorSeen && f.r.out.outputs == [o, o]
  {
    var m := DisplayMsg(DisplayData, Override(o), None);
    var r := Fresh(area, None);
    assert [m, m][..1] == [m] && [m][..0] == [];
    var f := Feed(r, t, m);
    var g := Feed(f.r, f.t, m);
    assert f.effects == [Append(area, o)] && g.effects == [Append(area, o)] && f.r.out.outputs == [] + [o];
    assert FeedAll(r, t, []) == Fed(r, t, []) && [] + f.effects == f.effects;
    assert FeedAll(r, t, [m]) == f;
    assert FeedAll(r, t, [m, m]).effects == f.effects + g.effects;
    assert [Append(area, o)][..0] == [] && ErrorWrites([]) == 0 && ErrorWrites([Append(area, o)]) == 1;
    ErrorWritesConcat(f.effects, g.effects);
  }

  // ---------------------------------------------------------------------------
  // reply and idle in either order
  // ---------------------------------------------------------------------------

  /** Feeding two messages, with their commands concatenated. */
  function FeedTwo(r: State, t: Table, a: Msg, b: Msg): Fed {
    var f := Feed(r, t, a);
    var g := Feed(f.r, f.t, b);
    g.(effects := f.effects + g.effects)
  }

  /** A repeated reply that says nothing new. */
  predicate Redundant(life: Progress, status: ReplyStatus, count: Option<int>) {
    && (life.count.Some? || count.None?)
    && match status
       case ReplyOk => true
       case ReplyAborted => life.status.Aborted?
       case ReplyError => life.status.Failed? && life.errorSeen
  }

  /**
   * An adjacent reply and idle commute exactly unless an earlier reply is still waiting for
   * idle and this second reply says something new.
   */
  lemma ReplyIdleCommute(r: State, t: Table, status: ReplyStatus, count: Option<int>, failure: Failure)
    requires Consistent(r.life)
    ensures var reply := Reply(status, count, failure);
            FeedTwo(r, t, reply, Status(true)) == FeedTwo(r, t, Status(true), reply)
            <==> (r.life.replySeen && !r.life.idleSeen ==> Redundant(r.life, status, count))
  {
    var reply := Reply(status, count, failure);
    if r.life.idleSeen {
      IdleAgain(r, t);
      FeedLifecycle(r, t, reply);
      AdvanceConsistent(r.life, reply);
      var f := Feed(r, t, reply);
      IdleAgain(f.r, f.t);
      assert f.effects + [] == [] + f.effects;
    } else {
      var core := ReplyCore(r, t, status, count, failure);
      ReplyFirst(r, t, status, count, failure);
      if r.life.replySeen {
        IdleFirstAfterReply(r, t, status, count, failure);
        RedundantIffBatchKept(r, t, status, count, failure);
      } else {
        IdleFirst(r, t, status, count, failure);
      }
    }
  }

  lemma IdleAgain(r: State, t: Table)
    requires Consistent(r.life) && r.life.idleSeen
    ensures Feed(r, t, Status(true)) == Fed(r, t, [])
  {
  }

  /** The reply's own handling marks the reply and leaves area and idle flags alone. */
  lemma CoreFrame(r: State, t: Table, status: ReplyStatus, count: Option<int>, failure: Failure)
    requires Consistent(r.life)
    ensures var core := ReplyCore(r, t, status, count, failure);
            && core.r.area == r.area && core.r.life.replySeen && core.r.life.idleSeen == r.life.idleSeen
            && core.r.life.completed == r.life.completed && !core.r.life.status.Running?
            && |core.effects| <= 1 && Lifecycle(core.effects) == []
  {
  }

  lemma AddIgnoresLife(r: State, t: Table, o: NbOutput, id: Option<string>, life: Progress)
    ensures var f := AddOutput(r, t, o, id); AddOutput(r.(life := life), t, o, id) == f.(r := f.r.(life := life))
  {
    hide Size, WithTarget, Without;
  }

  /** The reply is handled the same before and after idle, apart from the two idle flags. */
  lemma IdleCore(r: State, t: Table, status: ReplyStatus, count: Option<int>, failure: Failure, i: bool, c: bool)
    ensures var core := ReplyCore(r, t, status, count, failure);
            ReplyCore(r.(life := r.life.(idleSeen := i, completed := c)), t, status, count, failure)
            == core.(r := core.r.(life := core.r.life.(idleSeen := i, completed := c)))
  {
    hide AddOutput;
    if status.ReplyError? && !r.life.errorSeen {
      var life := Blamed(Replied(r.life, count), failure);
      AddIgnoresLife(r.(life := life), t, ErrorOf(failure), None, life.(idleSeen := i, completed := c));
      AddIgnoresLife(r, t, ErrorOf(failure), None, life);
    }
  }

  /** The state both orders end in. */
  function Ended(core: Fed): State {
    core.r.(life := core.r.life.(idleSeen := true, completed := true))
  }

  lemma ReplyFirst(r: State, t: Table, status: ReplyStatus, count: Option<int>, failure: Failure)
    requires Consistent(r.life) && !r.life.idleSeen
    ensures var core := ReplyCore(r, t, status, count, failure);
            FeedTwo(r, t, Reply(status, count, failure), Status(true))
            == Fed(Ended(core), core.t, core.effects + Batch(r.area, Ended(core).life))
  {
    hide HandleError, Lifecycle;
    var core := ReplyCore(r, t, status, count, failure);
    CoreFrame(r, t, status, count, failure);
    var f := Feed(r, t, Reply(status, count, failure));
    assert f.effects == core.effects + [] == core.effects;
    assert f == core;
    assert Completed(core.r.life.(idleSeen := true)) == Ended(core).life;
    assert Feed(f.r, f.t, Status(true)) == Fed(Ended(core), core.t, [] + Batch(r.area, Ended(core).life));
  }

  lemma IdleFirst(r: State, t: Table, status: ReplyStatus, count: Option<int>, failure: Failure)
    requires Consistent(r.life) && !r.life.idleSeen && !r.life.replySeen
    ensures var core := ReplyCore(r, t, status, count, failure);
            FeedTwo(r, t, Status(true), Reply(status, count, failure))
            == Fed(Ended(core), core.t, core.effects + Batch(r.area, Ended(core).life))
  {
    hide HandleError, Lifecycle;
    CoreFrame(r, t, status, count, failure);
    IdleCore(r, t, status, count, failure, true, false);
    var core := ReplyCore(r, t, status, count, failure);
    var idle := r.(life := r.life.(idleSeen := true));
    assert Feed(r, t, Status(true)) == Fed(idle, t, [] + []);
    assert idle == r.(life := r.life.(idleSeen := true, completed := false));
    var second := core.(r := core.r.(life := core.r.life.(idleSeen := true, completed := false)));
    assert ReplyCore(idle, t, status, count, failure) == second;
    assert Completed(second.r.life) == Ended(core).life;
  }

  lemma IdleFirstAfterReply(r: State, t: Table, status: ReplyStatus, count: Option<int>, failure: Failure)
    requires Consistent(r.life) && !r.life.idleSeen && r.life.replySeen
    ensures var core := ReplyCore(r, t, status, count, failure);
            FeedTwo(r, t, Status(true), Reply(status, count, failure))
            == Fed(Ended(core), core.t, Batch(r.area, r.life) + core.effects)
  {
    hide HandleError, Lifecycle;
    IdleCore(r, t, status, count, failure, true, true);
    var core := ReplyCore(r, t, status, count, failure);
    var idle := r.(life := r.life.(idleSeen := true, completed := true));
    assert Feed(r, t, Status(true)) == Fed(idle, t, [] + Batch(r.area, r.life));
    assert core.effects + [] == core.effects;
  }

  /** Moving the batch across the reply's command is invisible exactly when the reply is redundant. */
  lemma RedundantIffBatchKept(r: State, t: Table, status: ReplyStatus, count: Option<int>, failure: Failure)
    requires Consistent(r.life) && r.life.replySeen
    ensures var core := ReplyCore(r, t, status, count, failure);
            core.effects + Batch(r.area, Ended(core).life) == Batch(r.area, r.life) + core.effects
            <==> Redundant(r.life, status, count)
  {
    hide Size, WithTarget, Without;
    var core := ReplyCore(r, t, status, count, failure);
    CoreFrame(r, t, status, count, failure);
    if status.ReplyError? { ErrorFrame(r.(life := Replied(r.life, count)), t, failure); }
    var a, b := core.effects + Batch(r.area, Ended(core).life), Batch(r.area, r.life) + core.effects;
    if core.effects == [] {
      assert a == Batch(r.area, Ended(core).life) && b == Batch(r.area, r.life);
      assert a == b <==> a[0] == b[0] && a[2] == b[2];
    } else {
      assert core.effects[..0] == [];
      assert a[0] == core.effects[0] && b[0] == SetCount(r.area, r.life.count);
      assert a != b;
    }
  }

  lemma FeedAllTwo(r: State, t: Table, ms: seq<Msg>, a: Msg, b: Msg)
    ensures var f := FeedAll(r, t, ms); var g := FeedTwo(f.r, f.t, a, b);
            FeedAll(r, t, ms + [a, b]) == g.(effects := f.effects + g.effects)
  {
    hide Feed;
    assert (ms + [a, b])[..|ms| + 1] == ms + [a] && (ms + [a])[..|ms|] == ms;
    var f := FeedAll(r, t, ms);
    var one := Feed(f.r, f.t, a);
    assert f.effects + (one.effects + Feed(one.r, one.t, b).effects) == f.effects + one.effects + Feed(one.r, one.t, b).effects;
  }

  lemma SamePrefix(p: seq<Effect>, a: seq<Effect>, b: seq<Effect>)
    ensures p + a == p + b <==> a == b
  {
    assert a == (p + a)[|p|..] && b == (p + b)[|p|..];
  }

  /** After any messages the two orders of reply and idle differ exactly for a second reply, before idle, with news. */
  lemma CommuteInRun(area: Area, budget: Option<nat>, t: Table, ms: seq<Msg>, status: ReplyStatus, count: Option<int>, failure: Failure)
    ensures var reply := Reply(status, count, failure); var r := Fresh(area, budget);
            FeedAll(r, t, ms + [reply, Status(true)]) == FeedAll(r, t, ms + [Status(true), reply])
            <==> (HasReply(ms) && !HasIdle(ms) ==> Redundant(FeedAll(r, t, ms).r.life, status, count))
  {
    hide FeedTwo, Redundant, FeedAll;
    var r := Fresh(area, budget);
    var reply := Reply(status, count, failure);
    var f := FeedAll(r, t, ms);
    CompletesOnce(area, budget, t, ms);
    FeedAllTwo(r, t, ms, reply, Status(true));
    FeedAllTwo(r, t, ms, Status(true), reply);
    ReplyIdleCommute(f.r, f.t, status, count, failure);
    SamePrefix(f.effects, FeedTwo(f.r, f.t, reply, Status(true)).effects, FeedTwo(f.r, f.t, Status(true), reply).effects);
  }

  /** A kernel that first answers well and then reports an abort, before idle. */
  lemma SecondReplyMatters(area: Area, budget: Option<nat>, t: Table, failure: Failure)
    ensures var first := [Reply(ReplyOk, None, failure)]; var second := Reply(ReplyAborted, None, failure); var r := Fresh(area, budget);
            FeedAll(r, t, first + [second, Status(true)]) != FeedAll(r, t, first + [Status(true), second])
  {
    var first := Reply(ReplyOk, None, failure);
    assert [first][..0] == [];
    CommuteInRun(area, budget, t, [first], ReplyAborted, None, failure);
    assert FeedAll(Fresh(area, budget), t, [first]).r.life.status.Ok? by {
      assert FeedAll(Fresh(area, budget), t, []) == Fed(Fresh(area, budget), t, []);
    }
    assert HasReply([first]) && !HasIdle([first]) by { assert !HasIdle([]); }
  }
}
