/** One execution's reducer: from routed kernel messages to output-area commands. */
module Reducer {
  import opened Options
  import opened Utf16
  import opened JsonText
  import opened Outputs
  import opened Displays

  /** The collected outputs, their size estimate, and a deferred clear. */
  datatype Collected = Collected(outputs: seq<NbOutput>, bytes: int, incomplete: bool, clearPending: bool)

  /** How far the execution has come. */
  datatype Progress = Progress(
    count: Option<int>,
    replySeen: bool,
    idleSeen: bool,
    completed: bool,
    status: RunStatus,
    errorSeen: bool,
    errorName: Option<Str>)

  /** The variables a reducer closes over. `budget` is `None` for an unbounded one. */
  datatype State = State(area: Area, budget: Option<nat>, out: Collected, life: Progress)

  function Fresh(area: Area, budget: Option<nat>): State {
    State(area, budget, Collected([], 0, false, false), Progress(None, false, false, false, Running, false, None))
  }

  /** Reducer, display table and emitted commands after a step. */
  datatype Fed = Fed(r: State, t: Table, effects: seq<Effect>)

  predicate Exceeds(budget: Option<nat>, out: Collected, extra: int) {
    budget.Some? && out.bytes + extra > budget.value
  }

  /** `clear_output(wait=true)` takes effect with the next output. */
  function TakeDeferredClear(r: State, t: Table): (State, Table) {
    if r.out.clearPending then (r.(out := Collected([], 0, r.out.incomplete, false)), Without(t, r.area)) else (r, t)
  }

  function Over(r: State): State { r.(out := r.out.(incomplete := true)) }

  function Push(r: State, o: NbOutput): State {
    r.(out := r.out.(outputs := r.out.outputs + [o], bytes := r.out.bytes + Size(o)))
  }

  function AddOutput(r0: State, t0: Table, o: NbOutput, id: Option<string>): Fed {
    var (r, t) := TakeDeferredClear(r0, t0);
    if Exceeds(r.budget, r.out, Size(o)) then Fed(Over(r), t, if r0.out.clearPending then [Clear(r.area)] else [])
    else
      Fed(Push(r, o),
          if id.Some? then WithTarget(t, id.value, Target(r.area, |r.out.outputs|)) else t,
          if r0.out.clearPending then [Replace(r.area, r.out.outputs + [o])] else [Append(r.area, o)])
  }

  /** The next chunk extends the last output instead of starting one. */
  predicate Merges(out: Collected, name: StreamName) {
    && !out.clearPending && out.outputs != []
    && out.outputs[|out.outputs| - 1].Stream? && out.outputs[|out.outputs| - 1].name == name
  }

  /** The last output with a chunk appended. */
  function Extend(out: Collected, name: StreamName, text: Str): Collected
    requires Merges(out, name)
  {
    var at := |out.outputs| - 1;
    out.(outputs := out.outputs[at := Stream(name, out.outputs[at].text + text, [])], bytes := out.bytes + |QuoteBody(text)|)
  }

  function HandleStream(r: State, t: Table, name: StreamName, text: Str): Fed {
    if Merges(r.out, name) then
      if Exceeds(r.budget, r.out, |QuoteBody(text)|) then Fed(Over(r), t, [])
      else Fed(r.(out := Extend(r.out, name, text)), t, [AppendStream(Target(r.area, |r.out.outputs| - 1), text)])
    else AddOutput(r, t, Stream(name, text, []), None)
  }

  /** The cached output at `index` replaced; the size estimate follows. */
  function Overwrite(out: Collected, index: nat, o: NbOutput): Collected
    requires index < |out.outputs|
  {
    out.(outputs := out.outputs[index := o], bytes := out.bytes + Size(o) - Size(out.outputs[index]))
  }

  /** One target of an update; an own target also changes the cached outputs. */
  function UpdateTarget(r: State, target: Target, o: NbOutput): (State, seq<Effect>) {
    if target.area != r.area then (r, [Update(target, o)])
    else if target.index >= |r.out.outputs| then (r, [])
    else if Exceeds(r.budget, r.out, Size(o) - Size(r.out.outputs[target.index])) then (Over(r), [])
    else (r.(out := Overwrite(r.out, target.index, o)), [Update(target, o)])
  }

  function UpdateTargets(r: State, targets: seq<Target>, o: NbOutput): (State, seq<Effect>) {
    if targets == [] then (r, [])
    else
      var (r1, es) := UpdateTargets(r, targets[..|targets| - 1], o);
      var (r2, last) := UpdateTarget(r1, targets[|targets| - 1], o);
      (r2, es + last)
  }

  function HandleUpdateDisplay(r: State, t: Table, content: Content, id: Option<string>): Fed {
    if id.None? then Fed(r, t, [])
    else
      var (r1, es) := UpdateTargets(r, TargetsOf(t, id.value), OutputOf(DisplayData, content));
      Fed(r1, t, es)
  }

  const DEFAULT_ENAME: Str := [0x45, 0x72, 0x72, 0x6F, 0x72]

  function ErrorOf(f: Failure): NbOutput {
    Error(if f.ename.Some? then f.ename.value else DEFAULT_ENAME,
          if f.evalue.Some? then f.evalue.value else [], f.traceback)
  }

  function Blamed(life: Progress, f: Failure): Progress {
    if life.errorSeen then life.(status := Failed)
    else life.(status := Failed, errorSeen := true, errorName := Some(ErrorOf(f).ename))
  }

  function HandleError(r: State, t: Table, f: Failure): Fed {
    if r.life.errorSeen then Fed(r.(life := Blamed(r.life, f)), t, [])
    else AddOutput(r.(life := Blamed(r.life, f)), t, ErrorOf(f), None)
  }

  function HandleClear(r: State, t: Table, wait: bool): Fed {
    if wait then Fed(r.(out := r.out.(clearPending := true)), t, [])
    else Fed(r.(out := Collected([], 0, false, false)), Without(t, r.area), [Clear(r.area)])
  }

  /** Reply and idle have both been seen for the first time. */
  function Completed(life: Progress): Progress {
    if life.completed || !life.replySeen || !life.idleSeen then life
    else life.(completed := true, status := if life.status.Running? then Ok else life.status)
  }

  function Batch(area: Area, life: Progress): seq<Effect> {
    [SetCount(area, life.count), SetIdle(area), Complete(area, life.status, life.count, life.errorName)]
  }

  /** The closing batch, emitted once reply and idle have both been seen. */
  function MaybeComplete(f: Fed): Fed {
    var life := Completed(f.r.life);
    f.(r := f.r.(life := life),
       effects := f.effects + if life.completed && !f.r.life.completed then Batch(f.r.area, life) else [])
  }

  function Replied(life: Progress, count: Option<int>): Progress {
    life.(replySeen := true, count := if life.count.None? then count else life.count)
  }

  /** The reducer after a reply, before the completion check. */
  function ReplyCore(r0: State, t: Table, status: ReplyStatus, count: Option<int>, f: Failure): Fed {
    var r := r0.(life := Replied(r0.life, count));
    match status
    case ReplyAborted => Fed(r.(life := r.life.(status := Aborted)), t, [])
    case ReplyError => HandleError(r, t, f)
    case ReplyOk => Fed(if r.life.status.Running? then r.(life := r.life.(status := Ok)) else r, t, [])
  }

  function HandleReply(r: State, t: Table, status: ReplyStatus, count: Option<int>, f: Failure): Fed {
    MaybeComplete(ReplyCore(r, t, status, count, f))
  }

  function HandleInput(r: State, count: Option<int>): State {
    if count.Some? then r.(life := r.life.(count := count)) else r
  }

  function HandleStatus(r: State, t: Table, idle: bool): Fed {
    if idle then MaybeComplete(Fed(r.(life := r.life.(idleSeen := true)), t, [])) else Fed(r, t, [])
  }

  /** One message whose `parent_header.msg_id` is this execution's. */
  function Feed(r: State, t: Table, m: Msg): Fed {
    match m
    case ExecuteInput(count) => Fed(HandleInput(r, count), t, [])
    case StreamMsg(name, text) => HandleStream(r, t, name, text)
    case DisplayMsg(kind, content, id) => AddOutput(r, t, OutputOf(kind, content), id)
    case UpdateDisplay(content, id) => HandleUpdateDisplay(r, t, content, id)
    case ErrorMsg(failure) => HandleError(r, t, failure)
    case ClearOutput(wait) => HandleClear(r, t, wait)
    case Status(idle) => HandleStatus(r, t, idle)
    case Reply(status, count, failure) => HandleReply(r, t, status, count, failure)
    case Other => Fed(r, t, [])
  }

  /** A whole message stream, with the commands of every message concatenated. */
  function FeedAll(r: State, t: Table, ms: seq<Msg>): Fed {
    if ms == [] then Fed(r, t, [])
    else
      var before := FeedAll(r, t, ms[..|ms| - 1]);
      var last := Feed(before.r, before.t, ms[|ms| - 1]);
      last.(effects := before.effects + last.effects)
  }

  /** Another execution's `update_display_data` reached this area; there is no budget check. */
  function ReplaceOutput(r: State, index: nat, o: NbOutput): State {
    if index >= |r.out.outputs| then r else r.(out := Overwrite(r.out, index, o))
  }

  // ---------------------------------------------------------------------------
  // the reducer object
  // ---------------------------------------------------------------------------

  class ExecutionReducer {
    const area: Area
    const msgId: string
    const displays: DisplayRegistry
    const budget: Option<nat>
    var outputs: seq<NbOutput>
    var count: Option<int>
    var replySeen: bool
    var idleSeen: bool
    var completed: bool
    var status: RunStatus
    var errorSeen: bool
    var errorName: Option<Str>
    var clearPending: bool
    var incomplete: bool
    var bytes: int

    ghost function View(): State
      reads this
    {
      State(area, budget, Collected(outputs, bytes, incomplete, clearPending),
            Progress(count, replySeen, idleSeen, completed, status, errorSeen, errorName))
    }

    constructor (area: Area, msgId: string, displays: DisplayRegistry, budget: Option<nat>)
      ensures View() == Fresh(area, budget) && this.displays == displays && this.msgId == msgId
    {
      this.area, this.msgId, this.displays, this.budget := area, msgId, displays, budget;
      outputs, count, replySeen, idleSeen, completed := [], None, false, false, false;
      status, errorSeen, errorName, clearPending, incomplete, bytes := Running, false, None, false, false, 0;
    }

    method ConsumeDeferredClear() returns (cleared: bool)
      modifies this, displays
      ensures cleared == old(clearPending)
      ensures (View(), displays.State()) == TakeDeferredClear(old(View()), old(displays.State()))
    {
      cleared := clearPending;
      if clearPending {
        clearPending, outputs, bytes := false, [], 0;
        displays.ForgetGeneration(area);
      }
    }

    method BudgetExceeded(extra: int) returns (over: bool)
      modifies this
      ensures over == Exceeds(budget, old(View()).out, extra)
      ensures View() == if over then Over(old(View())) else old(View())
    {
      over := budget.Some? && bytes + extra > budget.value;
      if over { incomplete := true; }
    }

    method Add(o: NbOutput, id: Option<string>) returns (effects: seq<Effect>)
      modifies this, displays
      ensures Fed(View(), displays.State(), effects) == AddOutput(old(View()), old(displays.State()), o, id)
    {
      hide Size, Sound, Registered, WithTarget, Without;
      var cleared := ConsumeDeferredClear();
      var over := BudgetExceeded(Size(o));
      if over {
        return if cleared then [Clear(area)] else [];
      }
      outputs := outputs + [o];
      bytes := bytes + Size(o);
      if id.Some? {
        displays.Register(id.value, Target(area, |outputs| - 1));
      }
      effects := if cleared then [Replace(area, outputs)] else [Append(area, o)];
    }

    method StreamChunk(name: StreamName, text: Str) returns (effects: seq<Effect>)
      modifies this, displays
      ensures Fed(View(), displays.State(), effects) == HandleStream(old(View()), old(displays.State()), name, text)
    {
      var at := |outputs| - 1;
      if !clearPending && at >= 0 && outputs[at].Stream? && outputs[at].name == name {
        var over := BudgetExceeded(|QuoteBody(text)|);
        if over { return []; }
        outputs := outputs[at := Stream(name, outputs[at].text + text, [])];
        bytes := bytes + |QuoteBody(text)|;
        return [AppendStream(Target(area, at), text)];
      }
      effects := Add(Stream(name, text, []), None);
    }

    method UpdateDisplays(content: Content, id: Option<string>) returns (effects: seq<Effect>)
      modifies this, displays
      ensures Fed(View(), displays.State(), effects)
           == HandleUpdateDisplay(old(View()), old(displays.State()), content, id)
    {
      hide Size, Sound, Registered, WithTarget, Without, TargetsOf;
      effects := [];
      if id.None? { return; }
      var o := OutputOf(DisplayData, content);
      var targets := displays.Resolve(id.value);
      for i := 0 to |targets|
        invariant displays.State() == old(displays.State())
        invariant (View(), effects) == UpdateTargets(old(View()), targets[..i], o)
      {
        var target := targets[i];
        assert targets[..i + 1][..i] == targets[..i] && effects + [] == effects;
        if target.area == area {
          if target.index >= |outputs| { continue; }
          var delta := Size(o) - Size(outputs[target.index]);
          var over := BudgetExceeded(delta);
          if over { continue; }
          outputs := outputs[target.index := o];
          bytes := bytes + delta;
        }
        effects := effects + [Update(target, o)];
      }
      assert targets[..|targets|] == targets;
    }

    method ErrorReported(f: Failure) returns (effects: seq<Effect>)
      modifies this, displays
      ensures Fed(View(), displays.State(), effects) == HandleError(old(View()), old(displays.State()), f)
    {
      status := Failed;
      if errorSeen { return []; }
      errorSeen, errorName := true, Some(ErrorOf(f).ename);
      effects := Add(ErrorOf(f), None);
    }

    method FinishIfDone(before: seq<Effect>) returns (effects: seq<Effect>)
      modifies this
      ensures Fed(View(), displays.State(), effects)
           == MaybeComplete(Fed(old(View()), old(displays.State()), before))
    {
      effects := before;
      if completed || !replySeen || !idleSeen { return; }
      completed := true;
      if status.Running? { status := Ok; }
      effects := effects + [SetCount(area, count), SetIdle(area), Complete(area, status, count, errorName)];
    }

    method ReplyArrived(replyStatus: ReplyStatus, replyCount: Option<int>, f: Failure) returns (effects: seq<Effect>)
      modifies this, displays
      ensures Fed(View(), displays.State(), effects)
           == HandleReply(old(View()), old(displays.State()), replyStatus, replyCount, f)
    {
      replySeen := true;
      if count.None? { count := replyCount; }
      effects := [];
      match replyStatus {
        case ReplyAborted => status := Aborted;
        case ReplyError => effects := ErrorReported(f);
        case ReplyOk => if status.Running? { status := Ok; }
      }
      effects := FinishIfDone(effects);
    }

    method ClearRequested(wait: bool) returns (effects: seq<Effect>)
      modifies this, displays
      ensures Fed(View(), displays.State(), effects) == HandleClear(old(View()), old(displays.State()), wait)
    {
      if wait {
        clearPending := true;
        return [];
      }
      clearPending, outputs, bytes, incomplete := false, [], 0, false;
      displays.ForgetGeneration(area);
      effects := [Clear(area)];
    }

    /** Consume one message; anything whose parent is not this execution is ignored. */
    method FeedMessage(parent: Option<string>, m: Msg) returns (effects: seq<Effect>)
      modifies this, displays
      ensures Fed(View(), displays.State(), effects)
           == if parent == Some(msgId) then Feed(old(View()), old(displays.State()), m)
              else Fed(old(View()), old(displays.State()), [])
    {
      effects := [];
      if parent != Some(msgId) { return; }
      match m {
        case ExecuteInput(n) => if n.Some? { count := n; }
        case StreamMsg(name, text) => effects := StreamChunk(name, text);
        case DisplayMsg(kind, content, id) => effects := Add(OutputOf(kind, content), id);
        case UpdateDisplay(content, id) => effects := UpdateDisplays(content, id);
        case ErrorMsg(f) => effects := ErrorReported(f);
        case ClearOutput(wait) => effects := ClearRequested(wait);
        case Status(idle) =>
          if idle {
            idleSeen := true;
            effects := FinishIfDone([]);
          }
        case Reply(s, n, f) => effects := ReplyArrived(s, n, f);
        case Other =>
      }
    }

    method ReplaceCached(index: nat, o: NbOutput) returns (found: bool)
      modifies this
      ensures found == (index < |old(outputs)|)
      ensures View() == ReplaceOutput(old(View()), index, o)
    {
      found := index < |outputs|;
      if found {
        bytes := bytes + Size(o) - Size(outputs[index]);
        outputs := outputs[index := o];
      }
    }
  }
}
