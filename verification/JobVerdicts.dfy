/** How a cell ended is what the kernel said when it completed. */
module JobVerdicts {
  import opened Options
  import opened Outputs
  import opened JobMachine
  import opened JobRuns
  import opened JobSafety
  import Displays
  import Reducer
  import ReducerRuns
  import Utf16

  /** The kernel has said how the cell ended. */
  predicate Judged(c: Cell) { c.state.Succeeded? || c.state.Failed? || c.state.Aborted? }

  predicate HasCell(r: Registry, j: JobId, i: nat) { j < |r.jobs| && i < |r.jobs[j].cells| }

  /** No cell comes to be judged: one that is has been before, in the same way. */
  ghost predicate Silent(r: Registry, r': Registry) {
    forall j: nat, i: nat | HasCell(r', j, i) && Judged(r'.jobs[j].cells[i]) ::
      HasCell(r, j, i) && r.jobs[j].cells[i].state == r'.jobs[j].cells[i].state
  }

  lemma SilentTrans(a: Registry, b: Registry, c: Registry)
    requires Silent(a, b) && Silent(b, c)
    ensures Silent(a, c)
  {
    hide Judged;
    forall j: nat, i: nat | HasCell(c, j, i) && Judged(c.jobs[j].cells[i])
      ensures HasCell(a, j, i) && a.jobs[j].cells[i].state == c.jobs[j].cells[i].state
    {
      assert HasCell(b, j, i) && b.jobs[j].cells[i].state == c.jobs[j].cells[i].state;
      assert Judged(b.jobs[j].cells[i]) by { JudgedState(b.jobs[j].cells[i], c.jobs[j].cells[i]); }
    }
  }

  lemma JudgedState(c: Cell, d: Cell)
    requires c.state == d.state
    ensures Judged(c) == Judged(d)
  {
  }

  lemma SameJobs(r: Registry, r': Registry)
    requires r'.jobs == r.jobs
    ensures Silent(r, r')
  {
  }

  lemma CloseSilent(r: Registry, j: JobId)
    requires j < |r.jobs|
    ensures Silent(r, Close(r, j))
  {
  }

  lemma StopSilent(r: Registry, j: JobId, from: nat, reason: Reason)
    requires j < |r.jobs|
    ensures Silent(r, Stop(r, j, from, reason))
  {
  }

  lemma CellSilent(r: Registry, j: JobId, i: nat, c: Cell)
    requires HasCell(r, j, i) && (c.state == r.jobs[j].cells[i].state || !Judged(c))
    ensures Silent(r, PutCell(r, j, i, c))
  {
  }

  lemma RefuseSilent(r: Registry, j: JobId, i: nat, reason: Reason)
    requires HasCell(r, j, i)
    ensures Silent(r, Refuse(r, j, i, reason))
  {
    hide Stop, Silent;
    var r1 := PutCell(r, j, i, r.jobs[j].cells[i].(state := NotSent(reason)));
    CellSilent(r, j, i, r.jobs[j].cells[i].(state := NotSent(reason)));
    StopSilent(r1, j, i + 1, StopOnError);
    SilentTrans(r, r1, Refuse(r, j, i, reason));
  }

  lemma SendSilent(r: Registry, j: JobId, i: nat, visit: Visit)
    requires HasCell(r, j, i) && visit.check.Same?
    ensures Silent(r, SendCell(r, j, i, visit))
  {
  }

  lemma OpenSilent(r: Registry, j: JobId, i: nat, visit: Visit)
    requires HasCell(r, j, i) && visit.check.Same?
    ensures Silent(r, OpenAndSend(r, j, i, visit))
  {
    hide Silent, SendCell, Refuse;
    SameJobs(r, r.(pump := JobThrew(j)));
    SendSilent(r, j, i, visit);
    RefuseSilent(r, j, i, CellNotFound);
    if visit.again.Rejected? { RefuseSilent(r, j, i, visit.again.reason); }
  }

  lemma CheckSilent(r: Registry, j: JobId, i: nat, visit: Visit)
    requires HasCell(r, j, i)
    ensures Silent(r, CheckAndSend(r, j, i, visit))
  {
    hide Silent, OpenAndSend, Refuse;
    SameJobs(r, r.(pump := JobThrew(j)));
    var c := r.jobs[j].cells[i];
    if c.acceptanceFailure.Some? { RefuseSilent(r, j, i, c.acceptanceFailure.value); }
    RefuseSilent(r, j, i, CellReplaced);
    match visit.check
    case CheckThrows =>
    case Rejected(reason) => RefuseSilent(r, j, i, reason);
    case Same(text, identity) =>
      var r1 := PutCell(r, j, i, c.(source := text));
      CellSilent(r, j, i, c.(source := text));
      RefuseSilent(r1, j, i, CellReplaced);
      OpenSilent(r1, j, i, visit);
      SilentTrans(r, r1, Refuse(r1, j, i, CellReplaced));
      SilentTrans(r, r1, OpenAndSend(r1, j, i, visit));
  }

  lemma HeadSilent(r: Registry, j: JobId, i: nat, visit: Visit)
    requires j < |r.jobs|
    ensures Silent(r, Head(r, j, i, visit))
  {
    hide Silent, Close, Stop, CheckAndSend;
    CloseSilent(r, j);
    StopSilent(r, j, i, Cancelled);
    StopSilent(r, j, i, KernelChanged);
    if i < |r.jobs[j].cells| { CheckSilent(r, j, i, visit); }
  }

  lemma NextSilent(r: Registry, visit: Visit)
    requires forall k | 0 <= k < |r.queue| :: r.queue[k] < |r.jobs|
    ensures Silent(r, Next(r, visit))
  {
    if r.queue == [] {
      SameJobs(r, Next(r, visit));
    } else {
      var j := r.queue[0];
      var r1 := PutJob(r.(queue := r.queue[1..]), j, r.jobs[j].(state := JobRunning));
      assert Silent(r, r1);
      hide Head, FinalOutcome;
      HeadSilent(r1, j, 0, visit);
      SilentTrans(r, r1, Head(r1, j, 0, visit));
    }
  }

  lemma AfterSilent(r: Registry, j: JobId, i: nat, outcome: Outcome, visit: Visit)
    requires HasCell(r, j, i)
    ensures Silent(r, AfterCell(r, j, i, outcome, visit))
  {
    hide Silent, Stop, Head;
    StopSilent(r, j, i + 1, KernelChanged);
    StopSilent(r, j, i + 1, StopOnError);
    HeadSilent(r, j, i + 1, visit);
  }

  lemma AbandonSilent(r: Registry, j: JobId)
    requires j < |r.jobs|
    ensures Silent(r, Abandon(r, j))
  {
  }

  lemma CancelSilent(r: Registry, j: JobId)
    ensures Silent(r, CancelJob(r, j))
  {
  }

  lemma {:induction false} DropAllSilent(r: Registry, js: seq<JobId>)
    requires forall k | 0 <= k < |js| :: js[k] < |r.jobs|
    ensures Silent(r, DropAll(r, js))
  {
    if js == [] {
      SameJobs(r, r);
    } else {
      DropAllSilent(r, js[..|js| - 1]);
      var d := DropAll(r, js[..|js| - 1]);
      assert Silent(d, DropQueued(d, js[|js| - 1]));
      hide Silent, DropQueued;
      SilentTrans(r, d, DropAll(r, js));
    }
  }

  lemma SubmitSilent(r: Registry, stopOnError: bool, cells: seq<Acceptance>, visit: Visit)
    requires Inv(r)
    ensures InRange(r) && Silent(r, Submitted(r, stopOnError, cells, visit))
  {
    InvInRange(r);
    if r.disposed || cells == [] {
      SameJobs(r, r);
    } else {
      var job := Job(r.epoch, stopOnError, JobQueued, NewCells(cells), false);
      var r1 := r.(jobs := r.jobs + [job], queue := r.queue + [|r.jobs|]);
      assert Silent(r, r1);
      hide Inv, Next, Silent;
      if r.pump.Idle? {
        NextSilent(r1, visit);
        SilentTrans(r, r1, Next(r1, visit));
      }
    }
  }

  // ---------------------------------------------------------------------------
  // one step
  // ---------------------------------------------------------------------------

  /** A turn of the pump that finds cell `i` completed. */
  predicate Settling(r: Registry, e: Event, j: JobId, i: nat) {
    e.Resume? && r.pump == InFlight(j, i, Some(Completed))
  }

  lemma ContinueSilent(r: Registry, v: Verdict, visit: Visit)
    requires Inv(r) && !(r.pump.InFlight? && r.pump.settled == Some(Completed))
    ensures InRange(r) && Silent(r, Continue(r, v, visit))
  {
    InvInRange(r);
    hide Inv, AfterCell, Next, Abandon, Silent;
    match r.pump
    case Idle => SameJobs(r, r);
    case InFlight(j, i, settled) =>
      SameJobs(r, r);
      if settled.Some? {
        var judged := Judge(r.jobs[j].cells[i], settled.value, v);
        CellSilent(r, j, i, judged);
        var r1 := PutCell(r, j, i, judged);
        SameJobs(r1, Continue(r, v, visit));
        SilentTrans(r, r1, Continue(r, v, visit));
      }
    case CellDone(j, i, outcome) => AfterSilent(r, j, i, outcome, visit);
    case JobDone => NextSilent(r, visit);
    case JobThrew(j) =>
      AbandonSilent(r, j);
      assert Abandon(r, j).queue == r.queue && |Abandon(r, j).jobs| == |r.jobs| by { AbandonFrame(r, j); }
      NextSilent(Abandon(r, j), visit);
      SilentTrans(r, Abandon(r, j), Next(Abandon(r, j), visit));
  }

  lemma AbandonFrame(r: Registry, j: JobId)
    requires j < |r.jobs|
    ensures Abandon(r, j).queue == r.queue && |Abandon(r, j).jobs| == |r.jobs|
  {
  }

  lemma DisposeSilent(r: Registry)
    requires Inv(r)
    ensures InRange(r) && Silent(r, Disposed(r))
  {
    InvInRange(r);
    SameJobs(r, r);
    if !r.disposed {
      var s := Settle(r.(disposed := true), Lost).(queue := []);
      hide Inv;
      SameJobs(r, s);
      DropAllSilent(s, r.queue);
      hide Silent, DropAll;
      SilentTrans(r, s, Disposed(r));
    }
  }

  lemma StepSilent(r: Registry, e: Event)
    requires Inv(r) && !(e.Resume? && r.pump.InFlight? && r.pump.settled == Some(Completed))
    ensures InRange(r) && Silent(r, Step(r, e))
  {
    InvInRange(r);
    hide Inv, InRange, Submitted, CancelJob, Disposed, Continue, Silent;
    match e
    case Submit(stopOnError, cells, visit) => SubmitSilent(r, stopOnError, cells, visit);
    case Cancel(j) => CancelSilent(r, j);
    case Dispose => DisposeSilent(r);
    case Resume(v, visit) => ContinueSilent(r, v, visit);
    case _ => SameJobs(r, Step(r, e));
  }

  /** What the kernel's verdict means for the cell. */
  predicate Means(state: CellState, v: Verdict) {
    && (state.Succeeded? <==> v.status != RunStatus.Failed && v.status != RunStatus.Aborted)
    && (state.Failed? <==> v.status == RunStatus.Failed && !v.keyboardInterrupt)
    && (state == CellState.Aborted(true) <==> v.status == RunStatus.Failed && v.keyboardInterrupt)
    && (state == CellState.Aborted(false) <==> v.status == RunStatus.Aborted)
  }

  lemma SettlingStep(r: Registry, e: Event, j: JobId, i: nat)
    requires Inv(r) && Settling(r, e, j, i)
    ensures InRange(r) && HasCell(r, j, i)
    ensures var r' := Step(r, e);
      && HasCell(r', j, i) && Judged(r'.jobs[j].cells[i]) && Means(r'.jobs[j].cells[i].state, e.verdict)
      && forall k: nat, m: nat | HasCell(r', k, m) && (k, m) != (j, i) :: HasCell(r, k, m) && r'.jobs[k].cells[m] == r.jobs[k].cells[m]
  {
    InvInRange(r);
    hide Inv;
  }

  // ---------------------------------------------------------------------------
  // whole runs
  // ---------------------------------------------------------------------------

  /** Event `k` of the run is the one that settles the completed cell. */
  predicate Settles(es: seq<Event>, k: nat, j: JobId, i: nat) {
    k < |es| && es[k].Resume? && Run(es[..k]).pump == InFlight(j, i, Some(Completed))
  }

  /** The end of the cell in the run is what event `k` said. */
  predicate Decides(es: seq<Event>, k: nat, j: JobId, i: nat, state: CellState) {
    Settles(es, k, j, i) && Means(state, es[k].verdict)
  }

  lemma RunNext(es: seq<Event>, k: nat)
    requires k < |es|
    ensures InRange(Run(es[..k])) && Run(es[..k + 1]) == Step(Run(es[..k]), es[k])
  {
    assert es[..k + 1][..k] == es[..k] && es[..k + 1][k] == es[k];
    StepKeeps(Run(es[..k]), es[k]);
  }

  /** A judged cell is the one this step settles, or was judged before. */
  lemma JudgedStep(r: Registry, e: Event, j: JobId, i: nat)
    requires Inv(r)
    ensures InRange(r)
    ensures HasCell(Step(r, e), j, i) && Judged(Step(r, e).jobs[j].cells[i]) ==>
      || (Settling(r, e, j, i) && Means(Step(r, e).jobs[j].cells[i].state, e.verdict))
      || (HasCell(r, j, i) && Judged(r.jobs[j].cells[i]) && r.jobs[j].cells[i].state == Step(r, e).jobs[j].cells[i].state)
  {
    InvInRange(r);
    hide Inv, Step, Means;
    if e.Resume? && r.pump.InFlight? && r.pump.settled == Some(Completed) {
      SettlingStep(r, e, r.pump.job, r.pump.index);
    } else {
      StepSilent(r, e);
    }
  }

  lemma NothingYet(es: seq<Event>)
    ensures Run(es[..0]) == Empty()
  {
    assert es[..0] == [];
  }

  /** Whatever was judged was settled by an event of the run, with a verdict that says so. */
  lemma {:induction false} JudgedWasSettled(es: seq<Event>, n: nat, j: JobId, i: nat)
    requires n <= |es| && HasCell(Run(es[..n]), j, i) && Judged(Run(es[..n]).jobs[j].cells[i])
    ensures exists k: nat :: k < n && Decides(es, k, j, i, Run(es[..n]).jobs[j].cells[i].state)
  {
    hide Run, Step, Inv, Means, Judged;
    NothingYet(es);
    if n > 0 {
      RunNext(es, n - 1);
      var r, e := Run(es[..n - 1]), es[n - 1];
      JudgedStep(r, e, j, i);
      if Settling(r, e, j, i) && Means(Run(es[..n]).jobs[j].cells[i].state, e.verdict) {
        assert Decides(es, n - 1, j, i, Run(es[..n]).jobs[j].cells[i].state);
      } else {
        JudgedWasSettled(es, n - 1, j, i);
      }
    }
  }

  /** What event `k` decided stays. */
  lemma {:induction false} SettledStays(es: seq<Event>, k: nat, n: nat, j: JobId, i: nat)
    requires k < n <= |es| && Settles(es, k, j, i)
    ensures HasCell(Run(es[..n]), j, i) && Judged(Run(es[..n]).jobs[j].cells[i])
    ensures Means(Run(es[..n]).jobs[j].cells[i].state, es[k].verdict)
  {
    hide Run, Step, Inv, Means;
    RunNext(es, n - 1);
    if k == n - 1 {
      SettlingStep(Run(es[..k]), es[k], j, i);
    } else {
      SettledStays(es, k, n - 1, j, i);
      StepMoves(Run(es[..n - 1]), es[n - 1]);
    }
  }

  /**
   * From the events of any run: a cell succeeded exactly when it was settled by its completion and the
   * verdict then was neither an error nor aborted; it failed exactly for an error that is no interrupt,
   * was interrupted exactly for one that is, and aborted by the kernel exactly for that verdict.
   */
  lemma VerdictOfCell(es: seq<Event>, j: JobId, i: nat, state: CellState)
    requires HasCell(Run(es), j, i) && (state.Succeeded? || state.Failed? || state.Aborted?)
    ensures Run(es).jobs[j].cells[i].state == state <==> exists k: nat :: Decides(es, k, j, i, state)
  {
    hide Run;
    assert es[..|es|] == es;
    if Run(es).jobs[j].cells[i].state == state {
      JudgedWasSettled(es, |es|, j, i);
    }
    if k: nat :| Decides(es, k, j, i, state) {
      SettledStays(es, k, |es|, j, i);
    }
  }

  /** The pump does not wait for a cell that is settled already. */
  predicate Fresh(pump: Pump) { pump.InFlight? ==> pump.settled.None? }

  lemma CheckFresh(r: Registry, j: JobId, i: nat, visit: Visit)
    requires HasCell(r, j, i)
    ensures Fresh(CheckAndSend(r, j, i, visit).pump)
  {
    hide FinalOutcome, MarkRest;
  }

  lemma HeadFresh(r: Registry, j: JobId, i: nat, visit: Visit)
    requires j < |r.jobs|
    ensures Fresh(Head(r, j, i, visit).pump)
  {
    hide FinalOutcome, MarkRest, CheckAndSend;
    if i < |r.jobs[j].cells| { CheckFresh(r, j, i, visit); }
  }

  lemma NextFresh(r: Registry, visit: Visit)
    requires forall k | 0 <= k < |r.queue| :: r.queue[k] < |r.jobs|
    ensures Fresh(Next(r, visit).pump)
  {
    hide FinalOutcome, MarkRest, Head;
    if r.queue != [] {
      var j := r.queue[0];
      HeadFresh(PutJob(r.(queue := r.queue[1..]), j, r.jobs[j].(state := JobRunning)), j, 0, visit);
    }
  }

  lemma ContinueFresh(r: Registry, v: Verdict, visit: Visit)
    requires Inv(r) && InRange(r)
    ensures Fresh(Continue(r, v, visit).pump) || Continue(r, v, visit) == r
  {
    hide Inv, FinalOutcome, MarkRest, Head, Next, Abandon;
    match r.pump
    case CellDone(j, i, outcome) => HeadFresh(r, j, i + 1, visit);
    case JobDone => NextFresh(r, visit);
    case JobThrew(j) =>
      AbandonFrame(r, j);
      NextFresh(Abandon(r, j), visit);
    case _ =>
  }

  lemma PumpStep(r: Registry, e: Event, j: JobId, i: nat)
    requires Inv(r) && InRange(r) && Step(r, e).pump == InFlight(j, i, Some(Completed)) && Step(r, e).pump != r.pump
    ensures e.CompletionSeen? && r.pump == InFlight(j, i, None)
  {
    hide Inv, Continue, Next, DropAll, MarkRest;
    match e
    case Submit(stopOnError, cells, visit) =>
      if !r.disposed && cells != [] && r.pump.Idle? {
        var job := Job(r.epoch, stopOnError, JobQueued, NewCells(cells), false);
        NextFresh(r.(jobs := r.jobs + [job], queue := r.queue + [|r.jobs|]), visit);
      }
    case Resume(v, visit) => ContinueFresh(r, v, visit);
    case Dispose => if !r.disposed { DropAllPump(Settle(r.(disposed := true), Lost).(queue := []), r.queue); }
    case _ =>
  }

  lemma {:induction false} DropAllPump(r: Registry, js: seq<JobId>)
    requires forall k | 0 <= k < |js| :: js[k] < |r.jobs|
    ensures DropAll(r, js).pump == r.pump
  {
    if js != [] { DropAllPump(r, js[..|js| - 1]); }
  }

  /** Before it was settled, the kernel's reply and idle arrived while the cell was in flight. */
  lemma {:induction false} SettledByCompletion(es: seq<Event>, n: nat, j: JobId, i: nat)
    requires n <= |es| && Run(es[..n]).pump == InFlight(j, i, Some(Completed))
    ensures exists m: nat :: m < n && es[m].CompletionSeen? && Run(es[..m]).pump == InFlight(j, i, None)
  {
    NothingYet(es);
    hide Run, Step, Inv;
    if n > 0 {
      RunNext(es, n - 1);
      var r := Run(es[..n - 1]);
      if r.pump == InFlight(j, i, Some(Completed)) {
        SettledByCompletion(es, n - 1, j, i);
      } else {
        PumpStep(r, es[n - 1], j, i);
      }
    }
  }

  /** Under stop-on-error nothing after a cell that ended with an error or an abort is ever sent. */
  lemma NothingSentAfterError(es: seq<Event>, k: nat, j: JobId, i: nat, n: nat)
    requires Settles(es, k, j, i) && (es[k].verdict.status == RunStatus.Failed || es[k].verdict.status == RunStatus.Aborted)
    requires HasCell(Run(es), j, i) && Run(es).jobs[j].stopOnError
    requires n < |Run(es).log.sends| && Run(es).log.sends[n].job == j
    ensures Run(es).log.sends[n].index <= i
  {
    hide Run;
    assert es[..|es|] == es;
    SettledStays(es, k, |es|, j, i);
    SendsWereChecked(es, n);
    if Run(es).log.sends[n].index > i {
      SentPrefix(es, j, i, Run(es).log.sends[n].index);
    }
  }

  // ---------------------------------------------------------------------------
  // the verdict of the reducer
  // ---------------------------------------------------------------------------

  /** `KeyboardInterrupt` */
  const KEYBOARD_INTERRUPT: Utf16.Str :=
    [0x4B, 0x65, 0x79, 0x62, 0x6F, 0x61, 0x72, 0x64, 0x49, 0x6E, 0x74, 0x65, 0x72, 0x72, 0x75, 0x70, 0x74]

  /** What the pump reads of the cell's reducer when the cell is settled. */
  function VerdictOf(life: Reducer.Progress): Verdict {
    Verdict(life.status, life.errorName == Some(KEYBOARD_INTERRUPT))
  }

  /**
   * The end of a cell in terms of the messages its reducer was fed: it succeeded exactly when none of them
   * decided otherwise, and so on for the last one that did and the name of the first error.
   */
  lemma CellEndsAsMessagesSay(es: seq<Event>, k: nat, j: JobId, i: nat, area: Area, budget: Option<nat>, t: Displays.Table, ms: seq<Msg>)
    requires HasCell(Run(es), j, i) && Settles(es, k, j, i)
    requires es[k].verdict == VerdictOf(Reducer.FeedAll(Reducer.Fresh(area, budget), t, ms).r.life)
    ensures var state := Run(es).jobs[j].cells[i].state; var last := ReducerRuns.Verdict(ms);
      && (state.Succeeded? <==> last != RunStatus.Failed && last != RunStatus.Aborted)
      && (state.Failed? <==> last == RunStatus.Failed && ReducerRuns.FirstError(ms) != Some(KEYBOARD_INTERRUPT))
      && (state == CellState.Aborted(true) <==> last == RunStatus.Failed && ReducerRuns.FirstError(ms) == Some(KEYBOARD_INTERRUPT))
      && (state == CellState.Aborted(false) <==> last == RunStatus.Aborted)
  {
    hide Run, Reducer.FeedAll;
    assert es[..|es|] == es;
    SettledStays(es, k, |es|, j, i);
    ReducerRuns.OutcomeOfRun(area, budget, t, ms);
  }
}
