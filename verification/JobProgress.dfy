/** The job machine gets every job to an end, and what disposal does and does not stop. */
module JobProgress {
  import opened Options
  import opened Outputs
  import opened JobMachine
  import opened JobRuns

  // ---------------------------------------------------------------------------
  // every job ends
  // ---------------------------------------------------------------------------

  function QueuedCells(cells: seq<Cell>): nat {
    if cells == [] then 0
    else QueuedCells(cells[..|cells| - 1]) + if cells[|cells| - 1].state.Queued? then 1 else 0
  }

  function JobWork(job: Job): nat { QueuedCells(job.cells) + if job.state.Terminal? then 0 else 1 }

  function Total(jobs: seq<Job>): nat {
    if jobs == [] then 0 else Total(jobs[..|jobs| - 1]) + JobWork(jobs[|jobs| - 1])
  }

  function Weight(pump: Pump): nat {
    match pump
    case InFlight(_, _, _) => 4
    case CellDone(_, _, _) => 3
    case JobDone => 2
    case JobThrew(_) => 1
    case Idle => 0
  }

  /** How many turns the pump may still take. */
  function Work(r: Registry): nat { 4 * Total(r.jobs) + Weight(r.pump) }

  lemma {:induction false} CellsUpdate(cells: seq<Cell>, i: nat, c: Cell)
    requires i < |cells|
    ensures QueuedCells(cells[i := c]) + (if cells[i].state.Queued? then 1 else 0)
         == QueuedCells(cells) + (if c.state.Queued? then 1 else 0)
  {
    var last := |cells| - 1;
    if i < last {
      assert cells[i := c][..last] == cells[..last][i := c];
      CellsUpdate(cells[..last], i, c);
    } else {
      assert cells[i := c][..last] == cells[..last];
    }
  }

  /** Pointwise fewer queued cells. */
  lemma {:induction false} CellsFewer(cells: seq<Cell>, after: seq<Cell>)
    requires |after| == |cells| && forall k | 0 <= k < |cells| && after[k].state.Queued? :: cells[k].state.Queued?
    ensures QueuedCells(after) <= QueuedCells(cells)
  {
    if cells != [] {
      CellsFewer(cells[..|cells| - 1], after[..|cells| - 1]);
    }
  }

  lemma {:induction false} TotalUpdate(jobs: seq<Job>, j: nat, job: Job)
    requires j < |jobs|
    ensures Total(jobs[j := job]) + JobWork(jobs[j]) == Total(jobs) + JobWork(job)
  {
    var last := |jobs| - 1;
    if j < last {
      assert jobs[j := job][..last] == jobs[..last][j := job];
      TotalUpdate(jobs[..last], j, job);
    } else {
      assert jobs[j := job][..last] == jobs[..last];
    }
  }

  lemma CloseWork(r: Registry, j: JobId)
    requires j < |r.jobs| && r.jobs[j].state.JobRunning?
    ensures Total(Close(r, j).jobs) == Total(r.jobs) - 1 && Close(r, j).pump == JobDone
  {
    hide FinalOutcome;
    TotalUpdate(r.jobs, j, Close(r, j).jobs[j]);
  }

  lemma StopWork(r: Registry, j: JobId, from: nat, reason: Reason)
    requires j < |r.jobs| && r.jobs[j].state.JobRunning?
    ensures Total(Stop(r, j, from, reason).jobs) <= Total(r.jobs) - 1 && Stop(r, j, from, reason).pump == JobDone
  {
    hide Close;
    var cells := MarkRest(r.jobs[j].cells, from, reason);
    CellsFewer(r.jobs[j].cells, cells);
    TotalUpdate(r.jobs, j, r.jobs[j].(cells := cells));
    CloseWork(PutCells(r, j, cells), j);
  }

  lemma CellWork(r: Registry, j: JobId, i: nat, c: Cell)
    requires j < |r.jobs| && i < |r.jobs[j].cells| && (c.state.Queued? ==> r.jobs[j].cells[i].state.Queued?)
    ensures Total(PutCell(r, j, i, c).jobs) + (if r.jobs[j].cells[i].state.Queued? && !c.state.Queued? then 1 else 0)
         == Total(r.jobs)
  {
    CellsUpdate(r.jobs[j].cells, i, c);
    TotalUpdate(r.jobs, j, PutCell(r, j, i, c).jobs[j]);
  }

  lemma RefuseWork(r: Registry, j: JobId, i: nat, reason: Reason)
    requires j < |r.jobs| && r.jobs[j].state.JobRunning? && i < |r.jobs[j].cells|
    ensures Total(Refuse(r, j, i, reason).jobs) <= Total(r.jobs) - 1 && Refuse(r, j, i, reason).pump == JobDone
  {
    hide Stop;
    CellWork(r, j, i, r.jobs[j].cells[i].(state := NotSent(reason)));
    StopWork(PutCell(r, j, i, r.jobs[j].cells[i].(state := NotSent(reason))), j, i + 1, StopOnError);
  }

  /** A turn ends the job, uses up a cell, or leaves a job whose callbacks threw. */
  predicate Spends(total: nat, r': Registry) {
    Total(r'.jobs) < total || (Total(r'.jobs) == total && r'.pump.JobThrew?)
  }

  lemma SendWork(r: Registry, j: JobId, i: nat, visit: Visit)
    requires j < |r.jobs| && i < |r.jobs[j].cells| && r.jobs[j].cells[i].state.Queued? && visit.check.Same?
    ensures Total(SendCell(r, j, i, visit).jobs) == Total(r.jobs) - 1
  {
    var r' := SendCell(r, j, i, visit);
    CellWork(r, j, i, r'.jobs[j].cells[i]);
    assert r'.jobs == PutCell(r, j, i, r'.jobs[j].cells[i]).jobs;
  }

  lemma OpenWork(r: Registry, j: JobId, i: nat, visit: Visit)
    requires j < |r.jobs| && r.jobs[j].state.JobRunning? && i < |r.jobs[j].cells| && r.jobs[j].cells[i].state.Queued?
    requires visit.check.Same?
    ensures Spends(Total(r.jobs), OpenAndSend(r, j, i, visit))
  {
    hide SendCell, Refuse;
    SendWork(r, j, i, visit);
    RefuseWork(r, j, i, CellNotFound);
    if visit.again.Rejected? {
      RefuseWork(r, j, i, visit.again.reason);
    }
  }

  lemma CheckWork(r: Registry, j: JobId, i: nat, visit: Visit)
    requires j < |r.jobs| && r.jobs[j].state.JobRunning? && i < |r.jobs[j].cells| && r.jobs[j].cells[i].state.Queued?
    ensures Spends(Total(r.jobs), CheckAndSend(r, j, i, visit))
  {
    hide Refuse, OpenAndSend;
    var c := r.jobs[j].cells[i];
    if c.identity.None? && c.acceptanceFailure.Some? {
      RefuseWork(r, j, i, c.acceptanceFailure.value);
    } else {
      match visit.check
      case CheckThrows =>
      case Rejected(reason) => RefuseWork(r, j, i, reason);
      case Same(text, identity) =>
        if c.identity.None? {
          RefuseWork(r, j, i, CellReplaced);
        } else {
          var r1 := PutCell(r, j, i, c.(source := text));
          CellWork(r, j, i, c.(source := text));
          if c.identity != Some(identity) {
            RefuseWork(r1, j, i, CellReplaced);
          } else {
            OpenWork(r1, j, i, visit);
          }
        }
    }
  }

  lemma HeadWork(r: Registry, j: JobId, i: nat, visit: Visit)
    requires j < |r.jobs| && r.jobs[j].state.JobRunning? && ReadyAt(r.jobs[j], i)
    ensures Spends(Total(r.jobs), Head(r, j, i, visit))
  {
    hide Close, Stop, CheckAndSend;
    if i >= |r.jobs[j].cells| {
      CloseWork(r, j);
    } else if r.jobs[j].cancelRequested {
      StopWork(r, j, i, Cancelled);
    } else if r.jobs[j].epoch != r.epoch {
      StopWork(r, j, i, KernelChanged);
    } else {
      CheckWork(r, j, i, visit);
    }
  }

  lemma NextWork(r: Registry, visit: Visit)
    requires Base(r) && NoneRunning(r)
    ensures forall k | 0 <= k < |r.queue| :: r.queue[k] < |r.jobs|
    ensures (Next(r, visit).pump.Idle? && Next(r, visit).jobs == r.jobs) || Spends(Total(r.jobs), Next(r, visit))
  {
    assert forall k | 0 <= k < |r.queue| :: r.queue[k] < |r.jobs|;
    if r.queue != [] {
      TakeKeeps(r);
      var j := r.queue[0];
      assert r.jobs[j].state.JobQueued?;
      hide Base, Head;
      var job := r.jobs[j].(state := JobRunning);
      TotalUpdate(r.jobs, j, job);
      HeadWork(PutJob(r.(queue := r.queue[1..]), j, job), j, 0, visit);
    }
  }

  lemma AbandonWork(r: Registry, j: JobId)
    requires j < |r.jobs| && r.jobs[j].state.JobRunning?
    ensures Total(Abandon(r, j).jobs) <= Total(r.jobs) - 1
  {
    hide FinalOutcome;
    CellsFewer(r.jobs[j].cells, GiveUp(r.jobs[j].cells));
    TotalUpdate(r.jobs, j, Abandon(r, j).jobs[j]);
    assert Abandon(r, j).jobs == r.jobs[j := Abandon(r, j).jobs[j]];
  }

  lemma AfterWork(r: Registry, j: JobId, i: nat, outcome: Outcome, visit: Visit)
    requires Inv(r) && r.pump == CellDone(j, i, outcome)
    ensures Spends(Total(r.jobs), AfterCell(r, j, i, outcome, visit))
  {
    hide Base, Stop, Head;
    var state := r.jobs[j].cells[i].state;
    if outcome.Lost? {
      StopWork(r, j, i + 1, KernelChanged);
    } else if r.jobs[j].stopOnError && (state.Failed? || state.Aborted?) {
      StopWork(r, j, i + 1, StopOnError);
    } else {
      HeadWork(r, j, i + 1, visit);
    }
  }

  /** Unless it waits for the kernel, every turn of the pump uses up work, also when a callback throws. */
  lemma TurnSpendsWork(r: Registry, v: Verdict, visit: Visit)
    requires Inv(r) && !r.pump.Idle? && !(r.pump.InFlight? && r.pump.settled.None?)
    ensures InRange(r) && Work(Continue(r, v, visit)) < Work(r)
  {
    InvInRange(r);
    match r.pump
    case Idle =>
    case InFlight(j, i, settled) =>
      CellWork(r, j, i, Judge(r.jobs[j].cells[i], settled.value, v)) by { hide Base; }
    case CellDone(j, i, outcome) => AfterWork(r, j, i, outcome, visit);
    case JobDone => NextWork(r, visit);
    case JobThrew(j) =>
      AbandonKeeps(r, j);
      AbandonWork(r, j);
      NextWork(Abandon(r, j), visit);
  }

  lemma {:induction false} NoWork(jobs: seq<Job>)
    requires forall j | 0 <= j < |jobs| :: jobs[j].state.Terminal? && AllEnded(jobs[j].cells)
    ensures Total(jobs) == 0
  {
    if jobs != [] {
      NoWork(jobs[..|jobs| - 1]);
      NoQueued(jobs[|jobs| - 1].cells);
    }
  }

  lemma {:induction false} NoQueued(cells: seq<Cell>)
    requires AllEnded(cells)
    ensures QueuedCells(cells) == 0
  {
    if cells != [] {
      assert Ended(cells[|cells| - 1]);
      NoQueued(cells[..|cells| - 1]);
    }
  }

  lemma IdleMeansDone(r: Registry)
    requires Inv(r) && r.pump.Idle?
    ensures r.queue == [] && (forall j | 0 <= j < |r.jobs| :: r.jobs[j].state.Terminal?) && Work(r) == 0
  {
    hide LogOk, FinishesOk, QueueOk, Shape, AllEnded;
    forall j | 0 <= j < |r.jobs| ensures r.jobs[j].state.Terminal? && AllEnded(r.jobs[j].cells) {
      assert StateOk(r, j);
    }
    NoWork(r.jobs);
  }

  lemma CancelWork(r: Registry, j: JobId)
    requires Inv(r)
    ensures Work(CancelJob(r, j)) <= Work(r)
  {
    if j < |r.jobs| {
      hide Inv, FinalOutcome;
      CellsFewer(r.jobs[j].cells, MarkRest(r.jobs[j].cells, 0, Cancelled));
      TotalUpdate(r.jobs, j, CancelJob(r, j).jobs[j]);
      assert CancelJob(r, j).jobs == r.jobs[j := CancelJob(r, j).jobs[j]];
    }
  }

  lemma {:induction false} DropWork(r: Registry, js: seq<JobId>)
    requires forall k | 0 <= k < |js| :: js[k] < |r.jobs|
    ensures Total(DropAll(r, js).jobs) <= Total(r.jobs) && DropAll(r, js).pump == r.pump
  {
    if js != [] {
      DropWork(r, js[..|js| - 1]);
      var before, j := DropAll(r, js[..|js| - 1]), js[|js| - 1];
      hide FinalOutcome, DropAll;
      CellsFewer(before.jobs[j].cells, MarkRest(before.jobs[j].cells, 0, Cancelled));
      TotalUpdate(before.jobs, j, DropQueued(before, j).jobs[j]);
      assert DropQueued(before, j).jobs == before.jobs[j := DropQueued(before, j).jobs[j]];
    }
  }

  lemma {:induction false} AllQueued(cells: seq<Cell>)
    ensures QueuedCells(cells) <= |cells|
  {
    if cells != [] {
      AllQueued(cells[..|cells| - 1]);
    }
  }

  /** What a submission adds at most. */
  function AddedBy(e: Event): nat { if e.Submit? then 4 * (|e.cells| + 1) + 1 else 0 }

  lemma AppendedWork(jobs: seq<Job>, job: Job)
    requires job.state.JobQueued?
    ensures Total(jobs + [job]) <= Total(jobs) + |job.cells| + 1
  {
    AllQueued(job.cells);
    assert (jobs + [job])[..|jobs|] == jobs;
  }

  lemma SubmitWork(r: Registry, e: Event)
    requires Inv(r) && InRange(r) && e.Submit?
    ensures Work(Step(r, e)) <= Work(r) + AddedBy(e)
  {
    if !r.disposed && e.cells != [] {
      var job := Job(r.epoch, e.stopOnError, JobQueued, NewCells(e.cells), false);
      var r1 := r.(jobs := r.jobs + [job], queue := r.queue + [|r.jobs|]);
      AcceptKeeps(r, job);
      hide Inv, PumpOk, Base, Next, Total, InRange;
      AppendedWork(r.jobs, job);
      if r.pump.Idle? {
        NextWork(r1, e.visit);
      }
    }
  }

  /** A turn of the pump that finds something to do. */
  predicate Turns(r: Registry, e: Event) {
    e.Resume? && !r.pump.Idle? && !(r.pump.InFlight? && r.pump.settled.None?)
  }

  lemma StepWork(r: Registry, e: Event)
    requires Inv(r)
    ensures InRange(r) && Work(Step(r, e)) + (if Turns(r, e) then 1 else 0) <= Work(r) + AddedBy(e)
  {
    InvInRange(r);
    match e
    case Submit(_, _, _) => SubmitWork(r, e);
    case Cancel(j) => CancelWork(r, j);
    case Dispose => if !r.disposed { DropWork(Settle(r.(disposed := true), Lost).(queue := []), r.queue); }
    case Resume(v, visit) => if Turns(r, e) { TurnSpendsWork(r, v, visit); }
    case _ =>
  }

  function TurnsTaken(r: Registry, es: seq<Event>): nat
    requires Inv(r)
  {
    if es == [] then 0
    else
      TurnsTaken(r, es[..|es| - 1]) + if Turns(From(r, es[..|es| - 1]), es[|es| - 1]) then 1 else 0
  }

  function Added(es: seq<Event>): nat { if es == [] then 0 else Added(es[..|es| - 1]) + AddedBy(es[|es| - 1]) }

  /** However cancellations, kernel events, disposal and submissions fall between them, the turns are bounded. */
  lemma {:induction false} TurnsBounded(r: Registry, es: seq<Event>)
    requires Inv(r)
    ensures TurnsTaken(r, es) + Work(From(r, es)) <= Work(r) + Added(es)
  {
    if es != [] {
      TurnsBounded(r, es[..|es| - 1]);
      StepWork(From(r, es[..|es| - 1]), es[|es| - 1]);
      hide Inv, Work, Step, Turns, AddedBy;
    }
  }

  lemma {:induction false} UnfinishedWork(jobs: seq<Job>)
    requires Total(jobs) == 0
    ensures forall j | 0 <= j < |jobs| :: jobs[j].state.Terminal?
  {
    if jobs != [] {
      UnfinishedWork(jobs[..|jobs| - 1]);
    }
  }

  /**
   * A run in which the pump has taken all the turns there can be has finished every accepted job;
   * while one is unfinished, the pump has a turn to take, once the cell in flight is settled.
   */
  lemma EveryJobEnds(r: Registry, es: seq<Event>)
    requires Inv(r)
    ensures var end := From(r, es);
      && (TurnsTaken(r, es) >= Work(r) + Added(es) ==>
            end.pump.Idle? && end.queue == [] && forall j | 0 <= j < |end.jobs| :: end.jobs[j].state.Terminal?)
      && ((exists j :: 0 <= j < |end.jobs| && !end.jobs[j].state.Terminal?) ==>
            forall outcome, v, visit :: Turns(Settle(end, outcome), Resume(v, visit)))
  {
    var end := From(r, es);
    TurnsBounded(r, es);
    if end.pump.Idle? { IdleMeansDone(end); }
    if TurnsTaken(r, es) >= Work(r) + Added(es) { UnfinishedWork(end.jobs); NothingWaits(end); }
  }

  lemma NothingWaits(r: Registry)
    requires Inv(r) && Work(r) == 0
    ensures r.pump.Idle? && r.queue == []
  {
  }

  // ---------------------------------------------------------------------------
  // what disposal stops
  // ---------------------------------------------------------------------------

  /** The loop over this job's cells would ask to send cell `i`. */
  predicate WouldSend(r: Registry, j: JobId, i: nat)
    requires j < |r.jobs|
  {
    var job := r.jobs[j];
    i < |job.cells| && !job.cancelRequested && job.epoch == r.epoch && job.cells[i].identity.Some?
  }

  /** A job is running, its current cell is not known to be lost, and another cell would follow. */
  predicate CarriesOn(r: Registry)
    requires InRange(r)
  {
    match r.pump
    case InFlight(j, i, settled) => settled != Some(Lost) && WouldSend(r, j, i + 1)
    case CellDone(j, i, outcome) =>
      var state := r.jobs[j].cells[i].state;
      outcome.Completed? && WouldSend(r, j, i + 1) && !(r.jobs[j].stopOnError && (state.Failed? || state.Aborted?))
    case _ => false
  }

  predicate Quiet(r: Registry, r': Registry)
  {
    r'.log.sends == r.log.sends && r'.disposed && InRange(r') && !CarriesOn(r')
  }

  lemma QuietThrew(r: Registry, j: JobId, visit: Visit)
    requires InRange(r) && r.disposed && r.queue == [] && r.pump == JobThrew(j)
    ensures Quiet(r, Next(Abandon(r, j), visit))
  {
  }

  lemma QuietAfter(r: Registry, j: JobId, i: nat, outcome: Outcome, visit: Visit)
    requires Inv(r) && r.disposed && r.pump == CellDone(j, i, outcome) && InRange(r) && !CarriesOn(r)
    ensures Quiet(r, AfterCell(r, j, i, outcome, visit))
  {
  }

  lemma QuietContinue(r: Registry, v: Verdict, visit: Visit)
    requires Inv(r) && r.disposed && InRange(r) && !CarriesOn(r)
    ensures Quiet(r, Continue(r, v, visit))
  {
    ContinueKeeps(r, v, visit);
    InvInRange(Continue(r, v, visit));
    assert r.queue == [];
    hide Inv, Base, AfterCell, Abandon;
    match r.pump
    case CellDone(j, i, outcome) => QuietAfter(r, j, i, outcome, visit);
    case JobThrew(j) => QuietThrew(r, j, visit);
    case _ =>
  }

  lemma QuietStep(r: Registry, e: Event)
    requires Inv(r) && r.disposed && InRange(r) && !CarriesOn(r)
    ensures Quiet(r, Step(r, e))
  {
    StepKeeps(r, e);
    InvInRange(Step(r, e));
    hide Inv, Base, MarkRest, FinalOutcome, Continue;
    match e
    case Resume(v, visit) => QuietContinue(r, v, visit);
    case _ =>
  }

  lemma {:induction false} NothingMoreSent(r: Registry, es: seq<Event>)
    requires Inv(r) && r.disposed && InRange(r) && !CarriesOn(r)
    ensures Quiet(r, From(r, es))
  {
    if es != [] {
      NothingMoreSent(r, es[..|es| - 1]);
      QuietStep(From(r, es[..|es| - 1]), es[|es| - 1]);
      hide Step, CarriesOn;
    }
  }

  /** The events that let a job carry on: the cell completes, the next one passes its checks. */
  function CarryOn(r: Registry): seq<Event>
    requires InRange(r) && CarriesOn(r)
  {
    var c := r.jobs[r.pump.job].cells[r.pump.index + 1];
    var go := Resume(Verdict(RunStatus.Ok, false), Visit(Same(c.source, c.identity.value), Opened, CheckThrows, Delivered));
    if r.pump.CellDone? then [go] else [CompletionSeen, go, go]
  }

  /** The next cell goes out. */
  lemma NextGoesOut(r: Registry, v: Verdict, visit: Visit)
    requires InRange(r) && r.pump.CellDone? && CarriesOn(r)
    requires visit.check.Same? && visit.sink.Opened? && visit.send.Delivered?
    requires r.jobs[r.pump.job].cells[r.pump.index + 1].identity == Some(visit.check.identity)
    ensures |Continue(r, v, visit).log.sends| == |r.log.sends| + 1
  {
  }

  /** The completed cell is judged, and the loop is about to go on. */
  lemma JudgedOn(r: Registry, visit: Visit)
    requires InRange(r) && r.pump.InFlight? && r.pump.settled == Some(Completed) && CarriesOn(r)
    ensures var r' := Continue(r, Verdict(RunStatus.Ok, false), visit);
      && InRange(r') && r'.pump == CellDone(r.pump.job, r.pump.index, Completed) && CarriesOn(r')
      && r'.log == r.log
      && r'.jobs[r.pump.job].cells[r.pump.index + 1] == r.jobs[r.pump.job].cells[r.pump.index + 1]
  {
  }

  lemma CarriedOn(r: Registry)
    requires Inv(r) && InRange(r) && CarriesOn(r)
    ensures |From(r, CarryOn(r)).log.sends| == |r.log.sends| + 1
  {
    hide Inv, Continue;

    var es := CarryOn(r);
    if r.pump.CellDone? {
      OneStep(r, es[0]);
      NextGoesOut(r, es[0].verdict, es[0].visit);
    } else {
      ThreeSteps(r, es[0], es[1], es[2]);
      var a := Settle(r, Completed);
      assert InRange(a) && CarriesOn(a) && a.pump.InFlight? && a.pump.settled == Some(Completed) by {
        assert r.pump.settled.Some? ==> r.pump.settled.value.Completed?;
      }
      JudgedOn(a, es[1].visit);
      NextGoesOut(Continue(a, es[1].verdict, es[1].visit), es[2].verdict, es[2].visit);
    }
  }

  lemma ThreeSteps(r: Registry, e: Event, f: Event, g: Event)
    requires Inv(r)
    ensures InRange(r) && InRange(Step(r, e)) && InRange(Step(Step(r, e), f))
    ensures From(r, [e, f, g]) == Step(Step(Step(r, e), f), g)
  {
    hide Inv, Step, InRange, From;
    OneStep(r, e);
    OneMore(r, [e], f);
    assert [e, f] == [e] + [f];
    OneMore(r, [e, f], g);
    assert [e, f, g] == [e, f] + [g];
  }

  lemma OneMore(r: Registry, es: seq<Event>, e: Event)
    requires Inv(r)
    ensures InRange(From(r, es)) && From(r, es + [e]) == Step(From(r, es), e)
  {
  }

  lemma OneStep(r: Registry, e: Event)
    requires Inv(r)
    ensures InRange(r) && From(r, [e]) == Step(r, e)
  {
  }

  /**
   * Disposal does not stop a job whose cell in flight has completed: what was not sent may
   * still be. Exactly then, and never otherwise, is anything sent after it.
   */
  lemma SentAfterDisposal(r: Registry)
    requires Inv(r) && r.disposed
    ensures InRange(r)
    ensures CarriesOn(r) <==> exists es :: From(r, es).log.sends != r.log.sends
  {
    InvInRange(r);
    if CarriesOn(r) {
      CarriedOn(r);
      assert From(r, CarryOn(r)).log.sends != r.log.sends;
    } else {
      forall es ensures From(r, es).log.sends == r.log.sends {
        NothingMoreSent(r, es);
      }
    }
  }

  /** Two cells; the first is sent and completes, and the registry is disposed before the pump runs on. */
  function DisposedMidway(): seq<Event> {
    var go := Visit(Same("", 0), Opened, CheckThrows, Delivered);
    [Submit(false, [Identified(0), Identified(0)], go), CompletionSeen, Dispose]
  }

  lemma DisposalCarriesOn()
    ensures var r := Run(DisposedMidway()); r.disposed && InRange(r) && CarriesOn(r)
    ensures exists es :: From(Run(DisposedMidway()), es).log.sends != Run(DisposedMidway()).log.sends
  {
    EmptyOk();
    assert DisposedMidway() == [DisposedMidway()[0], CompletionSeen, Dispose];
    hide Inv, Step, CarriesOn, InRange, From, Empty, DisposedMidway;
    ThreeSteps(Empty(), DisposedMidway()[0], CompletionSeen, Dispose);
    var a := Step(Empty(), DisposedMidway()[0]);
    SentFirst(a);
    DisposedAfter(a);
    SentAfterDisposal(Run(DisposedMidway()));
  }

  lemma DisposedAfter(a: Registry)
    requires a.pump == InFlight(0, 0, None) && a.queue == [] && !a.disposed && |a.jobs| == 1 && WouldSend(a, 0, 1)
    ensures InRange(a) && InRange(Step(a, CompletionSeen))
    ensures var r := Step(Step(a, CompletionSeen), Dispose); r.disposed && InRange(r) && CarriesOn(r)
  {
    var b := Step(a, CompletionSeen);
    assert Disposed(b) == DropAll(b.(disposed := true, queue := []), []);
  }

  lemma EmptyOk()
    ensures Inv(Empty())
  {
  }

  lemma SentFirst(a: Registry)
    requires a == Step(Empty(), DisposedMidway()[0])
    ensures a.pump == InFlight(0, 0, None) && a.queue == [] && !a.disposed && |a.jobs| == 1 && WouldSend(a, 0, 1)
  {
    var e := DisposedMidway()[0];
    var job := Job(0, false, JobQueued, NewCells(e.cells), false);
    var r1 := Empty().(jobs := [job], queue := [0]);
    assert Empty().jobs + [job] == [job] && Empty().queue + [|Empty().jobs|] == [0];
    assert a == Next(r1, e.visit);
    assert r1.queue[1..] == [];
    var r2 := PutJob(r1.(queue := []), 0, job.(state := JobRunning));
    assert a == Head(r2, 0, 0, e.visit);
  }

  /** A cell sent after disposal can only be settled by the kernel's own answer. */
  lemma OtherEventsWait(r: Registry, e: Event)
    requires InRange(r) && r.disposed && r.pump.InFlight? && r.pump.settled.None? && e != CompletionSeen
    ensures Step(r, e).pump == r.pump && Step(r, e).disposed
  {
  }

  lemma {:induction false} OnlyCompletionSettles(r: Registry, es: seq<Event>)
    requires Inv(r) && r.disposed && r.pump.InFlight? && r.pump.settled.None? && CompletionSeen !in es
    ensures From(r, es).pump == r.pump && From(r, es).disposed
  {
    if es != [] {
      var before := es[..|es| - 1];
      assert es == before + [es[|es| - 1]];
      OnlyCompletionSettles(r, before);
      InvInRange(From(r, before));
      hide Inv, Step, InRange;
      OtherEventsWait(From(r, before), es[|es| - 1]);
    }
  }
}
