/** The execution registry as it updates its jobs in place, step by step against the job machine. */
module ExecutionJobs {
  import opened Options
  import opened Outputs
  import opened JobMachine
  import opened JobRuns

  /** Does any cell satisfy the condition? */
  method AnyCell(cells: seq<Cell>, holds: CellState -> bool) returns (found: bool)
    ensures found <==> exists k :: 0 <= k < |cells| && holds(cells[k].state)
  {
    for i := 0 to |cells|
      invariant forall k | 0 <= k < i :: !holds(cells[k].state)
    {
      if holds(cells[i].state) { return true; }
    }
    found := false;
  }

  method FinalState(cells: seq<Cell>) returns (outcome: JobOutcome)
    ensures outcome == FinalOutcome(cells)
  {
    var unknown := AnyCell(cells, (s: CellState) => s.Unknown?);
    if unknown { return JobUnknown; }
    var interrupted := AnyCell(cells, (s: CellState) => s == CellState.Aborted(true));
    if interrupted { return JobInterrupted; }
    var failed := AnyCell(cells, (s: CellState) => s.Failed? || s.Aborted?);
    if failed { return JobFailed; }
    var cancelled := AnyCell(cells, (s: CellState) => s == NotSent(Cancelled));
    if cancelled { return JobCancelled; }
    var skipped := AnyCell(cells, (s: CellState) => s.NotSent?);
    outcome := if skipped then JobFailed else JobSucceeded;
  }

  method SkipRest(cells: seq<Cell>, from: nat, reason: Reason) returns (r: seq<Cell>)
    requires from <= |cells|
    ensures r == MarkRest(cells, from, reason)
  {
    r := cells;
    for i := from to |cells|
      invariant |r| == |cells|
      invariant forall k | 0 <= k < i :: r[k] == MarkRest(cells, from, reason)[k]
      invariant forall k | i <= k < |cells| :: r[k] == cells[k]
    {
      if r[i].state.Queued? {
        r := r[i := r[i].(state := NotSent(reason))];
      }
    }
  }

  class ExecutionRegistry {
    var jobs: seq<Job>
    var queue: seq<JobId>
    var epoch: nat
    var disposed: bool
    var pump: Pump
    var log: Log

    ghost function View(): Registry
      reads this
    {
      Registry(jobs, queue, epoch, disposed, pump, log)
    }

    constructor ()
      ensures View() == Empty()
    {
      jobs, queue, epoch, disposed, pump, log := [], [], 0, false, Idle, Log([], []);
    }

    method Finish(j: JobId, outcome: JobOutcome)
      requires j < |jobs|
      modifies this`jobs, this`log
      ensures View() == Finished(old(View()), j, outcome)
    {
      jobs := jobs[j := jobs[j].(state := Terminal(outcome))];
      log := log.(finishes := log.finishes + [JobMachine.Finish(j, outcome)]);
    }

    method MarkJob(j: JobId, from: nat, reason: Reason)
      requires j < |jobs| && from <= |jobs[j].cells|
      modifies this`jobs
      ensures View() == PutCells(old(View()), j, MarkRest(old(jobs)[j].cells, from, reason))
    {
      var cells := SkipRest(jobs[j].cells, from, reason);
      jobs := jobs[j := jobs[j].(cells := cells)];
    }

    method EndJob(j: JobId)
      requires j < |jobs|
      modifies this`jobs, this`log, this`pump
      ensures View() == Close(old(View()), j)
    {
      if jobs[j].state.JobRunning? {
        var outcome := FinalState(jobs[j].cells);
        Finish(j, outcome);
      }
      pump := JobDone;
    }

    method StopJob(j: JobId, from: nat, reason: Reason)
      requires j < |jobs| && from <= |jobs[j].cells|
      modifies this`jobs, this`log, this`pump
      ensures View() == Stop(old(View()), j, from, reason)
    {
      MarkJob(j, from, reason);
      EndJob(j);
    }

    method SetCell(j: JobId, i: nat, c: Cell)
      requires j < |jobs| && i < |jobs[j].cells|
      modifies this`jobs
      ensures View() == PutCell(old(View()), j, i, c)
    {
      jobs := jobs[j := jobs[j].(cells := jobs[j].cells[i := c])];
    }

    method RefuseCell(j: JobId, i: nat, reason: Reason)
      requires j < |jobs| && i < |jobs[j].cells|
      modifies this`jobs, this`log, this`pump
      ensures View() == Refuse(old(View()), j, i, reason)
    {
      SetCell(j, i, jobs[j].cells[i].(state := NotSent(reason)));
      StopJob(j, i + 1, StopOnError);
    }

    method Deliver(j: JobId, i: nat, visit: Visit)
      requires j < |jobs| && i < |jobs[j].cells| && visit.check.Same?
      modifies this`jobs, this`log, this`pump
      ensures View() == SendCell(old(View()), j, i, visit)
    {
      var c := jobs[j].cells[i].(source := visit.check.text);
      var id := |log.sends|;
      if visit.send.Refused? {
        SetCell(j, i, c.(state := NotSent(KernelDead)));
        pump := CellDone(j, i, Lost);
        return;
      }
      log := log.(sends := log.sends + [Send(j, i, id, visit.check.text, visit.check, epoch)]);
      if visit.send.Delivered? {
        SetCell(j, i, c.(msgId := Some(id), state := Sent));
        pump := InFlight(j, i, None);
      } else {
        SetCell(j, i, c.(msgId := Some(id), state := Unknown));
        pump := CellDone(j, i, Lost);
      }
    }

    /** One pass of the loop over the cells, up to the next await. */
    method VisitCell(j: JobId, i: nat, visit: Visit)
      requires j < |jobs| && i <= |jobs[j].cells|
      modifies this`jobs, this`log, this`pump
      ensures View() == Head(old(View()), j, i, visit)
    {
      if i >= |jobs[j].cells| {
        EndJob(j);
        return;
      }
      if jobs[j].cancelRequested {
        StopJob(j, i, Cancelled);
        return;
      }
      if jobs[j].epoch != epoch {
        StopJob(j, i, KernelChanged);
        return;
      }
      Recheck(j, i, visit);
    }

    method Recheck(j: JobId, i: nat, visit: Visit)
      requires j < |jobs| && i < |jobs[j].cells|
      modifies this`jobs, this`log, this`pump
      ensures View() == CheckAndSend(old(View()), j, i, visit)
    {
      hide Refuse, OpenAndSend;
      var c := jobs[j].cells[i];
      if c.identity.None? && c.acceptanceFailure.Some? {
        RefuseCell(j, i, c.acceptanceFailure.value);
        return;
      }
      if visit.check.CheckThrows? {
        pump := JobThrew(j);
        return;
      }
      if visit.check.Rejected? {
        RefuseCell(j, i, visit.check.reason);
        return;
      }
      if c.identity.None? {
        RefuseCell(j, i, CellReplaced);
        return;
      }
      SetCell(j, i, c.(source := visit.check.text));
      if c.identity.value != visit.check.identity {
        RefuseCell(j, i, CellReplaced);
        return;
      }
      OpenArea(j, i, visit);
    }

    method OpenArea(j: JobId, i: nat, visit: Visit)
      requires j < |jobs| && i < |jobs[j].cells| && visit.check.Same?
      modifies this`jobs, this`log, this`pump
      ensures View() == OpenAndSend(old(View()), j, i, visit)
    {
      hide Refuse, SendCell;
      match visit.sink
      case SinkThrows => pump := JobThrew(j);
      case Opened => Deliver(j, i, visit);
      case Gone =>
        match visit.again
        case CheckThrows => pump := JobThrew(j);
        case Same(_, _) => RefuseCell(j, i, CellNotFound);
        case Rejected(reason) => RefuseCell(j, i, reason);
    }

    method TakeNext(visit: Visit)
      requires forall k | 0 <= k < |queue| :: queue[k] < |jobs|
      modifies this`jobs, this`log, this`pump, this`queue
      ensures View() == Next(old(View()), visit)
    {
      hide Head, Finished, FinalOutcome;
      if queue == [] {
        pump := Idle;
        return;
      }
      var j := queue[0];
      queue := queue[1..];
      if disposed {
        MarkJob(j, 0, Cancelled);
        var outcome := FinalState(jobs[j].cells);
        Finish(j, outcome);
        pump := JobDone;
        return;
      }
      jobs := jobs[j := jobs[j].(state := JobRunning)];
      VisitCell(j, 0, visit);
    }

    method AbandonJob(j: JobId)
      requires j < |jobs|
      modifies this`jobs, this`log
      ensures View() == Abandon(old(View()), j)
    {
      var cells := jobs[j].cells;
      for i := 0 to |cells|
        invariant jobs == old(jobs) && log == old(log) && |cells| == |jobs[j].cells|
        invariant forall k | 0 <= k < i :: cells[k] == Give(jobs[j].cells[k])
        invariant forall k | i <= k < |cells| :: cells[k] == jobs[j].cells[k]
      {
        if cells[i].state.Queued? {
          cells := cells[i := cells[i].(state := NotSent(RtcNotReady))];
        } else if cells[i].state.Sent? {
          cells := cells[i := cells[i].(state := Unknown)];
        }
      }
      assert cells == GiveUp(jobs[j].cells);
      jobs := jobs[j := jobs[j].(cells := cells)];
      if !jobs[j].state.Terminal? {
        var outcome := FinalState(cells);
        Finish(j, outcome);
      }
    }

    /** The pump continues after the await it was suspended at. */
    method Resume(v: Verdict, visit: Visit)
      requires InRange(View())
      modifies this`jobs, this`log, this`pump, this`queue
      ensures View() == Continue(old(View()), v, visit)
    {
      hide Head, Stop, Next;
      match pump
      case Idle =>
      case InFlight(j, i, settled) =>
        if settled.Some? {
          SetCell(j, i, Judge(jobs[j].cells[i], settled.value, v));
          pump := CellDone(j, i, settled.value);
        }
      case CellDone(j, i, outcome) =>
        var state := jobs[j].cells[i].state;
        if outcome.Lost? {
          StopJob(j, i + 1, KernelChanged);
        } else if jobs[j].stopOnError && (state.Failed? || state.Aborted?) {
          StopJob(j, i + 1, StopOnError);
        } else {
          VisitCell(j, i + 1, visit);
        }
      case JobDone => TakeNext(visit);
      case JobThrew(j) =>
        AbandonJob(j);
        assert |Abandon(old(View()), j).jobs| == |old(jobs)|;
        assert Abandon(old(View()), j).queue == old(queue);
        TakeNext(visit);
    }

    /** The first settlement of the cell in flight wins. */
    method EndInFlight(outcome: Outcome)
      modifies this`pump
      ensures View() == Settle(old(View()), outcome)
    {
      if pump.InFlight? && pump.settled.None? {
        pump := InFlight(pump.job, pump.index, Some(outcome));
      }
    }

    method Submit(stopOnError: bool, cells: seq<Acceptance>, visit: Visit)
      requires InRange(View())
      modifies this`jobs, this`log, this`pump, this`queue
      ensures View() == Submitted(old(View()), stopOnError, cells, visit)
    {
      hide Next;
      if disposed || cells == [] { return; }
      var records: seq<Cell> := [];
      for i := 0 to |cells|
        invariant jobs == old(jobs) && queue == old(queue) && log == old(log) && pump == old(pump)
        invariant |records| == i && forall k | 0 <= k < i :: records[k] == NewCell(cells[k])
      {
        records := records + [NewCell(cells[i])];
      }
      assert records == NewCells(cells);
      queue := queue + [|jobs|];
      jobs := jobs + [Job(epoch, stopOnError, JobQueued, records, false)];
      if pump.Idle? {
        TakeNext(visit);
      }
    }

    method Cancel(j: JobId)
      modifies this`jobs, this`log, this`queue
      ensures View() == CancelJob(old(View()), j)
    {
      hide MarkRest;
      if j >= |jobs| { return; }
      var cells := SkipRest(jobs[j].cells, 0, Cancelled);
      jobs := jobs[j := jobs[j].(cancelRequested := true, cells := cells)];
      var at := 0;
      while at < |queue| && queue[at] != j
        invariant at <= |queue| && queue == old(queue) && jobs == old(jobs)[j := old(jobs)[j].(cancelRequested := true, cells := cells)]
        invariant log == old(log)
        invariant forall k | 0 <= k < at :: queue[k] != j
      {
        at := at + 1;
      }
      Removed(queue, j, at);
      if at < |queue| {
        queue := queue[..at] + queue[at + 1..];
      }
      if jobs[j].state.JobQueued? {
        Finish(j, JobCancelled);
      }
    }

    /** Disposal settles the cell in flight and cancels what is waiting. */
    method Dispose()
      requires InRange(View())
      modifies this`jobs, this`log, this`queue, this`disposed, this`pump
      ensures View() == Disposed(old(View()))
    {
      if disposed { return; }
      hide DropQueued, MarkRest, FinalOutcome;
      disposed := true;
      EndInFlight(Lost);
      var waiting := queue;
      queue := [];
      ghost var start := View();
      for i := 0 to |waiting|
        invariant waiting == old(queue) && |jobs| == |old(jobs)| && |start.jobs| == |old(jobs)|
        invariant View() == DropAll(start, waiting[..i])
      {
        assert waiting[..i + 1][..i] == waiting[..i];
        Drop(waiting[i]);
      }
      assert waiting[..|waiting|] == waiting;
    }

    method Drop(j: JobId)
      requires j < |jobs|
      modifies this`jobs, this`log
      ensures View() == DropQueued(old(View()), j)
    {
      MarkJob(j, 0, Cancelled);
      var outcome := FinalState(jobs[j].cells);
      Finish(j, outcome);
    }

    method KernelChangedEvent()
      modifies this`epoch, this`pump
      ensures InRange(old(View())) ==> View() == Step(old(View()), KernelEvent)
    {
      if disposed { return; }
      epoch := epoch + 1;
      EndInFlight(Lost);
    }
  }

  /** Cutting out the first occurrence. */
  lemma {:induction false} Removed(queue: seq<JobId>, j: JobId, at: nat)
    requires at <= |queue| && (forall k | 0 <= k < at :: queue[k] != j) && (at < |queue| ==> queue[at] == j)
    ensures Without(queue, j) == if at < |queue| then queue[..at] + queue[at + 1..] else queue
  {
    if at > 0 {
      Removed(queue[1..], j, at - 1);
    }
  }
}
