/** What the job machine promises about every run. */
module JobSafety {
  import opened Options
  import opened Outputs
  import opened JobMachine
  import opened JobRuns

  // ---------------------------------------------------------------------------
  // safety of every reachable state
  // ---------------------------------------------------------------------------

  /** At most one cell of all jobs is in flight. */
  lemma OneInFlight(es: seq<Event>, j: JobId, k: nat, i: JobId, m: nat)
    requires var r := Run(es);
      && j < |r.jobs| && k < |r.jobs[j].cells| && r.jobs[j].cells[k].state.Sent?
      && i < |r.jobs| && m < |r.jobs[i].cells| && r.jobs[i].cells[m].state.Sent?
    ensures j == i && k == m
  {
  }

  /** The cells that were handed to the kernel are a prefix, and each but the last ended well. */
  lemma SentPrefix(es: seq<Event>, j: JobId, k: nat, m: nat)
    requires var r := Run(es); j < |r.jobs| && k < m < |r.jobs[j].cells| && r.jobs[j].cells[m].msgId.Some?
    ensures var job := Run(es).jobs[j];
      && job.cells[k].msgId.Some?
      && (job.cells[k].state.Succeeded? || (!job.stopOnError && (job.cells[k].state.Failed? || job.cells[k].state.Aborted?)))
  {
  }

  /** A cell reported as not sent has no message id; every other ended cell has one. */
  lemma NotSentHasNoId(es: seq<Event>, j: JobId, k: nat)
    requires var r := Run(es); j < |r.jobs| && k < |r.jobs[j].cells|
    ensures var c := Run(es).jobs[j].cells[k]; c.msgId.None? <==> (c.state.Queued? || c.state.NotSent?)
  {
  }

  /**
   * Every request that reached the kernel carried the text that the check in the same step
   * returned for the accepted identity, in the job's acceptance epoch; the record keeps it.
   */
  lemma SendsWereChecked(es: seq<Event>, n: nat)
    requires n < |Run(es).log.sends|
    ensures var r := Run(es); var s := r.log.sends[n];
      && s.job < |r.jobs| && s.index < |r.jobs[s.job].cells|
      && s.check.Same? && s.check.text == s.text
      && r.jobs[s.job].cells[s.index].identity == Some(s.check.identity)
      && s.epoch == r.jobs[s.job].epoch
      && r.jobs[s.job].cells[s.index].msgId == Some(s.msgId) && r.jobs[s.job].cells[s.index].source == s.text
  {
    hide Run, FinishesOk, PumpOk, StateOk, QueueOk, Shape;
    assert SendOk(Run(es), n);
  }

  /** Nothing is ever sent twice. */
  lemma SentOnce(es: seq<Event>, n: nat, m: nat)
    requires n < m < |Run(es).log.sends|
    ensures var r := Run(es);
      (r.log.sends[n].job, r.log.sends[n].index) != (r.log.sends[m].job, r.log.sends[m].index)
  {
    hide Run, FinishesOk, PumpOk, StateOk, QueueOk, Shape;
    assert SendOk(Run(es), n) && SendOk(Run(es), m);
  }

  /** Each job is finished at most once, and its state is the one it was finished with. */
  lemma FinishedOnce(es: seq<Event>, n: nat)
    requires n < |Run(es).log.finishes|
    ensures var r := Run(es); var f := r.log.finishes[n];
      && f.job < |r.jobs| && r.jobs[f.job].state == Terminal(f.outcome)
      && forall m | 0 <= m < |r.log.finishes| && m != n :: r.log.finishes[m].job != f.job
  {
  }

  /** A job's outcome, read back from its cells. */
  lemma OutcomeMeans(es: seq<Event>, j: JobId)
    requires j < |Run(es).jobs| && Run(es).jobs[j].state.Terminal?
    ensures var cells := Run(es).jobs[j].cells; var outcome := Run(es).jobs[j].state.outcome;
      && (forall k | 0 <= k < |cells| :: !cells[k].state.Queued? && !cells[k].state.Sent?)
      && (outcome.JobSucceeded? <==> forall k | 0 <= k < |cells| :: cells[k].state.Succeeded?)
      && (outcome.JobUnknown? <==> exists k :: 0 <= k < |cells| && cells[k].state.Unknown?)
      && (outcome.JobCancelled? ==> forall k | 0 <= k < |cells| :: cells[k].state.Succeeded? || cells[k].state.NotSent?)
  {
  }

  /** A waiting job always has a running pump; an idle pump has left nothing unfinished. */
  lemma QueueIsServed(es: seq<Event>)
    ensures Run(es).queue != [] ==> !Run(es).pump.Idle?
    ensures Run(es).pump.Idle? ==> forall j | 0 <= j < |Run(es).jobs| :: Run(es).jobs[j].state.Terminal?
  {
  }

  // ---------------------------------------------------------------------------
  // what a step may change
  // ---------------------------------------------------------------------------

  /** A cell that has ended keeps its state, one that was sent its text, one that was not sent everything. */
  predicate Legal(c: Cell, d: Cell) {
    && d.identity == c.identity
    && (c.msgId.Some? ==> d.msgId == c.msgId && d.source == c.source)
    && (Ended(c) ==> d.state == c.state)
    && (c.state.NotSent? ==> d == c)
  }

  predicate JobMoves(job: Job, job': Job) {
    && job'.epoch == job.epoch && job'.stopOnError == job.stopOnError && |job'.cells| == |job.cells|
    && (forall k | 0 <= k < |job.cells| :: Legal(job.cells[k], job'.cells[k]))
    && (job.state.Terminal? ==> job'.state == job.state && job'.cells == job.cells)
  }

  predicate Moves(r: Registry, r': Registry) {
    && |r.jobs| <= |r'.jobs| && (forall j | 0 <= j < |r.jobs| :: JobMoves(r.jobs[j], r'.jobs[j]))
    && r.log.sends <= r'.log.sends && r.log.finishes <= r'.log.finishes
  }

  lemma MovesTrans(a: Registry, b: Registry, c: Registry)
    requires Moves(a, b) && Moves(b, c)
    ensures Moves(a, c)
  {
  }

  lemma MovesSelf(r: Registry, r': Registry)
    requires r'.jobs == r.jobs && r'.log == r.log
    ensures Moves(r, r')
  {
  }

  lemma CloseMoves(r: Registry, j: JobId)
    requires j < |r.jobs|
    ensures Moves(r, Close(r, j))
  {
  }

  lemma StopMoves(r: Registry, j: JobId, from: nat, reason: Reason)
    requires j < |r.jobs| && r.jobs[j].state.JobRunning?
    ensures Moves(r, Stop(r, j, from, reason))
  {
  }

  lemma CellMoves(r: Registry, j: JobId, i: nat, c: Cell)
    requires j < |r.jobs| && r.jobs[j].state.JobRunning? && i < |r.jobs[j].cells| && Legal(r.jobs[j].cells[i], c)
    ensures Moves(r, PutCell(r, j, i, c))
  {
  }

  /** A cell that was never asked for. */
  predicate Open(c: Cell) { c.state.Queued? && c.msgId.None? }

  lemma RefuseMoves(r: Registry, j: JobId, i: nat, reason: Reason)
    requires j < |r.jobs| && r.jobs[j].state.JobRunning? && i < |r.jobs[j].cells| && Open(r.jobs[j].cells[i])
    ensures Moves(r, Refuse(r, j, i, reason))
  {
  }

  lemma SendMoves(r: Registry, j: JobId, i: nat, visit: Visit)
    requires j < |r.jobs| && r.jobs[j].state.JobRunning? && i < |r.jobs[j].cells| && Open(r.jobs[j].cells[i])
    requires visit.check.Same?
    ensures Moves(r, SendCell(r, j, i, visit))
  {
  }

  lemma OpenMoves(r: Registry, j: JobId, i: nat, visit: Visit)
    requires j < |r.jobs| && r.jobs[j].state.JobRunning? && i < |r.jobs[j].cells| && Open(r.jobs[j].cells[i])
    requires visit.check.Same?
    ensures Moves(r, OpenAndSend(r, j, i, visit))
  {
    hide Moves, Open, Refuse, SendCell;

    match visit.sink
    case SinkThrows => MovesSelf(r, r.(pump := JobThrew(j)));
    case Opened => SendMoves(r, j, i, visit);
    case Gone =>
      match visit.again
      case CheckThrows => MovesSelf(r, r.(pump := JobThrew(j)));
      case Same(_, _) => RefuseMoves(r, j, i, CellNotFound);
      case Rejected(reason) => RefuseMoves(r, j, i, reason);
  }

  lemma CheckMoves(r: Registry, j: JobId, i: nat, visit: Visit)
    requires j < |r.jobs| && r.jobs[j].state.JobRunning? && i < |r.jobs[j].cells| && Open(r.jobs[j].cells[i])
    ensures Moves(r, CheckAndSend(r, j, i, visit))
  {
    hide Moves, Refuse, OpenAndSend;
    var c := r.jobs[j].cells[i];
    if c.identity.None? && c.acceptanceFailure.Some? {
      RefuseMoves(r, j, i, c.acceptanceFailure.value);
    } else {
      match visit.check
      case CheckThrows => MovesSelf(r, r.(pump := JobThrew(j)));
      case Rejected(reason) => RefuseMoves(r, j, i, reason);
      case Same(text, identity) =>
        if c.identity.None? {
          RefuseMoves(r, j, i, CellReplaced);
        } else {
          var r1 := PutCell(r, j, i, c.(source := text));
          CellMoves(r, j, i, c.(source := text));
          if c.identity != Some(identity) {
            RefuseMoves(r1, j, i, CellReplaced);
          } else {
            OpenMoves(r1, j, i, visit);
          }
          MovesTrans(r, r1, CheckAndSend(r, j, i, visit));
        }
    }
  }

  lemma HeadMoves(r: Registry, j: JobId, i: nat, visit: Visit)
    requires j < |r.jobs| && r.jobs[j].state.JobRunning? && Shape(r.jobs[j]) && ReadyAt(r.jobs[j], i)
    ensures Moves(r, Head(r, j, i, visit))
  {
    hide Moves, Stop, Close, CheckAndSend;
    if i >= |r.jobs[j].cells| {
      CloseMoves(r, j);
    } else if r.jobs[j].cancelRequested {
      StopMoves(r, j, i, Cancelled);
    } else if r.jobs[j].epoch != r.epoch {
      StopMoves(r, j, i, KernelChanged);
    } else {
      assert CellOk(r.jobs[j].cells[i]);
      CheckMoves(r, j, i, visit);
    }
  }

  lemma NextMoves(r: Registry, visit: Visit)
    requires Base(r) && NoneRunning(r)
    ensures forall k | 0 <= k < |r.queue| :: r.queue[k] < |r.jobs|
    ensures Moves(r, Next(r, visit))
  {
    assert forall k | 0 <= k < |r.queue| :: r.queue[k] < |r.jobs|;
    if r.queue == [] {
      MovesSelf(r, Next(r, visit));
    } else {
      TakeKeeps(r);
      var j := r.queue[0];
      assert r.jobs[j].state.JobQueued?;
      var r1 := PutJob(r.(queue := r.queue[1..]), j, r.jobs[j].(state := JobRunning));
      assert Shape(r1.jobs[j]);
      hide Base, Head;
      HeadMoves(r1, j, 0, visit);
      MovesTrans(r, r1, Next(r, visit));
    }
  }

  lemma AfterMoves(r: Registry, j: JobId, i: nat, outcome: Outcome, visit: Visit)
    requires Inv(r) && r.pump == CellDone(j, i, outcome)
    ensures Moves(r, AfterCell(r, j, i, outcome, visit))
  {
    assert Shape(r.jobs[j]);
    hide Base, Stop, Head, Moves;
    var state := r.jobs[j].cells[i].state;
    if outcome.Lost? {
      StopMoves(r, j, i + 1, KernelChanged);
    } else if r.jobs[j].stopOnError && (state.Failed? || state.Aborted?) {
      StopMoves(r, j, i + 1, StopOnError);
    } else {
      HeadMoves(r, j, i + 1, visit);
    }
  }

  lemma AbandonMoves(r: Registry, j: JobId)
    requires j < |r.jobs| && r.jobs[j].state.JobRunning? && Shape(r.jobs[j])
    requires forall k | 0 <= k < |r.jobs[j].cells| :: !r.jobs[j].cells[k].state.Sent?
    ensures Moves(r, Abandon(r, j))
  {
  }

  lemma ContinueMoves(r: Registry, v: Verdict, visit: Visit)
    requires Inv(r)
    ensures InRange(r) && Moves(r, Continue(r, v, visit))
  {
    InvInRange(r);
    match r.pump
    case Idle => MovesSelf(r, r);
    case InFlight(j, i, settled) =>
      if settled.None? {
        MovesSelf(r, r);
      } else {
        hide Base;
        var judged := Judge(r.jobs[j].cells[i], settled.value, v);
        CellMoves(r, j, i, judged);
        assert Continue(r, v, visit) == PutCell(r, j, i, judged).(pump := CellDone(j, i, settled.value));
      }
    case CellDone(j, i, outcome) => AfterMoves(r, j, i, outcome, visit);
    case JobDone => NextMoves(r, visit);
    case JobThrew(j) =>
      assert Shape(r.jobs[j]);
      hide Base, Next, Abandon;
      AbandonMoves(r, j);
      AbandonKeeps(r, j);
      NextMoves(Abandon(r, j), visit);
      MovesTrans(r, Abandon(r, j), Next(Abandon(r, j), visit));
  }

  lemma CancelMoves(r: Registry, j: JobId)
    requires Inv(r)
    ensures Moves(r, CancelJob(r, j))
  {
    if j < |r.jobs| {
      assert StateOk(r, j);
      if r.jobs[j].state.Terminal? {
        NothingToSkip(r.jobs[j].cells);
      }
      hide Inv, FinalOutcome;
    } else {
      MovesSelf(r, r);
    }
  }

  lemma DropMoves(r: Registry, j: JobId)
    requires j < |r.jobs| && !r.jobs[j].state.Terminal?
    ensures Moves(r, DropQueued(r, j))
  {
  }

  /** The jobs that have not been dropped yet are still waiting. */
  lemma StillWaiting(r: Registry, n: nat)
    requires Base(r) && n < |r.queue|
    ensures forall k | 0 <= k < |r.queue| :: r.queue[k] < |r.jobs|
    ensures DropAll(r, r.queue[..n]).jobs[r.queue[n]].state.JobQueued?
  {
    DropAllKeeps(r, n);
    var waiting := DropAll(r, r.queue[..n]).(queue := r.queue[n..]);
    assert waiting.queue[0] == r.queue[n];
    hide Shape, LogOk, FinishesOk, StateOk, DropAll;
  }

  lemma {:induction false} DropAllMoves(r: Registry, n: nat)
    requires Base(r) && n <= |r.queue|
    ensures forall k | 0 <= k < |r.queue| :: r.queue[k] < |r.jobs|
    ensures Moves(r, DropAll(r, r.queue[..n]))
  {
    hide Shape, LogOk, FinishesOk, StateOk, Moves, DropQueued;
    if n == 0 {
      assert r.queue[..0] == [];
      MovesSelf(r, r);
    } else {
      DropAllMoves(r, n - 1);
      StillWaiting(r, n - 1);
      hide Base;
      assert r.queue[..n][..n - 1] == r.queue[..n - 1];
      var d := DropAll(r, r.queue[..n - 1]);
      DropMoves(d, r.queue[n - 1]);
      MovesTrans(r, d, DropQueued(d, r.queue[n - 1]));
    }
  }

  lemma DisposeMoves(r: Registry)
    requires Inv(r)
    ensures InRange(r) && Moves(r, Disposed(r))
  {
    InvInRange(r);
    if r.disposed {
      MovesSelf(r, r);
    } else {
      DropAllMoves(r, |r.queue|);
      assert r.queue[..|r.queue|] == r.queue;
      hide Inv, DropAll;
      DropAllCommutes(r, r.queue, [], true, Settle(r, Lost).pump);
      assert Settle(r.(disposed := true), Lost).(queue := [])
          == r.(queue := [], disposed := true, pump := Settle(r, Lost).pump);
      var d := DropAll(r, r.queue);
      MovesSelf(d, Disposed(r));
      MovesTrans(r, d, Disposed(r));
    }
  }

  lemma SubmitMoves(r: Registry, stopOnError: bool, cells: seq<Acceptance>, visit: Visit)
    requires Inv(r)
    ensures InRange(r) && Moves(r, Submitted(r, stopOnError, cells, visit))
  {
    InvInRange(r);
    if r.disposed || cells == [] {
      MovesSelf(r, r);
    } else {
      var job := Job(r.epoch, stopOnError, JobQueued, NewCells(cells), false);
      AcceptKeeps(r, job);
      hide Inv, Base, Next;
      var r1 := r.(jobs := r.jobs + [job], queue := r.queue + [|r.jobs|]);
      assert Moves(r, r1);
      if r.pump.Idle? {
        NextMoves(r1, visit);
        MovesTrans(r, r1, Next(r1, visit));
      }
    }
  }

  /** Every step, at every reachable state. */
  lemma StepMoves(r: Registry, e: Event)
    requires Inv(r)
    ensures InRange(r) && Moves(r, Step(r, e))
  {
    InvInRange(r);
    hide Inv, InRange, Moves, Submitted, CancelJob, Disposed, Continue;
    match e
    case Submit(stopOnError, cells, visit) => SubmitMoves(r, stopOnError, cells, visit);
    case Cancel(j) => CancelMoves(r, j);
    case Dispose => DisposeMoves(r);
    case Resume(v, visit) => ContinueMoves(r, v, visit);
    case _ => MovesSelf(r, Step(r, e));
  }

  /**
   * Whatever happens later: a finished job keeps its state and its cells, a cell that was not
   * sent never is, and the text that was sent stays the text on record.
   */
  lemma {:induction false} NothingIsUndone(r: Registry, later: seq<Event>)
    requires Inv(r)
    ensures Moves(r, From(r, later))
  {
    if later == [] {
      MovesSelf(r, r);
    } else {
      var before := later[..|later| - 1];
      NothingIsUndone(r, before);
      StepMoves(From(r, before), later[|later| - 1]);
      hide Moves, Step;
      MovesTrans(r, From(r, before), From(r, later));
    }
  }
}
