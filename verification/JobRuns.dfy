/** What every run of the job machine keeps, whatever happens between the pump's steps. */
module JobRuns {
  import opened Options
  import opened Outputs
  import opened JobMachine

  // ---------------------------------------------------------------------------
  // one job
  // ---------------------------------------------------------------------------

  /** A cell has a message id exactly when its request may have reached the kernel. */
  predicate CellOk(c: Cell) { c.msgId.None? <==> (c.state.Queued? || c.state.NotSent?) }

  predicate Ended(c: Cell) { !c.state.Queued? && !c.state.Sent? }

  /** A cell after which the next one may be sent. */
  predicate Passed(job: Job, c: Cell) {
    c.state.Succeeded? || (!job.stopOnError && (c.state.Failed? || c.state.Aborted?))
  }

  /** Every cell before a sent one has ended, and ended well enough to go on. */
  predicate Ordered(job: Job) {
    forall k, m | 0 <= k < m < |job.cells| && job.cells[m].msgId.Some? :: Passed(job, job.cells[k])
  }

  predicate Shape(job: Job) {
    job.cells != [] && (forall k | 0 <= k < |job.cells| :: CellOk(job.cells[k])) && Ordered(job)
  }

  predicate Untouched(job: Job) {
    !job.cancelRequested && forall k | 0 <= k < |job.cells| :: job.cells[k].state.Queued?
  }

  predicate AllEnded(cells: seq<Cell>) { forall k | 0 <= k < |cells| :: Ended(cells[k]) }

  /** Not yet sent: queued, or dropped by a cancellation. */
  predicate Pending(job: Job, c: Cell) { c.state.Queued? || (job.cancelRequested && c.state.NotSent?) }

  /** The first `i` cells have been run, the rest wait. */
  predicate ReadyAt(job: Job, i: nat) {
    && i <= |job.cells|
    && (forall k | 0 <= k < i :: Passed(job, job.cells[k]))
    && (forall k | i <= k < |job.cells| :: Pending(job, job.cells[k]))
  }

  /** The same with cell `i` itself somewhere in between. */
  predicate AroundAt(job: Job, i: nat) {
    && i < |job.cells|
    && (forall k | 0 <= k < i :: Passed(job, job.cells[k]))
    && (forall k | i < k < |job.cells| :: Pending(job, job.cells[k]))
  }

  // ---------------------------------------------------------------------------
  // the registry
  // ---------------------------------------------------------------------------

  predicate StateOk(r: Registry, j: JobId)
    requires j < |r.jobs|
  {
    match r.jobs[j].state
    case JobQueued => j in r.queue && Untouched(r.jobs[j])
    case JobRunning => true
    case Terminal(outcome) => AllEnded(r.jobs[j].cells) && outcome == FinalOutcome(r.jobs[j].cells)
  }

  predicate QueueOk(r: Registry) {
    && (forall k | 0 <= k < |r.queue| :: r.queue[k] < |r.jobs| && r.jobs[r.queue[k]].state.JobQueued?)
    && (forall k, m | 0 <= k < m < |r.queue| :: r.queue[k] != r.queue[m])
    && (r.disposed ==> r.queue == [])
  }

  /** A logged send: checked text, the accepted identity, the acceptance epoch. */
  predicate SendOk(r: Registry, m: nat)
    requires m < |r.log.sends|
  {
    var s := r.log.sends[m];
    && s.msgId == m && s.job < |r.jobs| && s.index < |r.jobs[s.job].cells|
    && var c := r.jobs[s.job].cells[s.index];
       && c.msgId == Some(m) && c.source == s.text
       && s.check.Same? && s.check.text == s.text && c.identity == Some(s.check.identity)
       && s.epoch == r.jobs[s.job].epoch
  }

  /** Every message id was handed out by a logged send of that very cell. */
  predicate IdsOk(sends: seq<Send>, j: JobId, cells: seq<Cell>) {
    forall k | 0 <= k < |cells| && cells[k].msgId.Some? ::
      cells[k].msgId.value < |sends| && sends[cells[k].msgId.value].job == j && sends[cells[k].msgId.value].index == k
  }

  predicate LogOk(r: Registry) {
    && (forall m | 0 <= m < |r.log.sends| :: SendOk(r, m))
    && (forall j | 0 <= j < |r.jobs| :: IdsOk(r.log.sends, j, r.jobs[j].cells))
  }

  predicate FinishesOk(r: Registry) {
    && (forall n | 0 <= n < |r.log.finishes| ::
          r.log.finishes[n].job < |r.jobs| && r.jobs[r.log.finishes[n].job].state == Terminal(r.log.finishes[n].outcome))
    && (forall n, m | 0 <= n < m < |r.log.finishes| :: r.log.finishes[n].job != r.log.finishes[m].job)
    && (forall j | 0 <= j < |r.jobs| && r.jobs[j].state.Terminal? ::
          exists n :: 0 <= n < |r.log.finishes| && r.log.finishes[n].job == j)
  }

  predicate Base(r: Registry) {
    && (forall j | 0 <= j < |r.jobs| :: Shape(r.jobs[j]) && StateOk(r, j) && r.jobs[j].epoch <= r.epoch)
    && QueueOk(r) && LogOk(r) && FinishesOk(r)
  }

  predicate Alone(r: Registry, j: JobId) {
    && j < |r.jobs| && r.jobs[j].state.JobRunning?
    && forall k | 0 <= k < |r.jobs| && k != j :: !r.jobs[k].state.JobRunning?
  }

  predicate NoneRunning(r: Registry) { forall k | 0 <= k < |r.jobs| :: !r.jobs[k].state.JobRunning? }

  predicate PumpOk(r: Registry) {
    match r.pump
    case Idle => NoneRunning(r) && r.queue == []
    case JobDone => NoneRunning(r)
    case InFlight(j, i, _) => Alone(r, j) && AroundAt(r.jobs[j], i) && r.jobs[j].cells[i].state.Sent?
    case CellDone(j, i, outcome) =>
      && Alone(r, j) && AroundAt(r.jobs[j], i) && Ended(r.jobs[j].cells[i])
      && var state := r.jobs[j].cells[i].state;
         (outcome.Completed? ==> state.Succeeded? || state.Failed? || state.Aborted?)
    case JobThrew(j) => Alone(r, j) && forall k | 0 <= k < |r.jobs[j].cells| :: !r.jobs[j].cells[k].state.Sent?
  }

  predicate Inv(r: Registry) { Base(r) && PumpOk(r) }

  lemma InvInRange(r: Registry)
    requires Inv(r)
    ensures InRange(r)
  {
  }

  // ---------------------------------------------------------------------------
  // changing the running job
  // ---------------------------------------------------------------------------

  /** New cell records that keep what was sent. */
  predicate Follows(before: seq<Cell>, after: seq<Cell>) {
    |after| == |before| &&
    forall k | 0 <= k < |before| ::
      && after[k].msgId == before[k].msgId && after[k].identity == before[k].identity
      && (before[k].msgId.Some? ==> after[k].source == before[k].source)
  }

  lemma RecellLog(r: Registry, j: JobId, cells: seq<Cell>)
    requires LogOk(r) && j < |r.jobs| && Follows(r.jobs[j].cells, cells)
    ensures LogOk(PutCells(r, j, cells))
  {
    var r' := PutCells(r, j, cells);
    forall m | 0 <= m < |r'.log.sends| ensures SendOk(r', m) {
      assert SendOk(r, m);
    }
    forall n | 0 <= n < |r'.jobs| ensures IdsOk(r'.log.sends, n, r'.jobs[n].cells) {
      assert IdsOk(r.log.sends, n, r.jobs[n].cells);
    }
  }

  lemma RecellKeeps(r: Registry, j: JobId, cells: seq<Cell>)
    requires Base(r) && Alone(r, j) && Follows(r.jobs[j].cells, cells) && Shape(r.jobs[j].(cells := cells))
    ensures Base(PutCells(r, j, cells)) && Alone(PutCells(r, j, cells), j)
  {
    hide LogOk, Shape, Follows;
    var r' := PutCells(r, j, cells);
    RecellLog(r, j, cells);
    assert FinishesOk(r');
  }

  lemma FinishKeeps(r: Registry, j: JobId)
    requires Base(r) && Alone(r, j) && AllEnded(r.jobs[j].cells)
    ensures Base(Close(r, j)) && PumpOk(Close(r, j))
  {
    hide AllEnded, FinalOutcome, IdsOk;
    var r' := Close(r, j);
    assert LogOk(r') by {
      forall m | 0 <= m < |r'.log.sends| ensures SendOk(r', m) {
        assert SendOk(r, m);
      }
    }
    FinishLogged(r, j, FinalOutcome(r.jobs[j].cells));
    assert Shape(r'.jobs[j]);
  }

  lemma FinishLogged(r: Registry, j: JobId, outcome: JobOutcome)
    requires FinishesOk(r) && j < |r.jobs| && !r.jobs[j].state.Terminal?
    ensures FinishesOk(Finished(r, j, outcome))
  {
    var r' := Finished(r, j, outcome);
    forall k | 0 <= k < |r'.jobs| && r'.jobs[k].state.Terminal?
      ensures exists n :: 0 <= n < |r'.log.finishes| && r'.log.finishes[n].job == k
    {
      if k == j {
        assert r'.log.finishes[|r.log.finishes|].job == j;
      } else {
        var n :| 0 <= n < |r.log.finishes| && r.log.finishes[n].job == k;
        assert r'.log.finishes[n].job == k;
      }
    }
  }

  /** Skipping the rest of a job leaves nothing open. */
  lemma RestShape(job: Job, from: nat, reason: Reason)
    requires Shape(job) && from <= |job.cells| && forall k | 0 <= k < from :: Ended(job.cells[k])
    requires forall k | from <= k < |job.cells| :: !job.cells[k].state.Sent?
    ensures var cells := MarkRest(job.cells, from, reason);
      Shape(job.(cells := cells)) && AllEnded(cells) && Follows(job.cells, cells)
  {
  }

  lemma StopKeeps(r: Registry, j: JobId, from: nat, reason: Reason)
    requires Base(r) && Alone(r, j) && from <= |r.jobs[j].cells|
    requires forall k | 0 <= k < from :: Ended(r.jobs[j].cells[k])
    requires forall k | from <= k < |r.jobs[j].cells| :: !r.jobs[j].cells[k].state.Sent?
    ensures Inv(Stop(r, j, from, reason))
  {
    hide Close, MarkRest, Shape, AllEnded, Follows, PumpOk;
    RestShape(r.jobs[j], from, reason);
    var cells := MarkRest(r.jobs[j].cells, from, reason);
    RecellKeeps(r, j, cells);
    FinishKeeps(PutCells(r, j, cells), j);
  }

  /** Replacing one cell that has not been sent by another such cell. */
  lemma OneCell(job: Job, i: nat, c: Cell)
    requires Shape(job) && i < |job.cells| && job.cells[i].msgId.None? && c.msgId.None? && CellOk(c)
    requires c.identity == job.cells[i].identity
    ensures Shape(job.(cells := job.cells[i := c])) && Follows(job.cells, job.cells[i := c])
  {
  }

  lemma RefuseKeeps(r: Registry, j: JobId, i: nat, reason: Reason)
    requires Base(r) && Alone(r, j) && i < |r.jobs[j].cells| && ReadyAt(r.jobs[j], i)
    ensures Inv(Refuse(r, j, i, reason))
  {
    hide Stop, Follows, PumpOk;
    var c := r.jobs[j].cells[i];
    assert Shape(r.jobs[j]);
    assert CellOk(c);
    OneCell(r.jobs[j], i, c.(state := NotSent(reason)));
    var r1 := PutCell(r, j, i, c.(state := NotSent(reason)));
    RecellKeeps(r, j, r1.jobs[j].cells);
    StopKeeps(r1, j, i + 1, StopOnError);
  }

  // ---------------------------------------------------------------------------
  // sending
  // ---------------------------------------------------------------------------

  /** The cell that goes out extends the prefix. */
  lemma SentShape(job: Job, i: nat, c: Cell)
    requires Shape(job) && i < |job.cells| && ReadyAt(job, i) && CellOk(c)
    ensures Shape(job.(cells := job.cells[i := c])) && AroundAt(job.(cells := job.cells[i := c]), i)
  {
  }

  lemma SendLog(r: Registry, j: JobId, i: nat, c: Cell, s: Send)
    requires LogOk(r) && j < |r.jobs| && i < |r.jobs[j].cells| && r.jobs[j].cells[i].msgId.None?
    requires s.job == j && s.index == i && s.msgId == |r.log.sends| && s.epoch == r.jobs[j].epoch
    requires c.msgId == Some(s.msgId) && c.source == s.text
    requires s.check.Same? && s.check.text == s.text && c.identity == Some(s.check.identity)
    ensures LogOk(PutCell(r.(log := r.log.(sends := r.log.sends + [s])), j, i, c))
  {
    var r' := PutCell(r.(log := r.log.(sends := r.log.sends + [s])), j, i, c);
    forall m | 0 <= m < |r'.log.sends| ensures SendOk(r', m) {
      if m < |r.log.sends| {
        assert SendOk(r, m);
      }
    }
    forall n | 0 <= n < |r'.jobs| ensures IdsOk(r'.log.sends, n, r'.jobs[n].cells) {
      assert IdsOk(r.log.sends, n, r.jobs[n].cells);
    }
  }

  lemma DeliverKeeps(r: Registry, j: JobId, i: nat, c: Cell, s: Send)
    requires Base(r) && Alone(r, j) && i < |r.jobs[j].cells| && ReadyAt(r.jobs[j], i) && r.jobs[j].cells[i].msgId.None?
    requires s.job == j && s.index == i && s.msgId == |r.log.sends| && s.epoch == r.jobs[j].epoch
    requires c.msgId == Some(s.msgId) && c.source == s.text && CellOk(c)
    requires s.check.Same? && s.check.text == s.text && c.identity == Some(s.check.identity)
    ensures var r' := PutCell(r.(log := r.log.(sends := r.log.sends + [s])), j, i, c);
      Base(r') && Alone(r', j) && AroundAt(r'.jobs[j], i)
  {
    hide LogOk, Shape, ReadyAt, AroundAt, CellOk;
    var r' := PutCell(r.(log := r.log.(sends := r.log.sends + [s])), j, i, c);
    SendLog(r, j, i, c, s);
    SentShape(r.jobs[j], i, c);
    assert FinishesOk(r');
  }

  lemma SendKeeps(r: Registry, j: JobId, i: nat, visit: Visit)
    requires Base(r) && Alone(r, j) && i < |r.jobs[j].cells| && ReadyAt(r.jobs[j], i)
    requires !r.jobs[j].cancelRequested && r.jobs[j].epoch == r.epoch
    requires visit.check.Same? && r.jobs[j].cells[i].identity == Some(visit.check.identity)
    ensures Inv(SendCell(r, j, i, visit))
  {
    hide AroundAt, LogOk;
    var c := r.jobs[j].cells[i].(source := visit.check.text);
    var s := Send(j, i, |r.log.sends|, visit.check.text, visit.check, r.epoch);
    assert Shape(r.jobs[j]);
    assert c.msgId.None?;
    match visit.send
    case Refused =>
      OneCell(r.jobs[j], i, c.(state := NotSent(KernelDead)));
      RecellKeeps(r, j, r.jobs[j].cells[i := c.(state := NotSent(KernelDead))]);
      SentShape(r.jobs[j], i, c.(state := NotSent(KernelDead)));
      PumpFree(PutCell(r, j, i, c.(state := NotSent(KernelDead))), CellDone(j, i, Lost));
    case Delivered =>
      var c' := c.(msgId := Some(s.msgId), state := Sent);
      DeliverKeeps(r, j, i, c', s);
      PumpFree(PutCell(r.(log := r.log.(sends := r.log.sends + [s])), j, i, c'), InFlight(j, i, None));
    case DeliveredThenThrew =>
      var c' := c.(msgId := Some(s.msgId), state := Unknown);
      DeliverKeeps(r, j, i, c', s);
      PumpFree(PutCell(r.(log := r.log.(sends := r.log.sends + [s])), j, i, c'), CellDone(j, i, Lost));
  }

  /** What `Base` says does not depend on where the pump waits. */
  lemma PumpFree(r: Registry, pump: Pump)
    requires Base(r)
    ensures Base(r.(pump := pump))
  {
    hide Shape, IdsOk, FinalOutcome;
    var r' := r.(pump := pump);
    forall m | 0 <= m < |r'.log.sends| ensures SendOk(r', m) {
      assert SendOk(r, m);
    }
    assert forall j | 0 <= j < |r.jobs| :: StateOk(r, j) ==> StateOk(r', j);
  }

  // ---------------------------------------------------------------------------
  // one visit to a cell
  // ---------------------------------------------------------------------------

  lemma ThrewKeeps(r: Registry, j: JobId, i: nat)
    requires Base(r) && Alone(r, j) && ReadyAt(r.jobs[j], i)
    ensures Inv(r.(pump := JobThrew(j)))
  {
    hide Base;
    PumpFree(r, JobThrew(j));
  }

  lemma OpenKeeps(r: Registry, j: JobId, i: nat, visit: Visit)
    requires Base(r) && Alone(r, j) && i < |r.jobs[j].cells| && ReadyAt(r.jobs[j], i)
    requires !r.jobs[j].cancelRequested && r.jobs[j].epoch == r.epoch
    requires visit.check.Same? && r.jobs[j].cells[i].identity == Some(visit.check.identity)
    ensures Inv(OpenAndSend(r, j, i, visit))
  {
    hide Alone, Base, Inv, ReadyAt, Refuse, SendCell;

    match visit.sink
    case SinkThrows => ThrewKeeps(r, j, i);
    case Opened => SendKeeps(r, j, i, visit);
    case Gone =>
      match visit.again
      case CheckThrows => ThrewKeeps(r, j, i);
      case Same(_, _) => RefuseKeeps(r, j, i, CellNotFound);
      case Rejected(reason) => RefuseKeeps(r, j, i, reason);
  }

  /** Recording the checked text leaves the cell waiting. */
  lemma SnapshotKeeps(r: Registry, j: JobId, i: nat, text: Text)
    requires Base(r) && Alone(r, j) && i < |r.jobs[j].cells| && ReadyAt(r.jobs[j], i)
    ensures var r1 := PutCell(r, j, i, r.jobs[j].cells[i].(source := text));
      Base(r1) && Alone(r1, j) && ReadyAt(r1.jobs[j], i)
  {
    hide Follows;
    var c := r.jobs[j].cells[i];
    assert Shape(r.jobs[j]);
    assert c.msgId.None?;
    OneCell(r.jobs[j], i, c.(source := text));
    RecellKeeps(r, j, r.jobs[j].cells[i := c.(source := text)]);
  }

  lemma CheckKeeps(r: Registry, j: JobId, i: nat, visit: Visit)
    requires Base(r) && Alone(r, j) && i < |r.jobs[j].cells| && ReadyAt(r.jobs[j], i)
    requires !r.jobs[j].cancelRequested && r.jobs[j].epoch == r.epoch
    ensures Inv(CheckAndSend(r, j, i, visit))
  {
    hide Base, Inv, OpenAndSend, ReadyAt, Refuse;

    var c := r.jobs[j].cells[i];
    if c.identity.None? && c.acceptanceFailure.Some? {
      RefuseKeeps(r, j, i, c.acceptanceFailure.value);
    } else {
      match visit.check
      case CheckThrows => ThrewKeeps(r, j, i);
      case Rejected(reason) => RefuseKeeps(r, j, i, reason);
      case Same(text, identity) =>
        if c.identity.None? {
          RefuseKeeps(r, j, i, CellReplaced);
        } else {
          SnapshotKeeps(r, j, i, text);
          var r1 := PutCell(r, j, i, c.(source := text));
          if c.identity != Some(identity) {
            RefuseKeeps(r1, j, i, CellReplaced);
          } else {
            OpenKeeps(r1, j, i, visit);
          }
        }
    }
  }

  lemma HeadKeeps(r: Registry, j: JobId, i: nat, visit: Visit)
    requires Base(r) && Alone(r, j) && ReadyAt(r.jobs[j], i)
    ensures Inv(Head(r, j, i, visit))
  {
    hide Base, PumpOk, Close, Stop, CheckAndSend;
    if i >= |r.jobs[j].cells| {
      FinishKeeps(r, j);
    } else if r.jobs[j].cancelRequested {
      StopKeeps(r, j, i, Cancelled);
    } else if r.jobs[j].epoch != r.epoch {
      StopKeeps(r, j, i, KernelChanged);
    } else {
      CheckKeeps(r, j, i, visit);
    }
  }

  // ---------------------------------------------------------------------------
  // the pump
  // ---------------------------------------------------------------------------

  /** Taking the first waiting job makes it the one that runs. */
  lemma TakeKeeps(r: Registry)
    requires Base(r) && NoneRunning(r) && r.queue != []
    ensures !r.disposed && r.queue[0] < |r.jobs|
    ensures var j := r.queue[0];
      var r' := PutJob(r.(queue := r.queue[1..]), j, r.jobs[j].(state := JobRunning));
      Base(r') && Alone(r', j) && ReadyAt(r'.jobs[j], 0)
  {
    hide FinalOutcome, IdsOk;
    var j := r.queue[0];
    var r' := PutJob(r.(queue := r.queue[1..]), j, r.jobs[j].(state := JobRunning));
    assert StateOk(r, j);
    forall k | 0 <= k < |r'.jobs| ensures Shape(r'.jobs[k]) && StateOk(r', k) {
      assert Shape(r.jobs[k]) && StateOk(r, k);
    }
    assert LogOk(r') by {
      forall m | 0 <= m < |r'.log.sends| ensures SendOk(r', m) {
        assert SendOk(r, m);
      }
    }
    assert FinishesOk(r') by { hide Shape; }
  }

  lemma NextKeeps(r: Registry, visit: Visit)
    requires Base(r) && NoneRunning(r)
    ensures forall k | 0 <= k < |r.queue| :: r.queue[k] < |r.jobs|
    ensures Inv(Next(r, visit))
  {
    assert forall k | 0 <= k < |r.queue| :: r.queue[k] < |r.jobs|;
    hide Alone, AroundAt, Base, Ended, FinalOutcome, Finished, Head, MarkRest, PutCells, PutJob, ReadyAt;

    if r.queue == [] {
      PumpFree(r, Idle);
      assert PumpOk(r.(pump := Idle)) && Inv(r.(pump := Idle));
    } else {
      TakeKeeps(r);
      var j := r.queue[0];
      HeadKeeps(PutJob(r.(queue := r.queue[1..]), j, r.jobs[j].(state := JobRunning)), j, 0, visit);
    }
  }

  lemma JudgedShape(job: Job, i: nat, outcome: Outcome, v: Verdict)
    requires Shape(job) && AroundAt(job, i) && job.cells[i].state.Sent?
    ensures var cells := job.cells[i := Judge(job.cells[i], outcome, v)];
      Shape(job.(cells := cells)) && Follows(job.cells, cells) && AroundAt(job.(cells := cells), i) && Ended(cells[i])
  {
  }

  lemma JudgeKeeps(r: Registry, j: JobId, i: nat, outcome: Outcome, v: Verdict)
    requires Inv(r) && r.pump == InFlight(j, i, Some(outcome))
    ensures Inv(PutCell(r, j, i, Judge(r.jobs[j].cells[i], outcome, v)).(pump := CellDone(j, i, outcome)))
  {
    hide Shape, Follows;
    var cells := r.jobs[j].cells[i := Judge(r.jobs[j].cells[i], outcome, v)];
    assert Shape(r.jobs[j]);
    JudgedShape(r.jobs[j], i, outcome, v);
    RecellKeeps(r, j, cells);
    PumpFree(PutCells(r, j, cells), CellDone(j, i, outcome));
  }

  lemma AfterKeeps(r: Registry, j: JobId, i: nat, outcome: Outcome, visit: Visit)
    requires Inv(r) && r.pump == CellDone(j, i, outcome)
    ensures Inv(AfterCell(r, j, i, outcome, visit))
  {
    hide Base, Stop, Head;
    var state := r.jobs[j].cells[i].state;
    if outcome.Lost? {
      StopKeeps(r, j, i + 1, KernelChanged);
    } else if r.jobs[j].stopOnError && (state.Failed? || state.Aborted?) {
      StopKeeps(r, j, i + 1, StopOnError);
    } else {
      HeadKeeps(r, j, i + 1, visit);
    }
  }

  lemma GivenUp(job: Job)
    requires Shape(job) && forall k | 0 <= k < |job.cells| :: !job.cells[k].state.Sent?
    ensures var cells := GiveUp(job.cells); Shape(job.(cells := cells)) && Follows(job.cells, cells) && AllEnded(cells)
  {
  }

  lemma AbandonKeeps(r: Registry, j: JobId)
    requires Inv(r) && r.pump == JobThrew(j)
    ensures Base(Abandon(r, j)) && NoneRunning(Abandon(r, j))
  {
    hide Shape, Follows, GiveUp, FinalOutcome, AllEnded;
    assert Shape(r.jobs[j]);
    GivenUp(r.jobs[j]);
    var r1 := PutCells(r, j, GiveUp(r.jobs[j].cells));
    RecellKeeps(r, j, GiveUp(r.jobs[j].cells));
    FinishKeeps(r1, j);
    PumpFree(Close(r1, j), r.pump);
    assert Abandon(r, j) == Close(r1, j).(pump := r.pump);
  }

  lemma ContinueKeeps(r: Registry, v: Verdict, visit: Visit)
    requires Inv(r)
    ensures InRange(r) && Inv(Continue(r, v, visit))
  {
    InvInRange(r);
    hide Base, AfterCell, Next, Abandon, Judge, InRange;
    match r.pump
    case Idle =>
    case InFlight(j, i, settled) =>
      if settled.Some? {
        JudgeKeeps(r, j, i, settled.value, v);
      }
    case CellDone(j, i, outcome) => AfterKeeps(r, j, i, outcome, visit);
    case JobDone => NextKeeps(r, visit);
    case JobThrew(j) =>
      AbandonKeeps(r, j);
      NextKeeps(Abandon(r, j), visit);
  }

  // ---------------------------------------------------------------------------
  // events between the pump's steps
  // ---------------------------------------------------------------------------

  lemma SettleKeeps(r: Registry, outcome: Outcome)
    requires Inv(r)
    ensures Inv(Settle(r, outcome))
  {
    hide Base;
    PumpFree(r, Settle(r, outcome).pump);
  }

  lemma EpochKeeps(r: Registry)
    requires Inv(r)
    ensures Inv(r.(epoch := r.epoch + 1))
  {
    hide Shape, IdsOk, FinalOutcome;
    var r' := r.(epoch := r.epoch + 1);
    forall m | 0 <= m < |r'.log.sends| ensures SendOk(r', m) {
      assert SendOk(r, m);
    }
    assert forall j | 0 <= j < |r.jobs| :: StateOk(r, j) ==> StateOk(r', j);
  }

  lemma AcceptLog(r: Registry, job: Job, queue: seq<JobId>)
    requires LogOk(r) && forall k | 0 <= k < |job.cells| :: job.cells[k].msgId.None?
    ensures LogOk(r.(jobs := r.jobs + [job], queue := queue))
  {
    var r1 := r.(jobs := r.jobs + [job], queue := queue);
    forall k | 0 <= k < |r1.jobs| ensures IdsOk(r1.log.sends, k, r1.jobs[k].cells) {
      if k < |r.jobs| {
        assert IdsOk(r.log.sends, k, r.jobs[k].cells);
      }
    }
    forall m | 0 <= m < |r1.log.sends| ensures SendOk(r1, m) {
      assert SendOk(r, m);
    }
  }

  lemma AcceptKeeps(r: Registry, job: Job)
    requires Inv(r) && !r.disposed && job.state.JobQueued? && job.epoch == r.epoch
    requires Untouched(job) && Shape(job) && forall k | 0 <= k < |job.cells| :: job.cells[k].msgId.None?
    ensures var r1 := r.(jobs := r.jobs + [job], queue := r.queue + [|r.jobs|]);
      Base(r1) && (r.pump.Idle? ==> NoneRunning(r1)) && (!r.pump.Idle? ==> PumpOk(r1))
  {
    hide FinalOutcome, LogOk, Shape, AllEnded, Untouched;
    var r1 := r.(jobs := r.jobs + [job], queue := r.queue + [|r.jobs|]);
    assert |r.jobs| in r1.queue by { assert r1.queue[|r.queue|] == |r.jobs|; }
    forall k | 0 <= k < |r1.jobs| ensures Shape(r1.jobs[k]) && StateOk(r1, k) {
      if k < |r.jobs| {
        assert Shape(r.jobs[k]) && StateOk(r, k);
      }
    }
    AcceptLog(r, job, r1.queue);
    assert QueueOk(r1);
    assert FinishesOk(r1);
  }

  lemma SubmitKeeps(r: Registry, stopOnError: bool, cells: seq<Acceptance>, visit: Visit)
    requires Inv(r)
    ensures InRange(r) && Inv(Submitted(r, stopOnError, cells, visit))
  {
    InvInRange(r);
    hide Base, PumpOk, Next;
    if !r.disposed && cells != [] {
      var job := Job(r.epoch, stopOnError, JobQueued, NewCells(cells), false);
      AcceptKeeps(r, job);
      var r1 := r.(jobs := r.jobs + [job], queue := r.queue + [|r.jobs|]);
      if r.pump.Idle? {
        NextKeeps(r1, visit);
      }
    }
  }

  lemma {:induction false} WithoutElements(queue: seq<JobId>, j: JobId)
    requires forall k, m | 0 <= k < m < |queue| :: queue[k] != queue[m]
    ensures forall x :: x in Without(queue, j) <==> x in queue && x != j
    ensures forall k, m | 0 <= k < m < |Without(queue, j)| :: Without(queue, j)[k] != Without(queue, j)[m]
  {
    if queue != [] {
      WithoutElements(queue[1..], j);
      assert queue == [queue[0]] + queue[1..];
      assert queue[0] !in queue[1..];
      var rest := Without(queue[1..], j);
      assert forall k | 0 <= k < |rest| :: rest[k] in rest;
    }
  }

  /** A waiting job is taken out of the queue and ends unsent. */
  lemma DropKeeps(r: Registry, j: JobId, queue: seq<JobId>, cancelled: bool)
    requires Base(r) && j < |r.jobs| && r.jobs[j].state.JobQueued?
    requires forall x :: x in queue <==> x in r.queue && x != j
    requires forall k, m | 0 <= k < m < |queue| :: queue[k] != queue[m]
    ensures FinalOutcome(MarkRest(r.jobs[j].cells, 0, Cancelled)) == JobCancelled
    ensures var job := r.jobs[j].(cancelRequested := cancelled, cells := MarkRest(r.jobs[j].cells, 0, Cancelled));
      var r' := Finished(PutJob(r.(queue := queue), j, job), j, JobCancelled);
      Base(r')
  {
    assert StateOk(r, j) && Shape(r.jobs[j]);
    var cells := MarkRest(r.jobs[j].cells, 0, Cancelled);
    assert cells[0].state == NotSent(Cancelled);
    var r1 := PutJob(r.(queue := queue), j, r.jobs[j].(cancelRequested := cancelled, cells := cells));
    var r' := Finished(r1, j, JobCancelled);
    DropLog(r, j, queue, cancelled);
    FinishLogged(r1, j, JobCancelled) by { hide LogOk, StateOk, Shape; }
    hide LogOk, FinishesOk, FinalOutcome;
    forall k | 0 <= k < |r'.jobs| ensures Shape(r'.jobs[k]) && StateOk(r', k) {
      assert Shape(r.jobs[k]) && StateOk(r, k);
    }
    assert QueueOk(r') by {
      forall k | 0 <= k < |queue| ensures queue[k] < |r.jobs| && r'.jobs[queue[k]].state.JobQueued? {
        assert queue[k] in queue;
      }
    }
  }

  lemma DropLog(r: Registry, j: JobId, queue: seq<JobId>, cancelled: bool)
    requires LogOk(r) && j < |r.jobs| && Untouched(r.jobs[j])
    ensures var job := r.jobs[j].(cancelRequested := cancelled, cells := MarkRest(r.jobs[j].cells, 0, Cancelled));
      LogOk(Finished(PutJob(r.(queue := queue), j, job), j, JobCancelled))
  {
    var job := r.jobs[j].(cancelRequested := cancelled, cells := MarkRest(r.jobs[j].cells, 0, Cancelled));
    var r' := Finished(PutJob(r.(queue := queue), j, job), j, JobCancelled);
    forall m | 0 <= m < |r'.log.sends| ensures SendOk(r', m) {
      assert SendOk(r, m);
    }
    forall n | 0 <= n < |r'.jobs| ensures IdsOk(r'.log.sends, n, r'.jobs[n].cells) {
      assert IdsOk(r.log.sends, n, r.jobs[n].cells);
    }
  }

  lemma CancelRunning(r: Registry, j: JobId)
    requires Inv(r) && j < |r.jobs| && r.jobs[j].state.JobRunning?
    ensures var job := r.jobs[j].(cancelRequested := true, cells := MarkRest(r.jobs[j].cells, 0, Cancelled));
      Inv(PutJob(r, j, job))
  {
    var cells := MarkRest(r.jobs[j].cells, 0, Cancelled);
    var job := r.jobs[j].(cancelRequested := true, cells := cells);
    CancelBase(r, j);
    hide Base;
    assert PumpOk(PutJob(r, j, job));
  }

  lemma CancelBase(r: Registry, j: JobId)
    requires Inv(r) && j < |r.jobs| && r.jobs[j].state.JobRunning?
    ensures var job := r.jobs[j].(cancelRequested := true, cells := MarkRest(r.jobs[j].cells, 0, Cancelled));
      Base(PutJob(r, j, job))
  {
    RunningShape(r, j);
    hide Shape, Follows, MarkRest;
    var cells := MarkRest(r.jobs[j].cells, 0, Cancelled);
    var job := r.jobs[j].(cancelRequested := true, cells := cells);
    assert Alone(r, j);
    hide Base;
    RecellKeeps(r, j, cells);
    FlagKeeps(PutCells(r, j, cells), j);
    assert PutJob(PutCells(r, j, cells), j, PutCells(r, j, cells).jobs[j].(cancelRequested := true)) == PutJob(r, j, job);
  }

  lemma RunningShape(r: Registry, j: JobId)
    requires Base(r) && j < |r.jobs|
    ensures var cells := MarkRest(r.jobs[j].cells, 0, Cancelled);
      && Shape(r.jobs[j].(cells := cells)) && Shape(r.jobs[j].(cancelRequested := true, cells := cells))
      && Follows(r.jobs[j].cells, cells)
  {
  }

  lemma FlagKeeps(r: Registry, j: JobId)
    requires Base(r) && Alone(r, j)
    ensures Base(PutJob(r, j, r.jobs[j].(cancelRequested := true)))
  {
    hide FinalOutcome;
    var r' := PutJob(r, j, r.jobs[j].(cancelRequested := true));
    forall k | 0 <= k < |r'.jobs| ensures Shape(r'.jobs[k]) && StateOk(r', k) {
      assert Shape(r.jobs[k]) && StateOk(r, k);
    }
    assert LogOk(r') by {
      forall m | 0 <= m < |r'.log.sends| ensures SendOk(r', m) {
        assert SendOk(r, m);
      }
    }
    assert FinishesOk(r') by { hide Shape; }
  }

  /** A job that has ended has nothing left to skip. */
  lemma NothingToSkip(cells: seq<Cell>)
    requires AllEnded(cells)
    ensures MarkRest(cells, 0, Cancelled) == cells
  {
  }

  lemma CancelTerminal(r: Registry, j: JobId)
    requires Inv(r) && j < |r.jobs| && r.jobs[j].state.Terminal?
    ensures Inv(PutJob(r, j, r.jobs[j].(cancelRequested := true)))
  {
    hide FinalOutcome;
    var r' := PutJob(r, j, r.jobs[j].(cancelRequested := true));
    forall k | 0 <= k < |r'.jobs| ensures Shape(r'.jobs[k]) && StateOk(r', k) {
      assert Shape(r.jobs[k]) && StateOk(r, k);
    }
    assert LogOk(r') by {
      forall m | 0 <= m < |r'.log.sends| ensures SendOk(r', m) {
        assert SendOk(r, m);
      }
    }
    assert FinishesOk(r') by { hide Shape; }
    assert PumpOk(r') by { hide Base; }
  }

  lemma NotWaiting(r: Registry, j: JobId)
    requires Base(r) && j < |r.jobs| && !r.jobs[j].state.JobQueued?
    ensures Without(r.queue, j) == r.queue
  {
    WithoutOther(r.queue, j);
  }

  lemma {:induction false} WithoutOther(queue: seq<JobId>, j: JobId)
    requires forall k | 0 <= k < |queue| :: queue[k] != j
    ensures Without(queue, j) == queue
  {
    if queue != [] {
      WithoutOther(queue[1..], j);
    }
  }

  lemma CancelKeeps(r: Registry, j: JobId)
    requires Inv(r)
    ensures Inv(CancelJob(r, j))
  {
    if j < |r.jobs| {
      match r.jobs[j].state
      case JobQueued =>
        WithoutElements(r.queue, j);
        DropKeeps(r, j, Without(r.queue, j), true);
        assert PumpOk(CancelJob(r, j)) by { CancelPump(r, j); }
      case JobRunning =>
        NotWaiting(r, j);
        CancelRunning(r, j);
      case Terminal(_) =>
        NotWaiting(r, j);
        assert StateOk(r, j);
        NothingToSkip(r.jobs[j].cells);
        CancelTerminal(r, j);
        assert CancelJob(r, j) == PutJob(r, j, r.jobs[j].(cancelRequested := true));
    }
  }

  lemma CancelPump(r: Registry, j: JobId)
    requires Inv(r) && j < |r.jobs| && r.jobs[j].state.JobQueued?
    ensures PumpOk(CancelJob(r, j))
  {
  }

  // -- disposal ------------------------------------------------------------------

  /** Dropping jobs touches neither queue, pump nor the disposed flag. */
  lemma {:induction false} DropAllCommutes(r: Registry, js: seq<JobId>, queue: seq<JobId>, disposed: bool, pump: Pump)
    requires forall k | 0 <= k < |js| :: js[k] < |r.jobs|
    ensures DropAll(r.(queue := queue, disposed := disposed, pump := pump), js)
         == DropAll(r, js).(queue := queue, disposed := disposed, pump := pump)
  {
    if js != [] {
      DropAllCommutes(r, js[..|js| - 1], queue, disposed, pump);
    }
  }

  /** Jobs other than those dropped keep their records. */
  predicate SameOthers(r: Registry, r': Registry) {
    |r'.jobs| == |r.jobs| && forall k | 0 <= k < |r.jobs| && !r.jobs[k].state.JobQueued? :: r'.jobs[k] == r.jobs[k]
  }

  lemma {:induction false} DropAllKeeps(r: Registry, n: nat)
    requires Base(r) && n <= |r.queue|
    ensures forall k | 0 <= k < n :: r.queue[..n][k] < |r.jobs|
    ensures var d := DropAll(r, r.queue[..n]).(queue := r.queue[n..]);
      && Base(d) && SameOthers(r, d) && d.pump == r.pump
      && (forall k | 0 <= k < |r.jobs| && d.jobs[k].state.JobRunning? :: r.jobs[k].state.JobRunning?)
  {
    assert forall k | 0 <= k < |r.queue| :: r.queue[k] < |r.jobs|;
    if n == 0 {
      assert r.queue[0..] == r.queue && r.queue[..0] == [];
      assert DropAll(r, r.queue[..0]) == r;
    } else {
      DropAllKeeps(r, n - 1);
      assert r.queue[..n][..n - 1] == r.queue[..n - 1];
      var d := DropAll(r, r.queue[..n - 1]).(queue := r.queue[n - 1..]);
      assert d.queue[0] == r.queue[n - 1] && d.queue[1..] == r.queue[n..];
      DropFirst(d);
      assert DropQueued(DropAll(r, r.queue[..n - 1]), r.queue[n - 1]).(queue := r.queue[n..])
          == DropQueued(d, d.queue[0]).(queue := d.queue[1..]);
    }
  }

  lemma DropFirst(r: Registry)
    requires Base(r) && r.queue != []
    ensures r.queue[0] < |r.jobs|
    ensures var d := DropQueued(r, r.queue[0]).(queue := r.queue[1..]);
      && Base(d) && SameOthers(r, d) && d.pump == r.pump
      && (forall k | 0 <= k < |r.jobs| && d.jobs[k].state.JobRunning? :: r.jobs[k].state.JobRunning?)
  {
    var j := r.queue[0];
    assert r.queue == [j] + r.queue[1..];
    assert j !in r.queue[1..];
    DropKeeps(r, j, r.queue[1..], r.jobs[j].cancelRequested);
  }

  lemma DisposeKeeps(r: Registry)
    requires Inv(r)
    ensures InRange(r) && Inv(Disposed(r))
  {
    InvInRange(r);
    if !r.disposed {
      SettleKeeps(r, Lost);
      var s := Settle(r, Lost);
      DropAllKeeps(s, |s.queue|);
      assert s.queue[..|s.queue|] == r.queue && s.queue[|s.queue|..] == [];
      DropAllCommutes(s, r.queue, [], true, s.pump);
      var d := DropAll(s, r.queue).(queue := []);
      assert Settle(r.(disposed := true), Lost).(queue := []) == s.(queue := [], disposed := true);
      assert Disposed(r) == d.(disposed := true);
      ClosedKeeps(s, d);
    }
  }

  lemma ClosedKeeps(s: Registry, d: Registry)
    requires PumpOk(s) && Base(d) && SameOthers(s, d) && d.pump == s.pump && d.queue == []
    requires forall k | 0 <= k < |s.jobs| && d.jobs[k].state.JobRunning? :: s.jobs[k].state.JobRunning?
    ensures Inv(d.(disposed := true))
  {
    hide Shape, IdsOk, FinalOutcome;
    var r' := d.(disposed := true);
    forall m | 0 <= m < |r'.log.sends| ensures SendOk(r', m) {
      assert SendOk(d, m);
    }
    assert forall j | 0 <= j < |d.jobs| :: StateOk(d, j) ==> StateOk(r', j);
  }

  lemma StepKeeps(r: Registry, e: Event)
    requires Inv(r)
    ensures InRange(r) && Inv(Step(r, e))
  {
    InvInRange(r);
    hide CancelJob, Continue, Disposed, InRange, Inv, Settle, Submitted;

    match e
    case Submit(stopOnError, cells, visit) => SubmitKeeps(r, stopOnError, cells, visit);
    case Cancel(j) => CancelKeeps(r, j);
    case Dispose => DisposeKeeps(r);
    case KernelEvent =>
      if !r.disposed {
        EpochKeeps(r);
        SettleKeeps(r.(epoch := r.epoch + 1), Lost);
      }
    case ChannelLost => SettleKeeps(r, Lost);
    case CompletionSeen => SettleKeeps(r, Completed);
    case Resume(v, visit) => ContinueKeeps(r, v, visit);
  }

  /** The state after further events; every run stays inside the machine's index ranges. */
  function From(r: Registry, es: seq<Event>): (end: Registry)
    requires Inv(r)
    ensures Inv(end)
  {
    if es == [] then r
    else
      var before := From(r, es[..|es| - 1]);
      StepKeeps(before, es[|es| - 1]);
      Step(before, es[|es| - 1])
  }

  /** The reachable states. */
  function Run(es: seq<Event>): (r: Registry)
    ensures Inv(r)
  {
    From(Empty(), es)
  }
}
