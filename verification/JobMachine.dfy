/**
 * The sequential job runner of one kernel. The pump is a coroutine: each stretch between two of
 * its awaits is one step, and submissions, cancellations, disposal and kernel events fall between.
 */
module JobMachine {
  import opened Options
  import opened Outputs

  type Text = string
  type Identity = nat
  type JobId = nat
  type MsgId = nat

  datatype Reason =
    | StopOnError | Cancelled | KernelChanged | KernelDead | RevisionConflict
    | CellNotFound | CellReplaced | CellIdAmbiguous | RtcNotReady

  datatype CellState =
    | Queued
    | Sent
    | Succeeded
    | Failed
    | Aborted(interrupted: bool)
    | Unknown
    | NotSent(reason: Reason)

  /** A requested cell: what was accepted, and what became of it. */
  datatype Cell = Cell(
    identity: Option<Identity>,
    acceptanceFailure: Option<Reason>,
    source: Text,
    msgId: Option<MsgId>,
    state: CellState)

  datatype JobState = JobQueued | JobRunning | Terminal(outcome: JobOutcome)

  datatype JobOutcome = JobSucceeded | JobFailed | JobCancelled | JobInterrupted | JobUnknown

  datatype Job = Job(epoch: nat, stopOnError: bool, state: JobState, cells: seq<Cell>, cancelRequested: bool)

  /** How one in-flight cell ended. */
  datatype Outcome = Completed | Lost

  /** Where the pump waits; `Idle` is the only state in which it is not running. */
  datatype Pump =
    | Idle
    | InFlight(job: JobId, index: nat, settled: Option<Outcome>)
    | CellDone(job: JobId, index: nat, outcome: Outcome)
    | JobDone
    | JobThrew(job: JobId)

  /** An execute request that reached the kernel, with the check that preceded it. */
  datatype Send = Send(job: JobId, index: nat, msgId: MsgId, text: Text, check: Check, epoch: nat)

  datatype Finish = Finish(job: JobId, outcome: JobOutcome)

  /** What has happened so far; nothing reads it. */
  datatype Log = Log(sends: seq<Send>, finishes: seq<Finish>)

  datatype Registry = Registry(jobs: seq<Job>, queue: seq<JobId>, epoch: nat, disposed: bool, pump: Pump, log: Log)

  // ---------------------------------------------------------------------------
  // what the callbacks and the kernel answer
  // ---------------------------------------------------------------------------

  datatype Check = Same(text: Text, identity: Identity) | Rejected(reason: Reason) | CheckThrows

  datatype SinkAnswer = Opened | Gone | SinkThrows

  datatype SendAnswer = Delivered | Refused | DeliveredThenThrew

  /** The answers one visit to a cell gets, in the order it asks for them. */
  datatype Visit = Visit(check: Check, sink: SinkAnswer, again: Check, send: SendAnswer)

  /** What is known about a cell when it was accepted. */
  datatype Acceptance = Identified(identity: Identity) | AcceptRejected(reason: Reason) | AcceptThrew

  /** The reducer's verdict when the cell is settled. */
  datatype Verdict = Verdict(status: RunStatus, keyboardInterrupt: bool)

  datatype Event =
    | Submit(stopOnError: bool, cells: seq<Acceptance>, visit: Visit)
    | Cancel(job: JobId)
    | Dispose
    | KernelEvent                        // restart, shutdown or death
    | ChannelLost
    | CompletionSeen                     // reply and idle of the cell in flight have both arrived
    | Resume(verdict: Verdict, visit: Visit)

  // ---------------------------------------------------------------------------
  // job records
  // ---------------------------------------------------------------------------

  function NewCell(a: Acceptance): Cell {
    match a
    case Identified(identity) => Cell(Some(identity), None, "", None, Queued)
    case AcceptRejected(reason) => Cell(None, Some(reason), "", None, Queued)
    case AcceptThrew => Cell(None, None, "", None, Queued)
  }

  function NewCells(cells: seq<Acceptance>): seq<Cell> {
    seq(|cells|, k requires 0 <= k < |cells| => NewCell(cells[k]))
  }

  function Skip(c: Cell, reason: Reason): Cell { if c.state.Queued? then c.(state := NotSent(reason)) else c }

  /** Every still-queued cell from `from` on is marked as not sent. */
  function MarkRest(cells: seq<Cell>, from: nat, reason: Reason): (r: seq<Cell>) {
    seq(|cells|, k requires 0 <= k < |cells| => if k >= from then Skip(cells[k], reason) else cells[k])
  }

  function Give(c: Cell): Cell {
    match c.state
    case Queued => c.(state := NotSent(RtcNotReady))
    case Sent => c.(state := Unknown)
    case _ => c
  }

  function GiveUp(cells: seq<Cell>): seq<Cell> {
    seq(|cells|, k requires 0 <= k < |cells| => Give(cells[k]))
  }

  /** Uncertainty wins over an interrupt, that over failure, and that over cancellation. */
  function FinalOutcome(cells: seq<Cell>): JobOutcome {
    if exists k | 0 <= k < |cells| :: cells[k].state.Unknown? then JobUnknown
    else if exists k | 0 <= k < |cells| :: cells[k].state == CellState.Aborted(true) then JobInterrupted
    else if exists k | 0 <= k < |cells| :: cells[k].state.Failed? || cells[k].state.Aborted? then JobFailed
    else if exists k | 0 <= k < |cells| :: cells[k].state == NotSent(Cancelled) then JobCancelled
    else if exists k | 0 <= k < |cells| :: cells[k].state.NotSent? then JobFailed
    else JobSucceeded
  }

  // ---------------------------------------------------------------------------
  // registry steps
  // ---------------------------------------------------------------------------

  function PutJob(r: Registry, j: JobId, job: Job): Registry
    requires j < |r.jobs|
  {
    r.(jobs := r.jobs[j := job])
  }

  function PutCells(r: Registry, j: JobId, cells: seq<Cell>): Registry
    requires j < |r.jobs|
  {
    PutJob(r, j, r.jobs[j].(cells := cells))
  }

  function PutCell(r: Registry, j: JobId, i: nat, c: Cell): Registry
    requires j < |r.jobs| && i < |r.jobs[j].cells|
  {
    PutCells(r, j, r.jobs[j].cells[i := c])
  }

  function Finished(r: Registry, j: JobId, outcome: JobOutcome): Registry
    requires j < |r.jobs|
  {
    PutJob(r, j, r.jobs[j].(state := Terminal(outcome)))
      .(log := r.log.(finishes := r.log.finishes + [Finish(j, outcome)]))
  }

  /** The end of `#runJob`: a job that is still running is finished. */
  function Close(r: Registry, j: JobId): Registry
    requires j < |r.jobs|
  {
    (if r.jobs[j].state.JobRunning? then Finished(r, j, FinalOutcome(r.jobs[j].cells)) else r).(pump := JobDone)
  }

  /** The rest of the job is skipped, and the job ends. */
  function Stop(r: Registry, j: JobId, from: nat, reason: Reason): Registry
    requires j < |r.jobs|
  {
    Close(PutCells(r, j, MarkRest(r.jobs[j].cells, from, reason)), j)
  }

  /** The target check failed: this cell is not sent and neither is the rest. */
  function Refuse(r: Registry, j: JobId, i: nat, reason: Reason): Registry
    requires j < |r.jobs| && i < |r.jobs[j].cells|
  {
    Stop(PutCell(r, j, i, r.jobs[j].cells[i].(state := NotSent(reason))), j, i + 1, StopOnError)
  }

  /** Hand cell `i` to the kernel; its text was just checked. */
  function SendCell(r: Registry, j: JobId, i: nat, visit: Visit): Registry
    requires j < |r.jobs| && i < |r.jobs[j].cells| && visit.check.Same?
  {
    var c := r.jobs[j].cells[i].(source := visit.check.text);
    var id := |r.log.sends|;
    var sent := r.(log := r.log.(sends := r.log.sends + [Send(j, i, id, visit.check.text, visit.check, r.epoch)]));
    match visit.send
    case Refused => PutCell(r, j, i, c.(state := NotSent(KernelDead))).(pump := CellDone(j, i, Lost))
    case Delivered => PutCell(sent, j, i, c.(msgId := Some(id), state := Sent)).(pump := InFlight(j, i, None))
    case DeliveredThenThrew =>
      PutCell(sent, j, i, c.(msgId := Some(id), state := Unknown)).(pump := CellDone(j, i, Lost))
  }

  /** The output area is opened, then the cell is sent. */
  function OpenAndSend(r: Registry, j: JobId, i: nat, visit: Visit): Registry
    requires j < |r.jobs| && i < |r.jobs[j].cells| && visit.check.Same?
  {
    match visit.sink
    case SinkThrows => r.(pump := JobThrew(j))
    case Opened => SendCell(r, j, i, visit)
    case Gone =>
      match visit.again
      case CheckThrows => r.(pump := JobThrew(j))
      case Same(_, _) => Refuse(r, j, i, CellNotFound)
      case Rejected(reason) => Refuse(r, j, i, reason)
  }

  /** The re-check immediately before sending. */
  function CheckAndSend(r: Registry, j: JobId, i: nat, visit: Visit): Registry
    requires j < |r.jobs| && i < |r.jobs[j].cells|
  {
    var c := r.jobs[j].cells[i];
    if c.identity.None? && c.acceptanceFailure.Some? then Refuse(r, j, i, c.acceptanceFailure.value)
    else
      match visit.check
      case CheckThrows => r.(pump := JobThrew(j))
      case Rejected(reason) => Refuse(r, j, i, reason)
      case Same(text, identity) =>
        if c.identity.None? then Refuse(r, j, i, CellReplaced)
        else
          var r1 := PutCell(r, j, i, c.(source := text));
          if c.identity != Some(identity) then Refuse(r1, j, i, CellReplaced) else OpenAndSend(r1, j, i, visit)
  }

  /** One pass of the loop over a job's cells, up to the next await. */
  function Head(r: Registry, j: JobId, i: nat, visit: Visit): Registry
    requires j < |r.jobs|
  {
    if i >= |r.jobs[j].cells| then Close(r, j)
    else if r.jobs[j].cancelRequested then Stop(r, j, i, Cancelled)
    else if r.jobs[j].epoch != r.epoch then Stop(r, j, i, KernelChanged)
    else CheckAndSend(r, j, i, visit)
  }

  /** The pump takes the next job, if there is one. */
  function Next(r: Registry, visit: Visit): Registry
    requires forall k | 0 <= k < |r.queue| :: r.queue[k] < |r.jobs|
  {
    if r.queue == [] then r.(pump := Idle)
    else
      var j := r.queue[0];
      var r1 := r.(queue := r.queue[1..]);
      if r.disposed then
        var cells := MarkRest(r.jobs[j].cells, 0, Cancelled);
        Finished(PutCells(r1, j, cells), j, FinalOutcome(cells)).(pump := JobDone)
      else Head(PutJob(r1, j, r.jobs[j].(state := JobRunning)), j, 0, visit)
  }

  function Judge(c: Cell, outcome: Outcome, v: Verdict): Cell {
    c.(state := if outcome.Lost? then Unknown
                else if v.status == RunStatus.Aborted then CellState.Aborted(false)
                else if v.status == RunStatus.Failed then (if v.keyboardInterrupt then CellState.Aborted(true) else CellState.Failed)
                else Succeeded)
  }

  function AfterCell(r: Registry, j: JobId, i: nat, outcome: Outcome, visit: Visit): Registry
    requires j < |r.jobs| && i < |r.jobs[j].cells|
  {
    var state := r.jobs[j].cells[i].state;
    if outcome.Lost? then Stop(r, j, i + 1, KernelChanged)
    else if r.jobs[j].stopOnError && (state.Failed? || state.Aborted?) then Stop(r, j, i + 1, StopOnError)
    else Head(r, j, i + 1, visit)
  }

  /** A job whose callbacks threw still reaches a terminal state. */
  function Abandon(r: Registry, j: JobId): Registry
    requires j < |r.jobs|
  {
    var cells := GiveUp(r.jobs[j].cells);
    var r1 := PutCells(r, j, cells);
    if r.jobs[j].state.Terminal? then r1 else Finished(r1, j, FinalOutcome(cells))
  }

  predicate InRange(r: Registry) {
    && (forall k | 0 <= k < |r.queue| :: r.queue[k] < |r.jobs|)
    && match r.pump
       case InFlight(j, i, _) => j < |r.jobs| && i < |r.jobs[j].cells|
       case CellDone(j, i, _) => j < |r.jobs| && i < |r.jobs[j].cells|
       case JobThrew(j) => j < |r.jobs|
       case _ => true
  }

  function Continue(r: Registry, v: Verdict, visit: Visit): Registry
    requires InRange(r)
  {
    match r.pump
    case Idle => r
    case InFlight(j, i, settled) =>
      if settled.None? then r
      else PutCell(r, j, i, Judge(r.jobs[j].cells[i], settled.value, v)).(pump := CellDone(j, i, settled.value))
    case CellDone(j, i, outcome) => AfterCell(r, j, i, outcome, visit)
    case JobDone => Next(r, visit)
    case JobThrew(j) => Next(Abandon(r, j), visit)
  }

  /** The first settlement of the cell in flight wins. */
  function Settle(r: Registry, outcome: Outcome): Registry {
    if r.pump.InFlight? && r.pump.settled.None? then r.(pump := r.pump.(settled := Some(outcome))) else r
  }

  function Submitted(r: Registry, stopOnError: bool, cells: seq<Acceptance>, visit: Visit): Registry
    requires InRange(r)
  {
    if r.disposed || cells == [] then r
    else
      var job := Job(r.epoch, stopOnError, JobQueued, NewCells(cells), false);
      var r1 := r.(jobs := r.jobs + [job], queue := r.queue + [|r.jobs|]);
      if r.pump.Idle? then Next(r1, visit) else r1
  }

  function Without(queue: seq<JobId>, j: JobId): seq<JobId> {
    if queue == [] then [] else if queue[0] == j then queue[1..] else [queue[0]] + Without(queue[1..], j)
  }

  function CancelJob(r: Registry, j: JobId): Registry {
    if j >= |r.jobs| then r
    else
      var job := r.jobs[j].(cancelRequested := true, cells := MarkRest(r.jobs[j].cells, 0, Cancelled));
      var r1 := PutJob(r, j, job).(queue := Without(r.queue, j));
      if job.state.JobQueued? then Finished(r1, j, JobCancelled) else r1
  }

  function DropQueued(r: Registry, j: JobId): Registry
    requires j < |r.jobs|
  {
    var cells := MarkRest(r.jobs[j].cells, 0, Cancelled);
    Finished(PutCells(r, j, cells), j, FinalOutcome(cells))
  }

  function DropAll(r: Registry, js: seq<JobId>): (d: Registry)
    requires forall k | 0 <= k < |js| :: js[k] < |r.jobs|
    ensures |d.jobs| == |r.jobs|
  {
    if js == [] then r else DropQueued(DropAll(r, js[..|js| - 1]), js[|js| - 1])
  }

  /** Disposal settles the cell in flight and cancels every job that was waiting. */
  function Disposed(r: Registry): Registry
    requires InRange(r)
  {
    if r.disposed then r else DropAll(Settle(r.(disposed := true), Lost).(queue := []), r.queue)
  }

  function Step(r: Registry, e: Event): Registry
    requires InRange(r)
  {
    match e
    case Submit(stopOnError, cells, visit) => Submitted(r, stopOnError, cells, visit)
    case Cancel(j) => CancelJob(r, j)
    case Dispose => Disposed(r)
    case KernelEvent => if r.disposed then r else Settle(r.(epoch := r.epoch + 1), Lost)
    case ChannelLost => if r.disposed then r else Settle(r, Lost)
    case CompletionSeen => Settle(r, Completed)
    case Resume(v, visit) => Continue(r, v, visit)
  }

  function Empty(): Registry { Registry([], [], 0, false, Idle, Log([], [])) }
}
