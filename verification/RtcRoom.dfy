/** Pending saves and the room connection as they are updated in place, against the transition functions. */
module RtcRoom {
  import opened Options
  import opened Rtc
  import opened RtcRuns

  class SaveRequests {
    var pending: seq<nat>
    var counter: nat
    var settled: seq<Settled>

    ghost function View(): Saves
      reads this
    {
      Saves(pending, counter, settled)
    }

    constructor ()
      ensures View() == Saves([], 0, [])
    {
      pending, counter, settled := [], 0, [];
    }

    method Create() returns (id: nat)
      modifies this
      ensures View() == CreateSave(old(View())) && id == counter
    {
      counter := counter + 1;
      id := counter;
      pending := pending + [id];
    }

    method Delete(id: nat)
      modifies this`pending
      ensures pending == Without(old(pending), id)
    {
      var at := 0;
      while at < |pending| && pending[at] != id
        invariant at <= |pending| && pending == old(pending)
        invariant Without(pending, id) == pending[..at] + Without(pending[at..], id)
      {
        assert pending[at..][1..] == pending[at + 1..];
        assert pending[..at + 1] == pending[..at] + [pending[at]];
        at := at + 1;
      }
      if at < |pending| {
        assert pending[at..][1..] == pending[at + 1..];
        pending := pending[..at] + pending[at + 1..];
      } else {
        assert pending[at..] == [] && pending[..at] == pending;
      }
    }

    /** `false` when the request is no longer in flight; a late reply changes nothing. */
    method Settle(id: nat, answer: Answer) returns (known: bool)
      modifies this
      ensures View() == SettleSave(old(View()), id, answer) && known == (id in old(pending))
    {
      if id !in pending { return false; }
      Delete(id);
      settled := settled + [Settled(id, answer)];
      known := true;
    }

    method Cancel(id: nat)
      modifies this`pending
      ensures View() == CancelSave(old(View()), id)
    {
      Delete(id);
    }

    /** One answer for everything in flight, one request after the other. */
    method AnswerAll(answer: Answer)
      modifies this
      ensures View() == SettleAll(old(View()), answer)
    {
      var waiting := pending;
      for i := 0 to |waiting|
        invariant pending == waiting[i..] && counter == old(counter)
        invariant settled == old(settled) + AnswerEach(waiting[..i], answer)
      {
        assert waiting[i..][1..] == waiting[i + 1..];
        assert AnswerEach(waiting[..i + 1], answer) == AnswerEach(waiting[..i], answer) + [Settled(waiting[i], answer)];
        var known := Settle(waiting[i], answer);
      }
      assert waiting[..|waiting|] == waiting;
    }
  }

  class RtcConnection {
    const settings: Settings
    const saves: SaveRequests
    var link: Link
    var terminal: Option<ErrorCode>
    var disposed: bool
    var timer: Option<nat>
    var checks: nat
    var trace: Trace

    ghost function View(): Conn
      reads this, saves
    {
      Conn(settings, link, terminal, disposed, timer, checks, saves.View(), trace)
    }

    constructor (fileId: FileId, hook: bool, budget: nat)
      ensures View() == New(fileId, hook, budget) && fresh(saves)
    {
      settings, link := Settings(fileId, hook, budget), Link(Connecting, false, 0, 0, 0);
      terminal, disposed, timer, checks, trace := None, false, None, 0, Trace([], [], {}, 0);
      saves := new SaveRequests();
    }

    method Enter(next: ConnectionState)
      modifies this`link, this`trace
      ensures View() == SetState(old(View()), next)
    {
      if link.state == next { return; }
      link := link.(state := next);
      trace := trace.(entries := trace.entries + [Entry(next, saves.pending, link.synced)]);
    }

    method StopTimer()
      modifies this`timer, this`trace
      ensures View() == ClearTimer(old(View()))
    {
      if timer.None? { return; }
      trace := trace.(timers := trace.timers - {timer.value});
      timer := None;
    }

    method GiveUp(error: ErrorCode)
      modifies this, saves
      ensures View() == Fail(old(View()), error)
    {
      if terminal.Some? { return; }
      terminal := Some(error);
      link := link.(synced := false);
      StopTimer();
      saves.AnswerAll(Rejected(OperationUncertain));
      Enter(Failed);
    }

    method Schedule()
      modifies this`link, this`timer, this`trace
      ensures View() == ScheduleReconnect(old(View()))
    {
      if disposed || terminal.Some? || timer.Some? { return; }
      link := link.(attempts := link.attempts + 1);
      timer := Some(trace.nextTimer);
      trace := trace.(timers := trace.timers + {trace.nextTimer}, nextTimer := trace.nextTimer + 1);
    }

    method LoseSocket()
      modifies this, saves
      ensures View() == EnterReconnecting(old(View()))
    {
      saves.AnswerAll(Resolved(Timeout));
      Enter(Reconnecting);
      Schedule();
    }

    method OpenSocket(opening: Opening)
      modifies this`trace
      ensures View() == Open(old(View()), opening)
    {
      trace := trace.(openings := trace.openings + [opening]);
    }

    method StatusEvent(status: SocketStatus)
      modifies this`link, this`trace
      ensures View() == Step(old(View()), Status(status))
    {
      if disposed || terminal.Some? { return; }
      if status.SocketConnecting? {
        if !link.state.Reconnecting? { Enter(Connecting); }
        return;
      }
      if status.SocketConnected? {
        link := link.(generation := link.generation + 1);
        Enter(Syncing);
      }
    }

    method SyncEvent(synced: bool)
      modifies this`link, this`trace
      ensures View() == Step(old(View()), Sync(synced))
    {
      if disposed { return; }
      link := link.(synced := synced);
      if terminal.Some? { return; }
      if synced {
        link := link.(initRetries := 0, attempts := 0);
        Enter(Ready);
      }
    }

    method CloseEvent(frame: Option<CloseFrame>)
      modifies this, saves
      ensures View() == Step(old(View()), Close(frame))
    {
      hide Fail, EnterReconnecting;
      if disposed || terminal.Some? { return; }
      link := link.(synced := false);
      if frame.None? {
        LoseSocket();
        return;
      }
      var disposition := ClassifyClose(frame.value.code, frame.value.rejection);
      if disposition.Terminal? {
        GiveUp(disposition.error);
        return;
      }
      if disposition.InitRetry? {
        link := link.(initRetries := link.initRetries + 1);
        if link.initRetries > settings.budget {
          GiveUp(RtcInitializationFailed);
          return;
        }
      }
      LoseSocket();
    }

    method ConflictMessage()
      modifies this, saves
      ensures View() == Step(old(View()), RawConflict)
    {
      hide Fail;
      Enter(Conflict);
      GiveUp(RtcConflict);
    }

    method SaveNow(socketOpen: bool, sendThrows: bool) returns (refused: Option<ErrorCode>)
      modifies saves
      ensures View() == Step(old(View()), Save(socketOpen, sendThrows))
      ensures SavesOk(old(saves.View())) ==> (refused.None? <==> saves.pending != old(saves.pending))
    {
      if terminal.Some? { return terminal; }
      if disposed { return Some(HandleExpired); }
      if !link.state.Ready? || !socketOpen { return Some(NotReady); }
      ghost var before := saves.pending;
      var id := saves.Create();
      if sendThrows {
        saves.Cancel(id);
        CancelledSelf(before, id);
        return Some(OperationUncertain);
      }
      refused := None;
    }

    method TimerEvent(t: nat)
      modifies this`timer, this`checks, this`trace
      ensures View() == Step(old(View()), TimerFired(t))
    {
      if t !in trace.timers { return; }
      timer := None;
      trace := trace.(timers := trace.timers - {t});
      if disposed || terminal.Some? { return; }
      if settings.hook {
        checks := checks + 1;
      } else {
        OpenSocket(Reconnect(None));
      }
    }

    method CheckAnswered(check: Check)
      modifies this, saves
      ensures View() == Step(old(View()), Checked(check))
    {
      hide Fail, ScheduleReconnect;
      if checks == 0 { return; }
      checks := checks - 1;
      if disposed || terminal.Some? { return; }
      if check.CheckThrew? {
        Schedule();
        return;
      }
      if check.fileId != settings.fileId {
        GiveUp(FileIdChanged);
        return;
      }
      OpenSocket(Reconnect(Some(check.fileId)));
    }

    method Dispose()
      modifies this, saves
      ensures View() == Step(old(View()), Event.Dispose)
    {
      if disposed { return; }
      disposed := true;
      StopTimer();
      link := link.(synced := false);
      saves.AnswerAll(Rejected(HandleExpired));
      Enter(Closed);
    }
  }

  /** Cancelling the newest request restores the list, unless its id was in flight already. */
  lemma {:induction false} CancelledSelf(before: seq<nat>, id: nat)
    ensures Without(before + [id], id) == if id in before then Without(before, id) + [id] else before
  {
    if before != [] {
      CancelledSelf(before[1..], id);
      assert (before + [id])[1..] == before[1..] + [id];
      assert before == [before[0]] + before[1..];
    }
  }
}
