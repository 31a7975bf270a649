/** What every run of a room connection keeps. */
module RtcRuns {
  import opened Options
  import opened Rtc

  // ---------------------------------------------------------------------------
  // saves
  // ---------------------------------------------------------------------------

  /** Ids are handed out once, and a settled one is not pending and not settled again. */
  predicate SavesOk(s: Saves) {
    && (forall k | 0 <= k < |s.pending| :: 1 <= s.pending[k] <= s.counter)
    && (forall k, m | 0 <= k < m < |s.pending| :: s.pending[k] < s.pending[m])
    && (forall k | 0 <= k < |s.settled| :: 1 <= s.settled[k].id <= s.counter && s.settled[k].id !in s.pending)
    && (forall k, m | 0 <= k < m < |s.settled| :: s.settled[k].id != s.settled[m].id)
  }

  lemma {:induction false} WithoutIds(ids: seq<nat>, id: nat)
    requires forall k, m | 0 <= k < m < |ids| :: ids[k] < ids[m]
    ensures forall x :: x in Without(ids, id) <==> x in ids && x != id
    ensures forall k, m | 0 <= k < m < |Without(ids, id)| :: Without(ids, id)[k] < Without(ids, id)[m]
  {
    if ids != [] {
      WithoutIds(ids[1..], id);
      var rest := Without(ids[1..], id);
      assert Without(ids, id) == if ids[0] == id then ids[1..] else [ids[0]] + rest;
      hide Without;
      assert ids == [ids[0]] + ids[1..];
      assert forall x | x in ids[1..] :: ids[0] < x;
      assert forall k | 0 <= k < |rest| :: rest[k] in rest;
    }
  }

  lemma SettleAllKeeps(s: Saves, answer: Answer)
    requires SavesOk(s)
    ensures SavesOk(SettleAll(s, answer))
    ensures forall id | id in s.pending :: Settled(id, answer) in SettleAll(s, answer).settled
  {
    var t := SettleAll(s, answer);
    forall id | id in s.pending ensures Settled(id, answer) in t.settled {
      var k :| 0 <= k < |s.pending| && s.pending[k] == id;
      assert t.settled[|s.settled| + k] == Settled(id, answer);
    }
    assert forall k | |s.settled| <= k < |t.settled| :: t.settled[k].id == s.pending[k - |s.settled|];
  }

  lemma SettleSaveKeeps(s: Saves, id: nat, answer: Answer)
    requires SavesOk(s)
    ensures SavesOk(SettleSave(s, id, answer))
  {
    if id in s.pending {
      WithoutIds(s.pending, id);
      var t := SettleSave(s, id, answer);
      assert forall k | 0 <= k < |t.pending| :: t.pending[k] in t.pending;
    }
  }

  lemma CancelNewKeeps(s: Saves)
    requires SavesOk(s)
    ensures SavesOk(CreateSave(s)) && SavesOk(CancelSave(CreateSave(s), s.counter + 1))
  {
    var t := CreateSave(s);
    WithoutIds(t.pending, t.counter);
    var u := CancelSave(t, t.counter);
    assert forall k | 0 <= k < |u.pending| :: u.pending[k] in u.pending;
  }

  // ---------------------------------------------------------------------------
  // the invariant
  // ---------------------------------------------------------------------------

  /** The runtime holds exactly the timer the connection knows about. */
  predicate TimerOk(c: Conn) {
    && c.trace.timers == (if c.timer.Some? then {c.timer.value} else {})
    && (c.timer.Some? ==> c.timer.value < c.trace.nextTimer)
    && (Over(c) ==> c.timer.None?)
  }

  predicate Ends(state: ConnectionState) { state.Reconnecting? || state.Failed? || state.Closed? }

  /** Nothing was pending and the replica was not in sync on entry to an unusable state. */
  predicate EntriesOk(c: Conn) {
    forall k | 0 <= k < |c.trace.entries| && Ends(c.trace.entries[k].state) ::
      c.trace.entries[k].pending == [] && !c.trace.entries[k].synced
  }

  /** With a hook, a reconnect carries a confirmation of this file id. */
  predicate OpeningsOk(c: Conn) {
    forall k | 0 <= k < |c.trace.openings| && c.trace.openings[k].Reconnect? ::
      c.trace.openings[k].confirmed == if c.settings.hook then Some(c.settings.fileId) else None
  }

  predicate Inv(c: Conn) {
    SavesOk(c.saves) && TimerOk(c) && EntriesOk(c) && OpeningsOk(c)
    && (!Over(c) ==> c.link.initRetries <= c.settings.budget) && (c.checks > 0 ==> c.settings.hook)
  }

  lemma FailKeeps(c: Conn, error: ErrorCode)
    requires SavesOk(c.saves) && TimerOk(c) && EntriesOk(c) && OpeningsOk(c) && (c.checks > 0 ==> c.settings.hook)
    ensures Inv(Fail(c, error)) && Over(Fail(c, error))
  {
  }

  lemma ReconnectKeeps(c: Conn)
    requires Inv(c) && !c.link.synced
    ensures Inv(EnterReconnecting(c))
  {
  }

  lemma CloseKeeps(c: Conn, frame: Option<CloseFrame>)
    requires Inv(c)
    ensures Inv(OnClose(c, frame))
  {
    if !Over(c) {
      var c1 := c.(link := c.link.(synced := false));
      hide EnterReconnecting, Fail;
      if frame.None? {
        ReconnectKeeps(c1);
      } else {
        match ClassifyClose(frame.value.code, frame.value.rejection)
        case Terminal(error) => FailKeeps(c1, error);
        case Transient => ReconnectKeeps(c1);
        case InitRetry =>
          var c2 := c1.(link := c1.link.(initRetries := c1.link.initRetries + 1));
          if c2.link.initRetries > c2.settings.budget {
            FailKeeps(c2, RtcInitializationFailed);
          } else {
            ReconnectKeeps(c2);
          }
      }
    }
  }

  lemma DisposeKeeps(c: Conn)
    requires Inv(c)
    ensures Inv(OnDispose(c))
  {
  }

  lemma CheckedKeeps(c: Conn, check: Check)
    requires Inv(c)
    ensures Inv(OnChecked(c, check))
  {
    if c.checks > 0 && !Over(c) && check.Actual? && check.fileId != c.settings.fileId {
      FailKeeps(c.(checks := c.checks - 1), FileIdChanged);
    }
  }

  lemma ReplyKeeps(c: Conn, id: nat, answer: Answer)
    requires Inv(c)
    ensures Inv(c.(saves := SettleSave(c.saves, id, answer)))
  {
    hide SavesOk, SettleSave;
    SettleSaveKeeps(c.saves, id, answer);
  }

  lemma SaveKeeps(c: Conn, socketOpen: bool, sendThrows: bool)
    requires Inv(c)
    ensures Inv(OnSave(c, socketOpen, sendThrows))
  {
    CancelNewKeeps(c.saves);
    hide SavesOk, CancelSave;
  }

  lemma TimerKeeps(c: Conn, t: nat)
    requires Inv(c)
    ensures Inv(OnTimer(c, t))
  {
  }

  lemma SignalKeeps(c: Conn, e: Event)
    requires Inv(c) && (e.Status? || e.Sync? || e.Connect?)
    ensures Inv(Step(c, e))
  {
  }

  lemma StepKeeps(c: Conn, e: Event)
    requires Inv(c)
    ensures Inv(Step(c, e))
  {
    hide OnClose, Fail, OnDispose, OnChecked, OnSave, OnTimer, OnStatus, OnSync, OnConnect, SettleSave;
    match e
    case Close(frame) => CloseKeeps(c, frame);
    case RawConflict => FailKeeps(SetState(c, Conflict), RtcConflict);
    case Dispose => DisposeKeeps(c);
    case Checked(check) => CheckedKeeps(c, check);
    case SaveReply(id, reply) => ReplyKeeps(c, id, Resolved(reply));
    case SaveTimeout(id) => ReplyKeeps(c, id, Resolved(Timeout));
    case Save(socketOpen, sendThrows) => SaveKeeps(c, socketOpen, sendThrows);
    case TimerFired(t) => TimerKeeps(c, t);
    case _ => SignalKeeps(c, e);
  }

  lemma {:induction false} InvAlways(fileId: FileId, hook: bool, budget: nat, es: seq<Event>)
    ensures Inv(Run(New(fileId, hook, budget), es))
  {
    if es != [] {
      InvAlways(fileId, hook, budget, es[..|es| - 1]);
      hide Inv, Step;
      StepKeeps(Run(New(fileId, hook, budget), es[..|es| - 1]), es[|es| - 1]);
    }
  }

  // ---------------------------------------------------------------------------
  // what the connection promises
  // ---------------------------------------------------------------------------

  /** Every save is answered at most once, whatever replies, timeouts and losses arrive. */
  lemma SettledOnce(fileId: FileId, hook: bool, budget: nat, es: seq<Event>, k: nat, m: nat)
    requires var s := Run(New(fileId, hook, budget), es).saves.settled; k < m < |s|
    ensures var s := Run(New(fileId, hook, budget), es).saves.settled; s[k].id != s[m].id
  {
    hide Run, TimerOk, EntriesOk, OpeningsOk;
    InvAlways(fileId, hook, budget, es);
  }

  /** No save is left pending when the connection announces that it cannot answer it. */
  lemma NonePendingOnLoss(fileId: FileId, hook: bool, budget: nat, es: seq<Event>, k: nat)
    requires var entries := Run(New(fileId, hook, budget), es).trace.entries; k < |entries| && Ends(entries[k].state)
    ensures var entry := Run(New(fileId, hook, budget), es).trace.entries[k]; entry.pending == [] && !entry.synced
  {
    hide Run, TimerOk, SavesOk, OpeningsOk;
    InvAlways(fileId, hook, budget, es);
  }

  /** At most one reconnect timer runs, and none after failure or disposal. */
  lemma OneTimer(fileId: FileId, hook: bool, budget: nat, es: seq<Event>)
    ensures var c := Run(New(fileId, hook, budget), es);
      |c.trace.timers| <= 1 && (Over(c) ==> c.trace.timers == {})
  {
    hide Run, EntriesOk, SavesOk, OpeningsOk;
    InvAlways(fileId, hook, budget, es);
  }

  /** The settings of a connection never change. */
  lemma {:induction false} SameSettings(c: Conn, es: seq<Event>)
    ensures Run(c, es).settings == c.settings
  {
    if es != [] {
      SameSettings(c, es[..|es| - 1]);
    }
  }

  /** With a hook, the socket is only reopened after the file id was confirmed. */
  lemma ReconnectIsConfirmed(fileId: FileId, budget: nat, es: seq<Event>, k: nat)
    requires var openings := Run(New(fileId, true, budget), es).trace.openings; k < |openings| && openings[k].Reconnect?
    ensures Run(New(fileId, true, budget), es).trace.openings[k].confirmed == Some(fileId)
  {
    hide Run, EntriesOk, SavesOk, TimerOk;
    InvAlways(fileId, true, budget, es);
    SameSettings(New(fileId, true, budget), es);
  }

  /** The terminal error is written once. */
  lemma {:induction false} TerminalIsFinal(c: Conn, es: seq<Event>)
    requires c.terminal.Some?
    ensures Run(c, es).terminal == c.terminal
  {
    if es != [] {
      TerminalIsFinal(c, es[..|es| - 1]);
    }
  }

  /** The state is not: a conflict message that comes in late is still passed through. */
  lemma LateConflictShows(fileId: FileId, hook: bool, budget: nat)
    ensures var c := Run(New(fileId, hook, budget), [Close(Some(CloseFrame(4404, None))), RawConflict]);
      c.terminal == Some(NotebookNotFound) && c.link.state == Conflict
  {
    var es := [Close(Some(CloseFrame(4404, None))), RawConflict];
    var c := New(fileId, hook, budget);
    assert es[..1] == [es[0]] && es[..1][..0] == [];
    assert Run(c, es[..1]) == Step(c, es[0]);
    assert Run(c, es) == Step(Step(c, es[0]), es[1]);
    assert c.saves.pending == [];
  }

  lemma {:induction false} FailedIsTerminal(fileId: FileId, hook: bool, budget: nat, es: seq<Event>)
    ensures var c := Run(New(fileId, hook, budget), es); c.link.state.Failed? ==> c.terminal.Some?
  {
    if es != [] {
      FailedIsTerminal(fileId, hook, budget, es[..|es| - 1]);
      FailedStep(Run(New(fileId, hook, budget), es[..|es| - 1]), es[|es| - 1]);
      hide Step;
    }
  }

  lemma FailedStep(c: Conn, e: Event)
    requires c.link.state.Failed? ==> c.terminal.Some?
    ensures Step(c, e).link.state.Failed? ==> Step(c, e).terminal.Some?
  {
    hide SettleAll, ClassifyClose, SettleSave;
  }

  /** The events a failed connection does not survive as failed: a late conflict, and the first disposal. */
  predicate EndsFailure(c: Conn, e: Event) { e.RawConflict? || (e.Dispose? && !c.disposed) }

  lemma FailureEnds(c: Conn, e: Event)
    requires c.link.state.Failed? && c.terminal.Some?
    ensures Step(c, e).link.state != Failed <==> EndsFailure(c, e)
    ensures !EndsFailure(c, e) ==> Step(c, e).disposed == c.disposed
  {
    hide SettleAll, ClassifyClose, SettleSave;
  }

  lemma RunConcat(c: Conn, a: seq<Event>, b: seq<Event>, k: nat)
    requires k < |b|
    ensures Run(c, a + b[..k + 1]) == Step(Run(c, a + b[..k]), b[k])
  {
    hide Step;
    assert (a + b[..k + 1])[..|a| + k] == a + b[..k];
  }

  lemma {:induction false} FailedUpTo(fileId: FileId, hook: bool, budget: nat, es: seq<Event>, more: seq<Event>, k: nat)
    requires Run(New(fileId, hook, budget), es).link.state.Failed? && k <= |more|
    requires forall j | 0 <= j < k :: !EndsFailure(Run(New(fileId, hook, budget), es), more[j])
    ensures var c := Run(New(fileId, hook, budget), es + more[..k]);
      c.link.state.Failed? && c.disposed == Run(New(fileId, hook, budget), es).disposed
  {
    if k == 0 {
      assert es + more[..0] == es;
    } else {
      FailedUpTo(fileId, hook, budget, es, more, k - 1);
      RunConcat(New(fileId, hook, budget), es, more, k - 1);
      FailedIsTerminal(fileId, hook, budget, es + more[..k - 1]);
      hide Step, Run;
      FailureEnds(Run(New(fileId, hook, budget), es + more[..k - 1]), more[k - 1]);
    }
  }

  /** In every run a failed connection stays failed exactly until a conflict message or its first disposal. */
  lemma FailedStays(fileId: FileId, hook: bool, budget: nat, es: seq<Event>, more: seq<Event>)
    requires Run(New(fileId, hook, budget), es).link.state.Failed?
    ensures (forall k | 0 <= k <= |more| :: Run(New(fileId, hook, budget), es + more[..k]).link.state.Failed?)
       <==> (forall k | 0 <= k < |more| :: !EndsFailure(Run(New(fileId, hook, budget), es), more[k]))
  {
    hide Step, Run, EndsFailure;
    var c := Run(New(fileId, hook, budget), es);
    if forall k | 0 <= k < |more| :: !EndsFailure(c, more[k]) {
      forall k | 0 <= k <= |more| ensures Run(New(fileId, hook, budget), es + more[..k]).link.state.Failed? {
        FailedUpTo(fileId, hook, budget, es, more, k);
      }
    } else {
      var k := FirstEnd(c, more);
      FailedUpTo(fileId, hook, budget, es, more, k);
      var before := Run(New(fileId, hook, budget), es + more[..k]);
      FailedIsTerminal(fileId, hook, budget, es + more[..k]);
      FailureEnds(before, more[k]);
      SameEnds(before, c, more[k]);
      RunConcat(New(fileId, hook, budget), es, more, k);
      assert !Run(New(fileId, hook, budget), es + more[..k + 1]).link.state.Failed?;
    }
  }

  lemma SameEnds(c: Conn, d: Conn, e: Event)
    requires c.disposed == d.disposed
    ensures EndsFailure(c, e) == EndsFailure(d, e)
  {
  }

  lemma {:induction false} FirstEnd(c: Conn, more: seq<Event>) returns (k: nat)
    requires exists k :: 0 <= k < |more| && EndsFailure(c, more[k])
    ensures k < |more| && EndsFailure(c, more[k]) && forall j | 0 <= j < k :: !EndsFailure(c, more[j])
  {
    if EndsFailure(c, more[0]) {
      k := 0;
    } else {
      hide EndsFailure;
      var m :| 0 <= m < |more| && EndsFailure(c, more[m]);
      assert more[1..][m - 1] == more[m];
      var rest := FirstEnd(c, more[1..]);
      k := rest + 1;
      forall j | 0 <= j < k ensures !EndsFailure(c, more[j]) {
        assert j > 0 ==> more[j] == more[1..][j - 1];
      }
    }
  }

  // -- the initialisation budget -------------------------------------------------------

  predicate IsInitClose(e: Event) { e.Close? && e.frame.Some? && e.frame.value.code == 4500 }

  /** Closes with 4500 since the last completed sync. */
  function InitCloses(es: seq<Event>): nat {
    if es == [] then 0
    else
      var last := es[|es| - 1];
      if last == Sync(true) then 0 else InitCloses(es[..|es| - 1]) + if IsInitClose(last) then 1 else 0
  }

  lemma {:induction false} CountsInitCloses(fileId: FileId, hook: bool, budget: nat, es: seq<Event>)
    requires !Over(Run(New(fileId, hook, budget), es))
    ensures Run(New(fileId, hook, budget), es).link.initRetries == InitCloses(es)
  {
    if es != [] {
      CountsInitCloses(fileId, hook, budget, es[..|es| - 1]);
      hide Step;
    }
  }

  /** Initialisation is given up exactly at the close that exceeds the budget since the last sync. */
  lemma FailsAtBudget(fileId: FileId, hook: bool, budget: nat, es: seq<Event>, rejection: Option<Rejection>)
    requires !Over(Run(New(fileId, hook, budget), es))
    ensures InitCloses(es) <= budget
    ensures var c := Step(Run(New(fileId, hook, budget), es), Close(Some(CloseFrame(4500, rejection))));
      if InitCloses(es) == budget then c.terminal == Some(RtcInitializationFailed) && c.link.state == Failed
      else c.terminal == None && c.link.state == Reconnecting && c.timer.Some?
  {
    CountsInitCloses(fileId, hook, budget, es);
    InvAlways(fileId, hook, budget, es);
    SameSettings(New(fileId, hook, budget), es);
    var c := Run(New(fileId, hook, budget), es);
    hide Run, SettleAll, EntriesOk, SavesOk, OpeningsOk;
  }

  // ---------------------------------------------------------------------------
  // why a connection failed
  // ---------------------------------------------------------------------------

  /** The event ends the connection with this error. */
  predicate Causes(c: Conn, e: Event, error: ErrorCode) {
    match e
    case RawConflict => c.terminal.None? && error == RtcConflict
    case Checked(Actual(fileId)) => !Over(c) && c.checks > 0 && fileId != c.settings.fileId && error == FileIdChanged
    case Close(Some(frame)) =>
      && !Over(c)
      && (match error
          case RtcSessionRejected => frame.code == 1003 && (frame.rejection == Some(UnknownSession) || frame.rejection == Some(VersionMismatch))
          case RtcInitializationFailed =>
            || (frame.code == 1003 && (frame.rejection.None? || frame.rejection.value.InitializationError?))
            || (frame.code == 4500 && c.link.initRetries >= c.settings.budget)
          case NotebookNotFound => frame.code == 4404
          case RtcBadRequest => 4400 <= frame.code < 4500 && frame.code != 4404
          case _ => false)
    case _ => false
  }

  lemma CauseStep(c: Conn, e: Event, error: ErrorCode)
    ensures Step(c, e).terminal == Some(error) <==> c.terminal == Some(error) || (c.terminal.None? && Causes(c, e, error))
  {
    match e
    case Close(frame) =>
    case Checked(check) =>
    case RawConflict =>
    case Dispose =>
    case TimerFired(_) =>
    case _ =>
  }

  /** In any run: the error a connection ends with is that of the first event that had a cause to end it. */
  lemma {:induction false} FailureExplained(fileId: FileId, hook: bool, budget: nat, es: seq<Event>, error: ErrorCode)
    ensures var c := New(fileId, hook, budget);
      Run(c, es).terminal == Some(error)
      <==> exists k: nat :: k < |es| && Run(c, es[..k]).terminal.None? && Causes(Run(c, es[..k]), es[k], error)
  {
    hide Step, Causes;
    var c := New(fileId, hook, budget);
    if es != [] {
      var init, e := es[..|es| - 1], es[|es| - 1];
      FailureExplained(fileId, hook, budget, init, error);
      CauseStep(Run(c, init), e, error);
      if Run(c, init).terminal == Some(error) {
        var k: nat :| k < |init| && Run(c, init[..k]).terminal.None? && Causes(Run(c, init[..k]), init[k], error);
        assert init[..k] == es[..k] && init[k] == es[k];
      } else if Run(c, es).terminal == Some(error) {
        assert es[..|init|] == init && Causes(Run(c, es[..|init|]), es[|init|], error);
      }
      if k: nat :| k < |es| && Run(c, es[..k]).terminal.None? && Causes(Run(c, es[..k]), es[k], error) {
        if k < |init| {
          assert init[..k] == es[..k] && init[k] == es[k];
        } else {
          assert es[..k] == init;
        }
      }
    }
  }
}
