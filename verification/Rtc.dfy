/** One collaboration-room connection with its pending saves, and what each signal does to it. */
module Rtc {
  import opened Options

  // ---------------------------------------------------------------------------
  // close codes
  // ---------------------------------------------------------------------------

  datatype ErrorCode =
    | RtcSessionRejected | RtcInitializationFailed | NotebookNotFound | RtcBadRequest
    | RtcConflict | FileIdChanged | OperationUncertain | HandleExpired | NotReady

  datatype Rejection = UnknownSession | VersionMismatch | InitializationError

  datatype Disposition = Terminal(error: ErrorCode) | InitRetry | Transient

  /** The reason of a 1003 close is JSON; `rejection` is what could be recognised in it. */
  function ClassifyClose(code: int, rejection: Option<Rejection>): Disposition {
    if code == 1003 then
      (if rejection == Some(UnknownSession) || rejection == Some(VersionMismatch) then Terminal(RtcSessionRejected)
       else Terminal(RtcInitializationFailed))
    else if code == 4404 then Terminal(NotebookNotFound)
    else if code == 4400 then Terminal(RtcBadRequest)
    else if code == 4500 then InitRetry
    else if 4400 <= code < 4500 then Terminal(RtcBadRequest)
    else Transient
  }

  // ---------------------------------------------------------------------------
  // saves
  // ---------------------------------------------------------------------------

  datatype SaveStatus = Success | Skipped | FailedSave | Timeout

  datatype Answer = Resolved(status: SaveStatus) | Rejected(error: ErrorCode)

  /** What a save was told; the log is not read. */
  datatype Settled = Settled(id: nat, answer: Answer)

  /** `pending` lists the requests in flight, oldest first. */
  datatype Saves = Saves(pending: seq<nat>, counter: nat, settled: seq<Settled>)

  function CreateSave(s: Saves): Saves {
    s.(pending := s.pending + [s.counter + 1], counter := s.counter + 1)
  }

  function Without(ids: seq<nat>, id: nat): seq<nat> {
    if ids == [] then [] else if ids[0] == id then ids[1..] else [ids[0]] + Without(ids[1..], id)
  }

  function SettleSave(s: Saves, id: nat, answer: Answer): Saves {
    if id !in s.pending then s else s.(pending := Without(s.pending, id), settled := s.settled + [Settled(id, answer)])
  }

  function CancelSave(s: Saves, id: nat): Saves { s.(pending := Without(s.pending, id)) }

  function AnswerEach(ids: seq<nat>, answer: Answer): seq<Settled> {
    seq(|ids|, k requires 0 <= k < |ids| => Settled(ids[k], answer))
  }

  /** Everything in flight gets the same answer. */
  function SettleAll(s: Saves, answer: Answer): Saves {
    s.(pending := [], settled := s.settled + AnswerEach(s.pending, answer))
  }

  // ---------------------------------------------------------------------------
  // the connection
  // ---------------------------------------------------------------------------

  datatype ConnectionState = Connecting | Syncing | Ready | Reconnecting | Conflict | Failed | Closed

  /** A state change, with what was pending and whether the replica counted as in sync at that moment. */
  datatype Entry = Entry(state: ConnectionState, pending: seq<nat>, synced: bool)

  type FileId = nat

  /** Why the socket was opened. */
  datatype Opening = Requested | Reconnect(confirmed: Option<FileId>)

  /** What has happened, and the timers the runtime holds; nothing reads it. */
  datatype Trace = Trace(entries: seq<Entry>, openings: seq<Opening>, timers: set<nat>, nextTimer: nat)

  /** `hook` is whether the notebook layer can re-check the file id. */
  datatype Settings = Settings(fileId: FileId, hook: bool, budget: nat)

  datatype Link = Link(state: ConnectionState, synced: bool, initRetries: nat, generation: nat, attempts: nat)

  /** `checks` counts re-checks of the file id that have not answered. */
  datatype Conn = Conn(
    settings: Settings,
    link: Link,
    terminal: Option<ErrorCode>,
    disposed: bool,
    timer: Option<nat>,
    checks: nat,
    saves: Saves,
    trace: Trace)

  datatype Check = Actual(fileId: FileId) | CheckThrew

  datatype SocketStatus = SocketConnecting | SocketConnected | SocketDisconnected

  datatype CloseFrame = CloseFrame(code: int, rejection: Option<Rejection>)

  datatype Event =
    | Connect
    | Status(status: SocketStatus)
    | Sync(synced: bool)
    | Close(frame: Option<CloseFrame>)
    | RawConflict
    | SaveReply(id: nat, reply: SaveStatus)
    | SaveTimeout(id: nat)
    | Save(socketOpen: bool, sendThrows: bool)
    | TimerFired(timer: nat)
    | Checked(check: Check)
    | Dispose

  function SetState(c: Conn, next: ConnectionState): Conn {
    if c.link.state == next then c
    else c.(link := c.link.(state := next), trace := c.trace.(entries := c.trace.entries + [Entry(next, c.saves.pending, c.link.synced)]))
  }

  function ClearTimer(c: Conn): Conn {
    match c.timer
    case None => c
    case Some(t) => c.(timer := None, trace := c.trace.(timers := c.trace.timers - {t}))
  }

  /** The first terminal error wins; every pending save fails before the state is announced. */
  function Fail(c: Conn, error: ErrorCode): Conn {
    if c.terminal.Some? then c
    else
      var c1 := ClearTimer(c.(terminal := Some(error), link := c.link.(synced := false)));
      SetState(c1.(saves := SettleAll(c1.saves, Rejected(OperationUncertain))), Failed)
  }

  predicate Over(c: Conn) { c.disposed || c.terminal.Some? }

  function ScheduleReconnect(c: Conn): Conn {
    if Over(c) || c.timer.Some? then c
    else
      var t := c.trace.nextTimer;
      c.(link := c.link.(attempts := c.link.attempts + 1), timer := Some(t),
         trace := c.trace.(timers := c.trace.timers + {t}, nextTimer := t + 1))
  }

  function EnterReconnecting(c: Conn): Conn {
    ScheduleReconnect(SetState(c.(saves := SettleAll(c.saves, Resolved(Timeout))), Reconnecting))
  }

  function Open(c: Conn, opening: Opening): Conn { c.(trace := c.trace.(openings := c.trace.openings + [opening])) }

  function OnConnect(c: Conn): Conn { if Over(c) || c.link.state.Ready? then c else Open(c, Requested) }

  function OnStatus(c: Conn, status: SocketStatus): Conn {
    if Over(c) then c
    else
      match status
      case SocketConnecting => if c.link.state.Reconnecting? then c else SetState(c, Connecting)
      case SocketConnected => SetState(c.(link := c.link.(generation := c.link.generation + 1)), Syncing)
      case SocketDisconnected => c
  }

  function OnSync(c: Conn, synced: bool): Conn {
    if c.disposed then c
    else
      var c1 := c.(link := c.link.(synced := synced));
      if c.terminal.Some? || !synced then c1 else SetState(c1.(link := c1.link.(initRetries := 0, attempts := 0)), Ready)
  }

  function OnClose(c: Conn, frame: Option<CloseFrame>): Conn {
    if Over(c) then c
    else
      var c1 := c.(link := c.link.(synced := false));
      if frame.None? then EnterReconnecting(c1)
      else
        match ClassifyClose(frame.value.code, frame.value.rejection)
        case Terminal(error) => Fail(c1, error)
        case Transient => EnterReconnecting(c1)
        case InitRetry =>
          var c2 := c1.(link := c1.link.(initRetries := c1.link.initRetries + 1));
          if c2.link.initRetries > c2.settings.budget then Fail(c2, RtcInitializationFailed) else EnterReconnecting(c2)
  }

  /** The conflict branch is not guarded: the state is passed through even after a failure. */
  function OnConflict(c: Conn): Conn { Fail(SetState(c, Conflict), RtcConflict) }

  function OnSave(c: Conn, socketOpen: bool, sendThrows: bool): Conn {
    if Over(c) || !c.link.state.Ready? || !socketOpen then c
    else
      var s := CreateSave(c.saves);
      c.(saves := if sendThrows then CancelSave(s, s.counter) else s)
  }

  function OnTimer(c: Conn, t: nat): Conn {
    if t !in c.trace.timers then c
    else
      var c1 := c.(timer := None, trace := c.trace.(timers := c.trace.timers - {t}));
      if Over(c1) then c1
      else if c1.settings.hook then c1.(checks := c1.checks + 1)
      else Open(c1, Reconnect(None))
  }

  /** The answer to one re-check; the connection may have ended while it was out. */
  function OnChecked(c: Conn, check: Check): Conn {
    if c.checks == 0 then c
    else
      var c1 := c.(checks := c.checks - 1);
      if Over(c1) then c1
      else
        match check
        case CheckThrew => ScheduleReconnect(c1)
        case Actual(fileId) => if fileId != c.settings.fileId then Fail(c1, FileIdChanged) else Open(c1, Reconnect(Some(fileId)))
  }

  function OnDispose(c: Conn): Conn {
    if c.disposed then c
    else
      var c1 := ClearTimer(c.(disposed := true, link := c.link.(synced := false)));
      SetState(c1.(saves := SettleAll(c1.saves, Rejected(HandleExpired))), Closed)
  }

  function Step(c: Conn, e: Event): Conn {
    match e
    case Connect => OnConnect(c)
    case Status(status) => OnStatus(c, status)
    case Sync(synced) => OnSync(c, synced)
    case Close(frame) => OnClose(c, frame)
    case RawConflict => OnConflict(c)
    case SaveReply(id, reply) => c.(saves := SettleSave(c.saves, id, Resolved(reply)))
    case SaveTimeout(id) => c.(saves := SettleSave(c.saves, id, Resolved(Timeout)))
    case Save(socketOpen, sendThrows) => OnSave(c, socketOpen, sendThrows)
    case TimerFired(t) => OnTimer(c, t)
    case Checked(check) => OnChecked(c, check)
    case Dispose => OnDispose(c)
  }

  function New(fileId: FileId, hook: bool, budget: nat): Conn {
    Conn(Settings(fileId, hook, budget), Link(Connecting, false, 0, 0, 0), None, false, None, 0, Saves([], 0, []), Trace([], [], {}, 0))
  }

  function Run(c: Conn, es: seq<Event>): Conn {
    if es == [] then c else Step(Run(c, es[..|es| - 1]), es[|es| - 1])
  }
}
