/** nbformat outputs, the kernel messages that produce them, and the commands for an output area. */
module Outputs {
  import opened Options
  import opened Utf16
  import opened JsonText

  /** One output area of one cell, pinned to the generation that owns it. */
  datatype Area = Area(notebook: string, cell: string, identity: string, generation: nat)

  /** One output inside an area. */
  datatype Target = Target(area: Area, index: nat)

  datatype StreamName = Stdout | Stderr

  datatype DisplayKind = ExecuteResult | DisplayData

  /**
   * `extra` and `body` are the JSON texts of the members this layer never looks at, each
   * starting with a comma unless empty. A stream built here has no `extra`.
   */
  datatype NbOutput =
    | Stream(name: StreamName, text: Str, extra: Str)
    | Display(kind: DisplayKind, body: Str)
    | Error(ename: Str, evalue: Str, traceback: seq<Str>)

  /**
   * The `content` of a display message. Its members are spread after `output_type`, so a
   * content with an `output_type` of its own decides what the stored output is.
   */
  datatype Content = Body(text: Str) | Override(output: NbOutput)

  function OutputOf(kind: DisplayKind, content: Content): NbOutput {
    match content
    case Body(text) => Display(kind, text)
    case Override(o) => o
  }

  datatype ReplyStatus = ReplyOk | ReplyError | ReplyAborted

  datatype Failure = Failure(ename: Option<Str>, evalue: Option<Str>, traceback: seq<Str>)

  /** One message of the execution, with the fields the reducer reads. */
  datatype Msg =
    | ExecuteInput(count: Option<int>)
    | StreamMsg(name: StreamName, text: Str)
    | DisplayMsg(kind: DisplayKind, content: Content, id: Option<string>)
    | UpdateDisplay(content: Content, id: Option<string>)
    | ErrorMsg(failure: Failure)
    | ClearOutput(wait: bool)
    | Status(idle: bool)
    | Reply(status: ReplyStatus, count: Option<int>, failure: Failure)
    | Other

  datatype RunStatus = Running | Ok | Failed | Aborted

  /** Commands for an output sink. */
  datatype Effect =
    | Append(area: Area, output: NbOutput)
    | AppendStream(target: Target, text: Str)
    | Update(target: Target, output: NbOutput)
    | Replace(area: Area, outputs: seq<NbOutput>)
    | Clear(area: Area)
    | SetCount(area: Area, count: Option<int>)
    | SetIdle(area: Area)
    | Complete(area: Area, status: RunStatus, count: Option<int>, errorName: Option<Str>)

  // -- sizes: `JSON.stringify(output).length` -----------------------------------

  /** `{"output_type":"stream","name":"stdout","text":""}` */
  const STREAM_FRAME: nat := 50
  /** `{"output_type":"error","ename":"","evalue":"","traceback":[]}` */
  const ERROR_FRAME: nat := 61

  function DisplayFrame(kind: DisplayKind): nat {
    if kind.DisplayData? then 30 else 32
  }

  function TracebackSize(lines: seq<Str>): nat {
    if lines == [] then 0
    else |Quote(lines[0])| + (if |lines| == 1 then 0 else 1) + TracebackSize(lines[1..])
  }

  function Size(o: NbOutput): nat {
    match o
    case Stream(_, text, extra) => STREAM_FRAME + |QuoteBody(text)| + |extra|
    case Display(kind, body) => DisplayFrame(kind) + |body|
    case Error(ename, evalue, traceback) =>
      ERROR_FRAME + |QuoteBody(ename)| + |QuoteBody(evalue)| + TracebackSize(traceback)
  }

  function TotalSize(os: seq<NbOutput>): nat {
    if os == [] then 0 else TotalSize(os[..|os| - 1]) + Size(os[|os| - 1])
  }

  lemma {:induction false} TotalSizeUpdate(os: seq<NbOutput>, i: nat, o: NbOutput)
    requires i < |os|
    ensures TotalSize(os[i := o]) == TotalSize(os) - Size(os[i]) + Size(o)
  {
    var last := |os| - 1;
    if i == last {
      assert os[i := o][..last] == os[..last];
    } else {
      assert os[i := o][..last] == os[..last][i := o];
      TotalSizeUpdate(os[..last], i, o);
    }
  }
}
