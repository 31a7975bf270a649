/** What the outputs of a run contain: everything the messages since the last clear produced, in order. */
module ReducerContents {
  import opened Options
  import opened Utf16
  import opened Outputs
  import opened Displays
  import opened Reducer
  import opened ReducerRuns

  // ---------------------------------------------------------------------------
  // what the messages ask for
  // ---------------------------------------------------------------------------

  predicate IsFailure(m: Msg) { m.ErrorMsg? || (m.Reply? && m.status.ReplyError?) }

  /** The output a message produces after the others; of all failures only the first does. */
  function Produces(before: seq<Msg>, m: Msg): Option<NbOutput> {
    match m
    case StreamMsg(name, text) => Some(Stream(name, text, []))
    case DisplayMsg(kind, content, _) => Some(OutputOf(kind, content))
    case ErrorMsg(failure) => if exists e :: e in before && IsFailure(e) then None else Some(ErrorOf(failure))
    case Reply(status, _, failure) =>
      if !status.ReplyError? || exists e :: e in before && IsFailure(e) then None else Some(ErrorOf(failure))
    case _ => None
  }

  /** The last clear waits for the next output. */
  predicate ClearWaits(ms: seq<Msg>) {
    ms != [] &&
    var before, m := ms[..|ms| - 1], ms[|ms| - 1];
    if m.ClearOutput? then m.wait else ClearWaits(before) && Produces(before, m).None?
  }

  /** Every output produced since the last clear that took effect, one for each message. */
  function Produced(ms: seq<Msg>): seq<NbOutput> {
    if ms == [] then []
    else
      var before, m := ms[..|ms| - 1], ms[|ms| - 1];
      if m.ClearOutput? && !m.wait then []
      else
        match Produces(before, m)
        case None => Produced(before)
        case Some(o) => (if ClearWaits(before) then [] else Produced(before)) + [o]
  }

  // ---------------------------------------------------------------------------
  // outputs up to the boundaries of stream chunks
  // ---------------------------------------------------------------------------

  /** One code unit of a stream, or an output of another kind. */
  datatype Piece = Char(name: StreamName, u: Unit) | Whole(output: NbOutput)

  function Chars(name: StreamName, text: Str): seq<Piece> {
    if text == [] then [] else Chars(name, text[..|text| - 1]) + [Char(name, text[|text| - 1])]
  }

  function PiecesOf(o: NbOutput): seq<Piece> { if o.Stream? then Chars(o.name, o.text) else [Whole(o)] }

  function Pieces(os: seq<NbOutput>): seq<Piece> {
    if os == [] then [] else Pieces(os[..|os| - 1]) + PiecesOf(os[|os| - 1])
  }

  lemma PiecesAdd(os: seq<NbOutput>, o: NbOutput)
    ensures Pieces(os + [o]) == Pieces(os) + PiecesOf(o)
  {
    assert (os + [o])[..|os|] == os;
  }

  lemma {:induction false} CharsConcat(name: StreamName, a: Str, b: Str)
    ensures Chars(name, a + b) == Chars(name, a) + Chars(name, b)
  {
    if b == [] {
      assert a + b == a;
    } else {
      assert (a + b)[..|a + b| - 1] == a + b[..|b| - 1];
      CharsConcat(name, a, b[..|b| - 1]);
    }
  }

  /** A chunk put at the end of the last stream, or next to it. */
  lemma PiecesExtend(os: seq<NbOutput>, name: StreamName, text: Str)
    requires os != [] && os[|os| - 1].Stream? && os[|os| - 1].name == name
    ensures Pieces(os[|os| - 1 := Stream(name, os[|os| - 1].text + text, [])]) == Pieces(os) + PiecesOf(Stream(name, text, []))
  {
    var at := |os| - 1;
    var longer := Stream(name, os[at].text + text, []);
    assert os[at := longer][..at] == os[..at];
    CharsConcat(name, os[at].text, text);
    hide Chars;
  }

  // ---------------------------------------------------------------------------
  // one message
  // ---------------------------------------------------------------------------

  /** An update finds an output of this area to replace. */
  predicate Rewrites(f: Fed, m: Msg) {
    m.UpdateDisplay? && m.id.Some?
    && exists x :: x in TargetsOf(f.t, m.id.value) && x.area == f.r.area && x.index < |f.r.out.outputs|
  }

  /** Unless something was dropped, the outputs hold what was produced, and no two streams of a name touch. */
  predicate Holds(r: State, ms: seq<Msg>) {
    && (r.life.errorSeen <==> exists e :: e in ms && IsFailure(e))
    && (!r.out.incomplete ==> Pieces(r.out.outputs) == Pieces(Produced(ms)) && r.out.clearPending == ClearWaits(ms))
  }

  lemma {:induction false} NothingRewritten(r: State, targets: seq<Target>, o: NbOutput)
    requires forall x | x in targets && x.area == r.area :: x.index >= |r.out.outputs|
    ensures UpdateTargets(r, targets, o).0 == r
  {
    if targets != [] {
      assert targets == targets[..|targets| - 1] + [targets[|targets| - 1]];
      NothingRewritten(r, targets[..|targets| - 1], o);
    }
  }

  lemma AddContents(r: State, t: Table, ms: seq<Msg>, m: Msg, o: NbOutput, id: Option<string>)
    requires !r.out.incomplete ==> Pieces(r.out.outputs) == Pieces(Produced(ms)) && r.out.clearPending == ClearWaits(ms)
    requires Produces(ms, m) == Some(o) && !m.ClearOutput?
    ensures var f := AddOutput(r, t, o, id);
      !f.r.out.incomplete ==> Pieces(f.r.out.outputs) == Pieces(Produced(ms + [m])) && f.r.out.clearPending == ClearWaits(ms + [m])
  {
    hide Size, WithTarget, Without, Produces, Pieces;
    assert (ms + [m])[..|ms|] == ms;
    PiecesAdd(r.out.outputs, o);
    PiecesAdd([], o);
    PiecesAdd(Produced(ms), o);
  }

  lemma StreamContents(r: State, t: Table, ms: seq<Msg>, name: StreamName, text: Str)
    requires Holds(r, ms)
    ensures var f := HandleStream(r, t, name, text); var m := StreamMsg(name, text);
      !f.r.out.incomplete ==> Pieces(f.r.out.outputs) == Pieces(Produced(ms + [m])) && f.r.out.clearPending == ClearWaits(ms + [m])
  {
    var m := StreamMsg(name, text);
    AddContents(r, t, ms, m, Stream(name, text, []), None);
    hide Size, AddOutput, Pieces, PiecesOf, IsFailure;
    if Merges(r.out, name) {
      assert (ms + [m])[..|ms|] == ms;
      PiecesExtend(r.out.outputs, name, text);
      PiecesAdd(Produced(ms), Stream(name, text, []));
    }
  }

  lemma ErrorContents(r: State, t: Table, ms: seq<Msg>, m: Msg, failure: Failure)
    requires Holds(r, ms) && IsFailure(m) && (m.ErrorMsg? ==> m.failure == failure) && (m.Reply? ==> m.failure == failure)
    ensures var f := HandleError(r, t, failure);
      !f.r.out.incomplete ==> Pieces(f.r.out.outputs) == Pieces(Produced(ms + [m])) && f.r.out.clearPending == ClearWaits(ms + [m])
  {
    hide AddOutput, Pieces;
    assert (ms + [m])[..|ms|] == ms;
    if !r.life.errorSeen {
      AddContents(r.(life := Blamed(r.life, failure)), t, ms, m, ErrorOf(failure), None);
    }
  }

  /** A message that produces nothing and clears nothing. */
  lemma QuietContents(ms: seq<Msg>, m: Msg)
    requires Produces(ms, m).None? && !m.ClearOutput?
    ensures Produced(ms + [m]) == Produced(ms) && ClearWaits(ms + [m]) == ClearWaits(ms)
  {
    hide Produces;
    assert (ms + [m])[..|ms|] == ms;
  }

  lemma ClearContents(ms: seq<Msg>, wait: bool)
    ensures Produced(ms + [ClearOutput(wait)]) == (if wait then Produced(ms) else []) && ClearWaits(ms + [ClearOutput(wait)]) == wait
  {
    assert (ms + [ClearOutput(wait)])[..|ms|] == ms;
  }

  lemma ReplyContents(r: State, t: Table, ms: seq<Msg>, status: ReplyStatus, count: Option<int>, failure: Failure)
    requires Holds(r, ms)
    ensures var f := ReplyCore(r, t, status, count, failure); var m := Reply(status, count, failure);
      !f.r.out.incomplete ==> Pieces(f.r.out.outputs) == Pieces(Produced(ms + [m])) && f.r.out.clearPending == ClearWaits(ms + [m])
  {
    hide HandleError, Pieces, Produced, ClearWaits;
    var r1 := r.(life := Replied(r.life, count));
    var m := Reply(status, count, failure);
    if status.ReplyError? {
      ErrorContents(r1, t, ms, m, failure);
    } else {
      QuietContents(ms, m);
    }
  }

  /** Which failures were seen. */
  lemma FailureSeen(r: State, t: Table, ms: seq<Msg>, m: Msg)
    requires r.life.errorSeen <==> exists e :: e in ms && IsFailure(e)
    ensures Feed(r, t, m).r.life.errorSeen <==> exists e :: e in ms + [m] && IsFailure(e)
  {
    FeedLifecycle(r, t, m);
    hide Feed;
    if IsFailure(m) {
      assert m in ms + [m];
    } else if e :| e in ms && IsFailure(e) {
      assert e in ms + [m];
    }
  }

  lemma FeedContents(r: State, t: Table, ms: seq<Msg>, m: Msg)
    requires Holds(r, ms) && !Rewrites(Fed(r, t, []), m)
    ensures Holds(Feed(r, t, m).r, ms + [m])
  {
    FailureSeen(r, t, ms, m);
    hide AddOutput, HandleStream, UpdateTargets, HandleError, ReplyCore, Pieces, Produced, ClearWaits, Without;
    match m
    case StreamMsg(name, text) => StreamContents(r, t, ms, name, text);
    case DisplayMsg(kind, content, id) => AddContents(r, t, ms, m, OutputOf(kind, content), id);
    case UpdateDisplay(content, id) =>
      QuietContents(ms, m);
      if id.Some? { NothingRewritten(r, TargetsOf(t, id.value), OutputOf(DisplayData, content)); }
    case ErrorMsg(failure) => ErrorContents(r, t, ms, m, failure);
    case ClearOutput(wait) =>
      ClearContents(ms, wait);
      assert Pieces([]) == [] by { PiecesEmpty(); }
    case Reply(status, count, failure) => ReplyContents(r, t, ms, status, count, failure);
    case _ => QuietContents(ms, m);
  }

  lemma PiecesEmpty()
    ensures Pieces([]) == []
  {
  }

  /** With everything replaced that could be: exactly the own outputs registered under the id. */
  lemma {:induction false} TargetsReplaced(r: State, targets: seq<Target>, o: NbOutput)
    requires !UpdateTargets(r, targets, o).0.out.incomplete
    ensures var a, b := r.out.outputs, UpdateTargets(r, targets, o).0.out.outputs;
      |b| == |a| && forall i | 0 <= i < |a| :: b[i] == if Target(r.area, i) in targets then o else a[i]
  {
    if targets != [] {
      var init, last := targets[..|targets| - 1], targets[|targets| - 1];
      assert targets == init + [last];
      UpdateTargetsFrame(r, init, o);
      TargetsReplaced(r, init, o);
      hide Size;
    }
  }

  /** An update that loses nothing to the budget replaces exactly the own outputs registered under its id. */
  lemma UpdateReplaces(r: State, t: Table, content: Content, id: string)
    requires !Feed(r, t, UpdateDisplay(content, Some(id))).r.out.incomplete
    ensures var a, b := r.out.outputs, Feed(r, t, UpdateDisplay(content, Some(id))).r.out.outputs;
      |b| == |a| && forall i | 0 <= i < |a| ::
        b[i] == if Target(r.area, i) in TargetsOf(t, id) then OutputOf(DisplayData, content) else a[i]
  {
    hide UpdateTargets, TargetsOf;
    TargetsReplaced(r, TargetsOf(t, id), OutputOf(DisplayData, content));
  }

  // ---------------------------------------------------------------------------
  // whole runs
  // ---------------------------------------------------------------------------

  lemma FeedNext(r: State, t: Table, ms: seq<Msg>, k: nat)
    requires k < |ms|
    ensures ms[..k + 1] == ms[..k] + [ms[k]]
    ensures var f := FeedAll(r, t, ms[..k]); FeedAll(r, t, ms[..k + 1]).r == Feed(f.r, f.t, ms[k]).r
  {
    assert ms[..k + 1][..k] == ms[..k] && ms[..k + 1][k] == ms[k];
  }

  lemma {:induction false} ContentsUpTo(area: Area, budget: Option<nat>, t: Table, ms: seq<Msg>, k: nat)
    requires k <= |ms| && forall j | 0 <= j < k :: !Rewrites(FeedAll(Fresh(area, budget), t, ms[..j]), ms[j])
    ensures Holds(FeedAll(Fresh(area, budget), t, ms[..k]).r, ms[..k])
  {
    if k == 0 {
      assert ms[..0] == [];
      PiecesEmpty();
    } else {
      hide Feed, FeedAll, Holds, Rewrites;
      ContentsUpTo(area, budget, t, ms, k - 1);
      var f := FeedAll(Fresh(area, budget), t, ms[..k - 1]);
      SameRewrites(f, ms[k - 1]);
      FeedContents(f.r, f.t, ms[..k - 1], ms[k - 1]);
      FeedNext(Fresh(area, budget), t, ms, k - 1);
    }
  }

  /**
   * For every message list in which no update finds an output to replace: unless output was dropped, the
   * stored outputs are, chunk boundaries aside, what the messages since the last clear that took effect
   * produced, in their order.
   */
  lemma ContentsOfRun(area: Area, budget: Option<nat>, t: Table, ms: seq<Msg>)
    requires forall k | 0 <= k < |ms| :: !Rewrites(FeedAll(Fresh(area, budget), t, ms[..k]), ms[k])
    ensures var out := FeedAll(Fresh(area, budget), t, ms).r.out;
      !out.incomplete ==> Pieces(out.outputs) == Pieces(Produced(ms)) && out.clearPending == ClearWaits(ms)
  {
    hide FeedAll, Pieces, Produced, Rewrites, ClearWaits;
    ContentsUpTo(area, budget, t, ms, |ms|);
    assert ms[..|ms|] == ms;
  }

  lemma SameRewrites(f: Fed, m: Msg)
    ensures Rewrites(f, m) == Rewrites(Fed(f.r, f.t, []), m)
  {
  }

  /** The text of one stream. */
  function StreamText(os: seq<NbOutput>, name: StreamName): Str {
    if os == [] then []
    else
      var o := os[|os| - 1];
      StreamText(os[..|os| - 1], name) + (if o.Stream? && o.name == name then o.text else [])
  }

  /** The outputs that are no streams. */
  function Others(os: seq<NbOutput>): seq<NbOutput> {
    if os == [] then [] else Others(os[..|os| - 1]) + (if os[|os| - 1].Stream? then [] else [os[|os| - 1]])
  }

  function Units(ps: seq<Piece>, name: StreamName): Str {
    if ps == [] then []
    else
      var p := ps[|ps| - 1];
      Units(ps[..|ps| - 1], name) + (if p.Char? && p.name == name then [p.u] else [])
  }

  function Wholes(ps: seq<Piece>): seq<NbOutput> {
    if ps == [] then [] else Wholes(ps[..|ps| - 1]) + (if ps[|ps| - 1].Whole? then [ps[|ps| - 1].output] else [])
  }

  lemma {:induction false} PieceParts(a: seq<Piece>, b: seq<Piece>, name: StreamName)
    ensures Units(a + b, name) == Units(a, name) + Units(b, name) && Wholes(a + b) == Wholes(a) + Wholes(b)
  {
    if b == [] {
      assert a + b == a;
    } else {
      assert (a + b)[..|a + b| - 1] == a + b[..|b| - 1];
      PieceParts(a, b[..|b| - 1], name);
    }
  }

  lemma {:induction false} ChunkParts(n: StreamName, text: Str, name: StreamName)
    ensures Units(Chars(n, text), name) == (if n == name then text else []) && Wholes(Chars(n, text)) == []
  {
    if text != [] {
      var init, last := text[..|text| - 1], Char(n, text[|text| - 1]);
      ChunkParts(n, init, name);
      PieceParts(Chars(n, init), [last], name);
      assert [last][..0] == [];
    }
  }

  lemma {:induction false} PartsOfPieces(os: seq<NbOutput>, name: StreamName)
    ensures Units(Pieces(os), name) == StreamText(os, name) && Wholes(Pieces(os)) == Others(os)
  {
    if os != [] {
      var init, o := os[..|os| - 1], os[|os| - 1];
      PartsOfPieces(init, name);
      PieceParts(Pieces(init), PiecesOf(o), name);
      if o.Stream? {
        ChunkParts(o.name, o.text, name);
      } else {
        assert [Whole(o)][..0] == [];
      }
    }
  }

  /** In particular: the text of each stream, and all displays and errors, complete and in order. */
  lemma TextsOfRun(area: Area, budget: Option<nat>, t: Table, ms: seq<Msg>, name: StreamName)
    requires forall k | 0 <= k < |ms| :: !Rewrites(FeedAll(Fresh(area, budget), t, ms[..k]), ms[k])
    requires !FeedAll(Fresh(area, budget), t, ms).r.out.incomplete
    ensures var os := FeedAll(Fresh(area, budget), t, ms).r.out.outputs;
      StreamText(os, name) == StreamText(Produced(ms), name) && Others(os) == Others(Produced(ms))
  {
    hide FeedAll, Produced, Pieces;
    ContentsOfRun(area, budget, t, ms);
    PartsOfPieces(FeedAll(Fresh(area, budget), t, ms).r.out.outputs, name);
    PartsOfPieces(Produced(ms), name);
  }

  // ---------------------------------------------------------------------------
  // streams do not touch
  // ---------------------------------------------------------------------------

  predicate Apart(os: seq<NbOutput>) {
    forall i | 0 < i < |os| && os[i].Stream? && os[i - 1].Stream? :: os[i].name != os[i - 1].name
  }

  /** No display content is itself a stream. */
  predicate PosesAsStream(m: Msg) { (m.DisplayMsg? || m.UpdateDisplay?) && OutputOf(DisplayData, m.content).Stream? }

  lemma AddApart(r: State, t: Table, o: NbOutput, id: Option<string>)
    requires Apart(r.out.outputs) && (o.Stream? ==> !Merges(r.out, o.name))
    ensures Apart(AddOutput(r, t, o, id).r.out.outputs)
  {
    hide Size, WithTarget, Without;
  }

  lemma {:induction false} UpdateApart(r: State, targets: seq<Target>, o: NbOutput)
    requires Apart(r.out.outputs) && !o.Stream?
    ensures Apart(UpdateTargets(r, targets, o).0.out.outputs)
  {
    if targets != [] { UpdateApart(r, targets[..|targets| - 1], o); }
  }

  lemma FeedApart(r: State, t: Table, m: Msg)
    requires Apart(r.out.outputs) && !PosesAsStream(m)
    ensures Apart(Feed(r, t, m).r.out.outputs)
  {
    hide AddOutput, UpdateTargets, Without, Size;
    match m
    case StreamMsg(name, text) => if !Merges(r.out, name) { AddApart(r, t, Stream(name, text, []), None); }
    case DisplayMsg(kind, content, id) => AddApart(r, t, OutputOf(kind, content), id);
    case UpdateDisplay(content, id) =>
      if id.Some? { UpdateApart(r, TargetsOf(t, id.value), OutputOf(DisplayData, content)); }
    case ErrorMsg(failure) => AddApart(r.(life := Blamed(r.life, failure)), t, ErrorOf(failure), None);
    case Reply(status, count, failure) =>
      AddApart(r.(life := Blamed(Replied(r.life, count), failure)), t, ErrorOf(failure), None);
    case _ =>
  }

  /** Two neighbouring outputs are never streams of one name, unless a display posed as one. */
  lemma {:induction false} StreamsApart(area: Area, budget: Option<nat>, t: Table, ms: seq<Msg>)
    requires forall m | m in ms :: !PosesAsStream(m)
    ensures Apart(FeedAll(Fresh(area, budget), t, ms).r.out.outputs)
  {
    if ms != [] {
      hide Feed, PosesAsStream;
      var init, m := ms[..|ms| - 1], ms[|ms| - 1];
      StreamsApart(area, budget, t, init);
      var f := FeedAll(Fresh(area, budget), t, init);
      FeedApart(f.r, f.t, m);
    }
  }
}
