/** Observed references over any sequence of staged responses. */
module ReferenceStages {
  import opened Options
  import opened Utf16
  import opened Literals
  import opened Wires
  import opened References
  import opened ReferenceTrips

  // ---------------------------------------------------------------------------
  // what a reference stands for
  // ---------------------------------------------------------------------------

  /** Joining with NUL is unambiguous when only the last part may contain one. */
  lemma {:induction false} JoinInjective(a: seq<Str>, b: seq<Str>)
    requires |a| == |b| && Join(a) == Join(b)
    requires forall i | 0 <= i < |a| - 1 :: NUL !in a[i] && NUL !in b[i]
    ensures a == b
  {
    if |a| >= 2 {
      FirstNul(a[0], Join(a[1..]), b[0], Join(b[1..]));
      JoinInjective(a[1..], b[1..]);
      assert a == [a[0]] + a[1..] && b == [b[0]] + b[1..];
    }
  }

  lemma FirstNul(n: Str, f: Str, m: Str, g: Str)
    requires n + [NUL] + f == m + [NUL] + g && NUL !in n && NUL !in m
    ensures n == m && f == g
  {
    assert Key(Cell, f, Some(n)) == Key(Cell, g, Some(m));
    ClashOverlaps(Cell, n, f, m, g);
    if n + [NUL] <= m {
      PrefixHasNul(n, m);
    } else if m + [NUL] <= n {
      PrefixHasNul(m, n);
    }
  }

  predicate NulFree(c: ObservedCell) {
    NUL !in c.notebook && NUL !in c.cellId && NUL !in c.identity && NUL !in c.sourceRevision && NUL !in c.cellRevision
  }

  /** The same observation, except that no outputs revision and an empty one look alike. */
  predicate SameObservation(c: ObservedCell, d: ObservedCell) { CellParts(c) == CellParts(d) }

  /** Two observations share a reference exactly when they are the same in this sense. */
  lemma CellKeyExact(c: ObservedCell, d: ObservedCell)
    requires NulFree(c) && NulFree(d)
    ensures CellKey(c) == CellKey(d) <==> SameObservation(c, d)
    ensures SameObservation(c, d) <==>
      d.(outputsRevision := c.outputsRevision) == c
      && (d.outputsRevision == c.outputsRevision || {c.outputsRevision, d.outputsRevision} == {None, Some([])})
  {
    hide Join;
    if CellKey(c) == CellKey(d) {
      JoinInjective(CellParts(c), CellParts(d));
    }
    assert SameObservation(c, d) ==> forall i | 0 <= i < 6 :: CellParts(c)[i] == CellParts(d)[i];
  }

  /** A reference handed out for an observation looks that observation up again. */
  lemma ObservedAnswers(scope: Str, o: Observed, c: ObservedCell)
    requires ObservedOk(scope, o) && NulFree(c) && forall r | r in o.cellByRef :: NulFree(o.cellByRef[r])
    ensures var (ref, p) := PresentCell(o, scope, c);
      && LookupCell(p, ref, c.notebook).Ok? && SameObservation(LookupCell(p, ref, c.notebook).value, c)
  {
    hide Join, RefText, RefNumber, NotebookKey;
    var (ref, p) := PresentCell(o, scope, c);
    PresentCellKeeps(scope, o, c);
    CellKeyExact(p.cellByRef[ref], c);
    assert CellParts(p.cellByRef[ref])[0] == p.cellByRef[ref].notebook && CellParts(c)[0] == c.notebook;
  }

  /** Two notebook observations share a reference exactly when they are equal. */
  lemma NotebookKeyExact(m: ObservedNotebook, n: ObservedNotebook)
    requires NUL !in m.notebook && NUL !in n.notebook
    ensures NotebookKey(m) == NotebookKey(n) <==> m == n
  {
    if NotebookKey(m) == NotebookKey(n) {
      FirstNul(m.notebook, m.metadataRevision, n.notebook, n.metadataRevision);
    }
  }

  /** The same for notebooks: the reference looks up the very observation. */
  lemma ObservedNotebookAnswers(scope: Str, o: Observed, n: ObservedNotebook)
    requires ObservedOk(scope, o) && NUL !in n.notebook && forall r | r in o.notebookByRef :: NUL !in o.notebookByRef[r].notebook
    ensures var (ref, p) := PresentNotebook(o, scope, n); LookupNotebook(p, ref, n.notebook) == Ok(n)
  {
    hide RefText, RefNumber, CellKey, NotebookKey;
    var (ref, p) := PresentNotebook(o, scope, n);
    PresentNotebookKeeps(scope, o, n);
    NotebookKeyExact(p.notebookByRef[ref], n);
  }

  // ---------------------------------------------------------------------------
  // commit
  // ---------------------------------------------------------------------------

  lemma PruneKeeps(scope: Str, before: Observed, now: Observed, published: set<Str>)
    requires ObservedOk(scope, now) && Extends(before, now)
    ensures var p := Prune(before, now, published);
      && ObservedOk(scope, p) && Extends(before, p)
      && (forall r :: r in p.cellByRef <==> r in now.cellByRef && (r in before.cellByRef || r in published))
      && (forall r :: r in p.notebookByRef <==> r in now.notebookByRef && (r in before.notebookByRef || r in published))
      && (forall r | r in p.cellByRef :: p.cellByRef[r] == now.cellByRef[r])
      && (forall r | r in p.notebookByRef :: p.notebookByRef[r] == now.notebookByRef[r])
  {
    hide CellKey, NotebookKey, RefText, RefNumber;
    PruneCells(scope, before, now, published);
    PruneNotebooks(scope, before, now, published);
  }

  lemma PruneCells(scope: Str, before: Observed, now: Observed, published: set<Str>)
    requires ObservedOk(scope, now)
    ensures var p := Prune(before, now, published);
      && (forall r | r in p.cellByRef ::
            RefOk(scope, p, r) && CellKey(p.cellByRef[r]) in p.cellByValue && p.cellByValue[CellKey(p.cellByRef[r])] == r)
      && (forall k | k in p.cellByValue :: p.cellByValue[k] in p.cellByRef && CellKey(p.cellByRef[p.cellByValue[k]]) == k)
  {
  }

  lemma PruneNotebooks(scope: Str, before: Observed, now: Observed, published: set<Str>)
    requires ObservedOk(scope, now)
    ensures var p := Prune(before, now, published);
      && (forall r | r in p.notebookByRef ::
            RefOk(scope, p, r) && NotebookKey(p.notebookByRef[r]) in p.notebookByValue
            && p.notebookByValue[NotebookKey(p.notebookByRef[r])] == r)
      && (forall k | k in p.notebookByValue ::
            p.notebookByValue[k] in p.notebookByRef && NotebookKey(p.notebookByRef[p.notebookByValue[k]]) == k)
  {
  }

  // ---------------------------------------------------------------------------
  // runs
  // ---------------------------------------------------------------------------

  /** A response is staged, then published in some form, or rolled back. */
  datatype Response = Publish(value: Wire, published: Wire) | Abort(value: Wire)

  /** The tables after a response; a rollback or a failed commit returns to the checkpoint. */
  function Respond(t: Tables, max: nat, r: Response): Tables {
    match r
    case Abort(_) => t
    case Publish(value, published) =>
      match Commit(t, PresentTree(t, value, None).1, published, max)
      case Ok(committed) => committed
      case Err(_) => t
  }

  function Responses(t: Tables, max: nat, rs: seq<Response>): Tables {
    if rs == [] then t else Respond(Responses(t, max, rs[..|rs| - 1]), max, rs[|rs| - 1])
  }

  function NewTables(scope: Str): Tables {
    Tables(Aliases(scope, map[], map[], map[], map[]), Observed(map[], map[], map[], map[], 1))
  }

  predicate Healthy(t: Tables, max: nat) {
    Sound(t.aliases) && ObservedOk(t.aliases.scope, t.observed) && Count(t.observed) <= max
  }

  lemma RespondKeeps(t: Tables, max: nat, r: Response)
    requires Healthy(t, max)
    ensures var u := Respond(t, max, r);
      Healthy(u, max) && Grows(t.aliases, u.aliases) && Extends(t.observed, u.observed)
  {
    hide Sound, ObservedOk, Prune;
    assert Grows(t.aliases, t.aliases);
    assert Extends(t.observed, t.observed);
    if r.Publish? {
      TreeKeeps(t, r.value, None);
      var now := PresentTree(t, r.value, None).1;
      assert now.aliases.scope == t.aliases.scope;
      PruneKeeps(t.aliases.scope, t.observed, now.observed, Published(r.published));
    }
  }

  /** The tables stay inverse and within the cap, and what was retained denotes the same thing for ever. */
  lemma {:induction false} ReferencesAreForever(t: Tables, max: nat, rs: seq<Response>)
    requires Healthy(t, max)
    ensures var u := Responses(t, max, rs);
      Healthy(u, max) && Grows(t.aliases, u.aliases) && Extends(t.observed, u.observed)
  {
    hide Healthy;
    if rs == [] {
      assert Grows(t.aliases, t.aliases) && Extends(t.observed, t.observed);
    } else {
      var before := Responses(t, max, rs[..|rs| - 1]);
      ReferencesAreForever(t, max, rs[..|rs| - 1]);
      RespondKeeps(before, max, rs[|rs| - 1]);
      hide Respond;
      GrowsTrans(t.aliases, before.aliases, Responses(t, max, rs).aliases);
    }
  }

  /** Exactly the references shown in the published value survive a commit, besides those that were there. */
  lemma CommitRetains(t: Tables, max: nat, value: Wire, published: Wire, r: Str)
    requires Healthy(t, max)
    requires var now := PresentTree(t, value, None).1; Commit(t, now, published, max).Ok?
    ensures var now := PresentTree(t, value, None).1; var u := Respond(t, max, Publish(value, published));
      && (r in u.observed.cellByRef <==>
            r in now.observed.cellByRef && (r in t.observed.cellByRef || r in Published(published)))
      && (r in u.observed.cellByRef ==> u.observed.cellByRef[r] == now.observed.cellByRef[r])
      && (r in u.observed.notebookByRef <==>
            r in now.observed.notebookByRef && (r in t.observed.notebookByRef || r in Published(published)))
      && (r in u.observed.notebookByRef ==> u.observed.notebookByRef[r] == now.observed.notebookByRef[r])
  {
    hide Sound, ObservedOk, Prune, Extends;
    TreeKeeps(t, value, None);
    var now := PresentTree(t, value, None).1;
    assert now.aliases.scope == t.aliases.scope;
    PruneKeeps(t.aliases.scope, t.observed, now.observed, Published(published));
  }

  lemma HandedToCell(scope: Str, o: Observed, c: ObservedCell, r: Str)
    requires ObservedOk(scope, o) && PresentCell(o, scope, c).0 == r
    ensures r !in o.notebookByRef && (r in o.cellByRef ==> CellKey(c) == CellKey(o.cellByRef[r]))
  {
    hide CellKey, NotebookKey, RefText, RefNumber;
    NextRefIsNew(scope, o);
  }

  lemma HandedToNotebook(scope: Str, o: Observed, n: ObservedNotebook, r: Str)
    requires ObservedOk(scope, o) && PresentNotebook(o, scope, n).0 == r
    ensures r !in o.cellByRef && (r in o.notebookByRef ==> NotebookKey(n) == NotebookKey(o.notebookByRef[r]))
  {
    hide CellKey, NotebookKey, RefText, RefNumber;
    NextRefIsNew(scope, o);
  }

  /** A retained reference is never handed out for another observation, nor for one of the other kind. */
  lemma NeverReminted(t: Tables, max: nat, rs: seq<Response>, r: Str, c: ObservedCell, n: ObservedNotebook)
    requires Healthy(t, max)
    ensures var u := Responses(t, max, rs); var scope := u.aliases.scope;
      && (r in t.observed.cellByRef ==>
            && PresentNotebook(u.observed, scope, n).0 != r
            && (PresentCell(u.observed, scope, c).0 == r ==> CellKey(c) == CellKey(t.observed.cellByRef[r])))
      && (r in t.observed.notebookByRef ==>
            && PresentCell(u.observed, scope, c).0 != r
            && (PresentNotebook(u.observed, scope, n).0 == r ==> NotebookKey(n) == NotebookKey(t.observed.notebookByRef[r])))
  {
    ReferencesAreForever(t, max, rs);
    hide CellKey, NotebookKey, Responses, Sound, ObservedOk, PresentCell, PresentNotebook;
    var u := Responses(t, max, rs);
    HandedToCell(u.aliases.scope, u.observed, c, PresentCell(u.observed, u.aliases.scope, c).0);
    HandedToNotebook(u.aliases.scope, u.observed, n, PresentNotebook(u.observed, u.aliases.scope, n).0);
  }
}
