/** Staged responses that overlap: several are open at once and are settled in any order. */
module OverlappingStages {
  import opened Options
  import opened Utf16
  import opened Wires
  import opened References
  import opened ReferenceTrips
  import opened ReferenceStages

  /** A staged response: the tables as it found them, until it is settled. */
  datatype Stage = Stage(checkpoint: Tables, active: bool)

  datatype Desk = Desk(t: Tables, stages: seq<Stage>)

  /** Settling without a published value is a rollback. */
  datatype Op = Open(value: Wire) | Settle(k: nat, published: Option<Wire>)

  predicate Settles(d: Desk, op: Op) { op.Settle? && op.k < |d.stages| && d.stages[op.k].active }

  function Settled(d: Desk, max: nat, op: Op): Tables
    requires Settles(d, op)
  {
    var before := d.stages[op.k].checkpoint;
    match op.published
    case None => before
    case Some(published) =>
      match Commit(before, d.t, published, max)
      case Ok(committed) => committed
      case Err(_) => before
  }

  function Step(d: Desk, max: nat, op: Op): Desk {
    if op.Open? then Desk(PresentTree(d.t, op.value, None).1, d.stages + [Stage(d.t, true)])
    else if Settles(d, op) then Desk(Settled(d, max, op), d.stages[op.k := d.stages[op.k].(active := false)])
    else d
  }

  function Run(d: Desk, max: nat, ops: seq<Op>): Desk {
    if ops == [] then d else Step(Run(d, max, ops[..|ops| - 1]), max, ops[|ops| - 1])
  }

  predicate Consistent(t: Tables, scope: Str) {
    t.aliases.scope == scope && Sound(t.aliases) && ObservedOk(scope, t.observed)
  }

  predicate AllConsistent(d: Desk, scope: Str) {
    Consistent(d.t, scope) && forall s | s in d.stages :: Consistent(s.checkpoint, scope)
  }

  lemma SettledKeeps(d: Desk, max: nat, op: Op, scope: Str)
    requires AllConsistent(d, scope) && Settles(d, op)
    ensures Consistent(Settled(d, max, op), scope)
  {
    hide Sound, ObservedOk, Prune;
    var before := d.stages[op.k].checkpoint;
    assert d.stages[op.k] in d.stages;
    if op.published.Some? {
      PrunedOk(scope, before.observed, d.t.observed, Published(op.published.value));
    }
  }

  /** Forgetting keeps the tables inverse, whatever checkpoint it is measured against. */
  lemma PrunedOk(scope: Str, before: Observed, now: Observed, published: set<Str>)
    requires ObservedOk(scope, now)
    ensures ObservedOk(scope, Prune(before, now, published))
  {
    hide CellKey, NotebookKey, RefText, RefNumber;
    PruneCells(scope, before, now, published);
    PruneNotebooks(scope, before, now, published);
  }

  lemma StepKeeps(d: Desk, max: nat, op: Op, scope: Str)
    requires AllConsistent(d, scope)
    ensures AllConsistent(Step(d, max, op), scope)
  {
    hide Sound, ObservedOk, Settled;
    if op.Open? {
      TreeKeeps(d.t, op.value, None);
    } else if Settles(d, op) {
      SettledKeeps(d, max, op, scope);
      assert d.stages[op.k] in d.stages;
    }
  }

  /** In whatever order stages are opened and settled, the tables stay inverse and the aliases sound. */
  lemma {:induction false} AnyOrderKeeps(d: Desk, max: nat, ops: seq<Op>, scope: Str)
    requires AllConsistent(d, scope)
    ensures AllConsistent(Run(d, max, ops), scope)
  {
    hide AllConsistent, Step;
    if ops != [] {
      AnyOrderKeeps(d, max, ops[..|ops| - 1], scope);
      StepKeeps(Run(d, max, ops[..|ops| - 1]), max, ops[|ops| - 1], scope);
    }
  }

  // ---------------------------------------------------------------------------
  // when a reference survives
  // ---------------------------------------------------------------------------

  datatype Seen = SeenCell(c: ObservedCell) | SeenNotebook(n: ObservedNotebook)

  /** The reference stands for this observation. */
  predicate Denotes(t: Tables, ref: Str, seen: Seen) {
    match seen
    case SeenCell(c) => ref in t.observed.cellByRef && t.observed.cellByRef[ref] == c
    case SeenNotebook(n) => ref in t.observed.notebookByRef && t.observed.notebookByRef[ref] == n
  }

  predicate Listed(t: Tables, ref: Str, seen: Seen) {
    if seen.SeenCell? then ref in t.observed.cellByRef else ref in t.observed.notebookByRef
  }

  /**
   * A stage that is rolled back, or whose commit fails, found the reference when it was opened; one
   * that is committed found it then, or publishes it.
   */
  predicate Spares(d: Desk, max: nat, op: Op, ref: Str, seen: Seen) {
    Settles(d, op) ==>
      var before := d.stages[op.k].checkpoint;
      if op.published.Some? && Commit(before, d.t, op.published.value, max).Ok? then
        Listed(before, ref, seen) || ref in Published(op.published.value)
      else Denotes(before, ref, seen)
  }

  lemma StepSpares(d: Desk, max: nat, op: Op, ref: Str, seen: Seen, scope: Str)
    requires AllConsistent(d, scope) && Denotes(d.t, ref, seen)
    ensures Denotes(Step(d, max, op).t, ref, seen) <==> Spares(d, max, op, ref, seen)
  {
    hide Sound, ObservedOk;
    if op.Open? { TreeKeeps(d.t, op.value, None); }
  }

  lemma RunNext(d: Desk, max: nat, ops: seq<Op>, k: nat)
    requires k < |ops|
    ensures Run(d, max, ops[..k + 1]) == Step(Run(d, max, ops[..k]), max, ops[k])
  {
    assert ops[..k + 1][..k] == ops[..k] && ops[..k + 1][k] == ops[k];
  }

  lemma {:induction false} SparedUpTo(d: Desk, max: nat, ops: seq<Op>, k: nat, ref: Str, seen: Seen, scope: Str)
    requires AllConsistent(d, scope) && Denotes(d.t, ref, seen) && k <= |ops|
    requires forall j | 0 <= j < k :: Spares(Run(d, max, ops[..j]), max, ops[j], ref, seen)
    ensures Denotes(Run(d, max, ops[..k]).t, ref, seen)
  {
    hide AllConsistent, Step, Spares, Denotes;
    if k == 0 {
      assert ops[..0] == [];
    } else {
      SparedUpTo(d, max, ops, k - 1, ref, seen, scope);
      AnyOrderKeeps(d, max, ops[..k - 1], scope);
      RunNext(d, max, ops, k - 1);
      StepSpares(Run(d, max, ops[..k - 1]), max, ops[k - 1], ref, seen, scope);
    }
  }

  /** A reference stands for its observation throughout exactly when every stage that is settled spares it. */
  lemma SparedIff(d: Desk, max: nat, ops: seq<Op>, ref: Str, seen: Seen, scope: Str)
    requires AllConsistent(d, scope) && Denotes(d.t, ref, seen)
    ensures (forall k | 0 <= k <= |ops| :: Denotes(Run(d, max, ops[..k]).t, ref, seen))
       <==> (forall k | 0 <= k < |ops| :: Spares(Run(d, max, ops[..k]), max, ops[k], ref, seen))
  {
    hide AllConsistent, Step, Spares, Denotes, Run;
    if forall k | 0 <= k < |ops| :: Spares(Run(d, max, ops[..k]), max, ops[k], ref, seen) {
      forall k | 0 <= k <= |ops| ensures Denotes(Run(d, max, ops[..k]).t, ref, seen) {
        SparedUpTo(d, max, ops, k, ref, seen, scope);
      }
    }
    if forall k | 0 <= k <= |ops| :: Denotes(Run(d, max, ops[..k]).t, ref, seen) {
      forall k | 0 <= k < |ops| ensures Spares(Run(d, max, ops[..k]), max, ops[k], ref, seen) {
        AnyOrderKeeps(d, max, ops[..k], scope);
        RunNext(d, max, ops, k);
        assert Denotes(Run(d, max, ops[..k + 1]).t, ref, seen);
        StepSpares(Run(d, max, ops[..k]), max, ops[k], ref, seen, scope);
      }
    }
  }

  /**
   * Rolling back a stage forgets what was committed since it was opened: two stages, the second
   * commits and its reference is known, the first is rolled back, and it is gone.
   */
  lemma OverlapForgets(t: Tables, max: nat, outer: Wire, inner: Wire, published: Wire, ref: Str, seen: Seen)
    requires var mid := PresentTree(t, outer, None).1; var now := PresentTree(mid, inner, None).1;
      && Commit(mid, now, published, max).Ok? && ref in Published(published)
      && Denotes(now, ref, seen) && !Listed(t, ref, seen)
    ensures var d := Run(Desk(t, []), max, [Open(outer), Open(inner), Settle(1, Some(published))]);
      Denotes(d.t, ref, seen) && Step(d, max, Settle(0, None)).t == t && !Denotes(t, ref, seen)
  {
    var ops := [Open(outer), Open(inner), Settle(1, Some(published))];
    assert ops[..0] == [] && ops[..1] == [Open(outer)] && ops[..2] == [Open(outer), Open(inner)] && ops[..3] == ops;
    hide PresentTree, Step, Run, Commit, Published;
    var d0 := Desk(t, []);
    assert Run(d0, max, ops[..0]) == d0 by { Nothing(d0, max); }
    RunNext(d0, max, ops, 0);
    RunNext(d0, max, ops, 1);
    RunNext(d0, max, ops, 2);
    ThreeSteps(t, max, outer, inner, published, ref, seen);
  }

  lemma Nothing(d: Desk, max: nat)
    ensures Run(d, max, []) == d
  {
  }

  lemma ThreeSteps(t: Tables, max: nat, outer: Wire, inner: Wire, published: Wire, ref: Str, seen: Seen)
    requires var mid := PresentTree(t, outer, None).1; var now := PresentTree(mid, inner, None).1;
      && Commit(mid, now, published, max).Ok? && ref in Published(published)
      && Denotes(now, ref, seen) && !Listed(t, ref, seen)
    ensures var a := Step(Desk(t, []), max, Open(outer)); var b := Step(a, max, Open(inner));
      var d := Step(b, max, Settle(1, Some(published)));
      Denotes(d.t, ref, seen) && Step(d, max, Settle(0, None)).t == t && !Denotes(t, ref, seen)
  {
    hide PresentTree, Published;
    var mid := PresentTree(t, outer, None).1;
    var now := PresentTree(mid, inner, None).1;
    var a := Step(Desk(t, []), max, Open(outer));
    assert a == Desk(mid, [Stage(t, true)]);
    var b := Step(a, max, Open(inner));
    assert b == Desk(now, [Stage(t, true), Stage(mid, true)]);
  }

  function NotebookSeen(n: Str, revision: Str): Wire {
    Obj([Field("notebook_id", Text(n)), Field("notebook_metadata_revision", Text(revision))])
  }

  lemma SeenFields(n: Str, revision: Str)
    ensures var fields := NotebookSeen(n, revision).fields;
      && Get(fields, "notebook_id") == Text(n) && Get(fields, "notebook_metadata_revision") == Text(revision)
      && !Has(fields, "cell_id")
  {
    var fields := NotebookSeen(n, revision).fields;
    assert fields == [fields[0]] + [fields[1]];
    ConsGet(fields[0], [fields[1]], "notebook_id");
    ConsGet(fields[0], [fields[1]], "notebook_metadata_revision");
    ConsGet(fields[0], [fields[1]], "cell_id");
  }

  lemma FirstSeen(scope: Str, n: Str, revision: Str)
    ensures var o := PresentTree(NewTables(scope), NotebookSeen(n, revision), None).1.observed;
      o == PresentNotebook(NewTables(scope).observed, scope, ObservedNotebook(n, revision)).1
  {
    var t := NewTables(scope);
    var fields := NotebookSeen(n, revision).fields;
    SeenFields(n, revision);
    hide Get, Has, PresentNotebook, Present;
    var own := Some(n);
    assert OwnNotebook(fields, None) == own;
    assert !IsObservedCell(fields) && IsObservedNotebook(fields);
    var (mapped, t1) := PresentFields(t, fields, fields, own);
    assert t1.observed == t.observed && t1.aliases.scope == scope by { FieldsUnseen(t, fields, own); }
  }

  lemma TextUnseen(t: Tables, all: seq<Field>, f: Field, own: Option<Str>)
    requires f.value.Text?
    ensures var t1 := PresentField(t, all, f, own).1; t1.observed == t.observed && t1.aliases.scope == t.aliases.scope
  {
    hide Kept, Key, AliasText;
    assert PresentTree(t, f.value, own) == (f.value, t);
    if f.key in SINGULAR {
      assert PresentText(t, SINGULAR[f.key], f.value.s, own).1.aliases.scope == t.aliases.scope;
    }
  }

  /** Texts are no observed versions themselves. */
  lemma FieldsUnseen(t: Tables, fields: seq<Field>, own: Option<Str>)
    requires |fields| == 2 && fields[0].value.Text? && fields[1].value.Text?
    ensures var t1 := PresentFields(t, fields, fields, own).1; t1.observed == t.observed && t1.aliases.scope == t.aliases.scope
  {
    hide PresentField;
    assert fields[1..] == [fields[1]] && fields[1..][1..] == [];
    var (_, t1) := PresentField(t, fields, fields[0], own);
    TextUnseen(t, fields, fields[0], own);
    var (_, t2) := PresentField(t1, fields, fields[1], own);
    TextUnseen(t1, fields, fields[1], own);
    assert PresentFields(t2, fields, [], own).1 == t2;
    assert PresentFields(t1, fields, fields[1..], own).1 == t2;
  }

  /** From an empty table this happens, and the same reference is then handed out for something else. */
  lemma OverlapHappens(scope: Str, max: nat, n: Str, revision: Str, other: ObservedCell)
    requires max >= 1
    ensures var t := NewTables(scope); var ref := RefText(scope, 1);
      var shown := Obj([Field("notebook_ref", Text(ref))]);
      var d := Run(Desk(t, []), max, [Open(Null), Open(NotebookSeen(n, revision)), Settle(1, Some(shown))]);
      && Denotes(d.t, ref, SeenNotebook(ObservedNotebook(n, revision)))
      && PresentCell(Step(d, max, Settle(0, None)).t.observed, scope, other).0 == ref
  {
    var t := NewTables(scope);
    var ref := RefText(scope, 1);
    var shown := Obj([Field("notebook_ref", Text(ref))]);
    var seen := ObservedNotebook(n, revision);
    FirstSeen(scope, n, revision);
    var now := PresentTree(t, NotebookSeen(n, revision), None).1;
    assert PresentTree(t, Null, None).1 == t;
    ShownIn(ref);
    hide PresentTree, RefText, NotebookSeen, Published, CellKey, NotebookKey, Run, Step;
    assert now.observed.notebookByRef == map[ref := seen] && now.observed.cellByRef == map[];
    var pruned := Prune(t.observed, now.observed, Published(shown));
    assert pruned.notebookByRef == map[ref := seen] && pruned.cellByRef == map[];
    assert Count(pruned) == 1;
    OverlapForgets(t, max, Null, NotebookSeen(n, revision), shown, ref, SeenNotebook(seen));
  }

  lemma ShownIn(ref: Str)
    ensures ref in Published(Obj([Field("notebook_ref", Text(ref))]))
  {
    var fields := [Field("notebook_ref", Text(ref))];
    assert "notebook_ref" !in OPAQUE_KEYS && "notebook_ref" in OBSERVED_SINGULAR;
    assert ref in PublishedFields(fields);
  }
}
