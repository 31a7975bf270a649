/** The reference table as the adapter updates it in place, against the table functions. */
module ReferenceTables {
  import opened Options
  import opened Utf16
  import opened Literals
  import opened Wires
  import opened References

  class ReferenceAliases {
    const scope: Str
    const max: nat
    var byFull: map<Slot, Str>
    var byAlias: map<Slot, Str>
    var owner: map<Slot, Str>
    var next: map<Kind, nat>
    var observed: Observed

    ghost function View(): Tables
      reads this
    {
      Tables(Aliases(scope, byFull, byAlias, owner, next), observed)
    }

    constructor (scope: Str, max: nat)
      ensures View() == Tables(Aliases(scope, map[], map[], map[], map[]), Observed(map[], map[], map[], map[], 1))
      ensures this.max == max
    {
      this.scope, this.max := scope, max;
      byFull, byAlias, owner, next := map[], map[], map[], map[];
      observed := Observed(map[], map[], map[], map[], 1);
    }

    method Present(kind: Kind, full: Str, notebook: Option<Str>) returns (alias: Str)
      modifies this`byFull, this`byAlias, this`owner, this`next
      ensures (alias, View().aliases) == References.Present(old(View()).aliases, kind, full, notebook)
      ensures observed == old(observed)
    {
      if Scoped(kind) && notebook.None? { return LiteralValue(full); }
      var key := Slot(kind, Key(kind, full, notebook));
      if key in byFull { return byFull[key]; }
      var number := if kind in next then next[kind] else 1;
      alias := AliasText(scope, kind, number);
      next := next[kind := number + 1];
      byFull := byFull[key := alias];
      byAlias := byAlias[Slot(kind, alias) := full];
      if notebook.Some? && Scoped(kind) {
        owner := owner[Slot(kind, alias) := notebook.value];
      }
    }

    method Resolve(kind: Kind, value: Str, notebook: Option<Str>) returns (r: Result<Str>)
      ensures r == References.Resolve(View().aliases, kind, value, notebook)
    {
      if StartsRaw(value) { return DecodeLiteral(value); }
      var slot := Slot(kind, value);
      if slot in byAlias {
        if slot in owner && Some(owner[slot]) != notebook { return Err(HandleExpired); }
        return Ok(byAlias[slot]);
      }
      r := if value != [] && value[0] == AT then Err(HandleExpired) else Ok(value);
    }

    method PresentObserved(c: ObservedCell) returns (ref: Str)
      modifies this`observed
      ensures (ref, observed) == PresentCell(old(observed), scope, c)
    {
      var key := CellKey(c);
      if key in observed.cellByValue { return observed.cellByValue[key]; }
      ref := RefText(scope, observed.next);
      observed := observed.(next := observed.next + 1, cellByValue := observed.cellByValue[key := ref],
                            cellByRef := observed.cellByRef[ref := c]);
    }

    method PresentObservedNotebook(n: ObservedNotebook) returns (ref: Str)
      modifies this`observed
      ensures (ref, observed) == PresentNotebook(old(observed), scope, n)
    {
      var key := NotebookKey(n);
      if key in observed.notebookByValue { return observed.notebookByValue[key]; }
      ref := RefText(scope, observed.next);
      observed := observed.(next := observed.next + 1, notebookByValue := observed.notebookByValue[key := ref],
                            notebookByRef := observed.notebookByRef[ref := n]);
    }

    // -- the tree walk, which grows the table as it goes -----------------------------

    method MapTree(v: Wire, notebook: Option<Str>) returns (w: Wire)
      modifies this
      ensures (w, View()) == PresentTree(old(View()), v, notebook)
      decreases v, 0
    {
      match v
      case Arr(items) =>
        var mapped := MapItems(items, notebook);
        w := Arr(mapped);
      case Obj(fields) =>
        var own := OwnNotebook(fields, notebook);
        var mapped := MapFields(fields, own);
        w := ShowVersion(fields, mapped, own);
      case _ => w := v;
    }

    method MapItems(items: seq<Wire>, notebook: Option<Str>) returns (mapped: seq<Wire>)
      modifies this
      ensures (mapped, View()) == PresentItems(old(View()), items, notebook)
      decreases items, 0
    {
      hide PresentTree;
      mapped := [];
      ghost var whole := PresentItems(View(), items, notebook);
      assert items[0..] == items;
      for i := 0 to |items|
        invariant mapped + PresentItems(View(), items[i..], notebook).0 == whole.0
        invariant PresentItems(View(), items[i..], notebook).1 == whole.1
      {
        assert items[i..][0] == items[i] && items[i..][1..] == items[i + 1..];
        var entry := MapTree(items[i], notebook);
        mapped := mapped + [entry];
      }
      assert items[|items|..] == [] && mapped + [] == mapped;
    }

    method MapEntry(kind: Kind, item: Wire, own: Option<Str>) returns (w: Wire)
      modifies this
      ensures (w, View()) == PresentEntry(old(View()), kind, item, own)
      decreases item, 1
    {
      if item.Text? {
        var alias := Present(kind, item.s, own);
        w := Text(alias);
      } else {
        w := MapTree(item, own);
      }
    }

    method MapList(kind: Kind, items: seq<Wire>, own: Option<Str>) returns (mapped: seq<Wire>)
      modifies this
      ensures (mapped, View()) == PresentList(old(View()), kind, items, own)
      decreases items, 0
    {
      hide PresentEntry;
      mapped := [];
      ghost var whole := PresentList(View(), kind, items, own);
      assert items[0..] == items;
      for i := 0 to |items|
        invariant mapped + PresentList(View(), kind, items[i..], own).0 == whole.0
        invariant PresentList(View(), kind, items[i..], own).1 == whole.1
      {
        assert items[i..][0] == items[i] && items[i..][1..] == items[i + 1..];
        var entry := MapEntry(kind, items[i], own);
        mapped := mapped + [entry];
      }
      assert items[|items|..] == [] && mapped + [] == mapped;
    }

    method MapField(all: seq<Field>, f: Field, own: Option<Str>) returns (w: Wire)
      modifies this
      ensures (w, View()) == PresentField(old(View()), all, f, own)
      decreases f, 0
    {
      if Kept(all, own, f.key) { return f.value; }
      if f.key in SINGULAR && f.value.Text? {
        var alias := Present(SINGULAR[f.key], f.value.s, own);
        return Text(alias);
      }
      if f.key in PLURAL && f.value.Arr? {
        var list := MapList(PLURAL[f.key], f.value.items, own);
        return Arr(list);
      }
      w := MapTree(f.value, own);
    }

    method MapFields(fields: seq<Field>, own: Option<Str>) returns (mapped: seq<Field>)
      modifies this
      ensures (mapped, View()) == PresentFields(old(View()), fields, fields, own)
      decreases fields, 0
    {
      hide PresentField;
      mapped := [];
      ghost var whole := PresentFields(View(), fields, fields, own);
      assert fields[0..] == fields;
      for i := 0 to |fields|
        invariant mapped + PresentFields(View(), fields, fields[i..], own).0 == whole.0
        invariant PresentFields(View(), fields, fields[i..], own).1 == whole.1
      {
        assert fields[i..][0] == fields[i] && fields[i..][1..] == fields[i + 1..];
        var entry := MapField(fields, fields[i], own);
        mapped := mapped + [Field(fields[i].key, entry)];
      }
      assert fields[|fields|..] == [] && mapped + [] == mapped;
    }

    method ShowVersion(fields: seq<Field>, mapped: seq<Field>, own: Option<Str>) returns (w: Wire)
      modifies this
      ensures (w, View()) == PresentVersion(old(View()), fields, mapped, own)
    {
      match RoleOf(fields, own)
      case Plain => w := Obj(mapped);
      case CellVersion =>
        var ref := PresentObserved(ObservedOf(fields, own.value));
        var shown := Put(mapped, "cell_ref", Text(ref));
        if IsText(fields, "cell_type") && (Get(fields, "index").Int? || Get(fields, "index").Number?) {
          var id := Present(Cell, Get(fields, "cell_id").s, own);
          shown := Put(shown, "cell_id", Text(id));
        } else {
          shown := Wires.Without(shown, {"cell_id"});
        }
        w := Obj(Wires.Without(shown, {"identity_token", "source_revision", "cell_revision", "outputs_revision"}));
      case NotebookVersion =>
        var ref := PresentObservedNotebook(ObservedNotebook(own.value, Get(fields, "notebook_metadata_revision").s));
        w := Obj(Wires.Without(Put(mapped, "notebook_ref", Text(ref)), {"notebook_metadata_revision"}));
    }

    // -- checkpoints ------------------------------------------------------------------

    method Checkpoint() returns (t: Tables)
      ensures t == View()
    {
      t := Tables(Aliases(scope, byFull, byAlias, owner, next), observed);
    }

    /** Every table is put back exactly. */
    method Restore(t: Tables)
      requires t.aliases.scope == scope
      modifies this
      ensures View() == t
    {
      byFull, byAlias, owner, next := t.aliases.byFull, t.aliases.byAlias, t.aliases.owner, t.aliases.next;
      observed := t.observed;
    }

    method PruneCells(before: Observed, published: set<Str>)
      modifies this`observed
      ensures observed == old(observed).(cellByRef := Prune(before, old(observed), published).cellByRef,
                                         cellByValue := Prune(before, old(observed), published).cellByValue)
    {
      hide CellKey;
      var byRef, byValue := Sweep(observed.cellByRef, observed.cellByValue, CellKey, before.cellByRef.Keys + published);
      assert byRef == Prune(before, observed, published).cellByRef;
      assert byValue == Prune(before, observed, published).cellByValue;
      observed := observed.(cellByRef := byRef, cellByValue := byValue);
    }

    method PruneNotebooks(before: Observed, published: set<Str>)
      modifies this`observed
      ensures observed == old(observed).(notebookByRef := Prune(before, old(observed), published).notebookByRef,
                                         notebookByValue := Prune(before, old(observed), published).notebookByValue)
    {
      hide NotebookKey;
      var byRef, byValue := Sweep(observed.notebookByRef, observed.notebookByValue, NotebookKey, before.notebookByRef.Keys + published);
      assert byRef == Prune(before, observed, published).notebookByRef;
      assert byValue == Prune(before, observed, published).notebookByValue;
      observed := observed.(notebookByRef := byRef, notebookByValue := byValue);
    }
  }

  /** The by-value entry of a reference that is not kept, once the reference has been visited. */
  predicate Swept<V>(byRef: map<Str, V>, byValue: map<Str, Str>, key: V -> Str, keep: set<Str>, todo: set<Str>, k: Str)
    requires k in byValue
  {
    var r := byValue[k];
    r in byRef && r !in keep && r !in todo && key(byRef[r]) == k
  }

  /** Visits every reference and forgets those not to keep, in both directions. */
  method Sweep<V>(byRef: map<Str, V>, byValue: map<Str, Str>, key: V -> Str, keep: set<Str>)
    returns (refs: map<Str, V>, values: map<Str, Str>)
    ensures refs == map r | r in byRef && r in keep :: byRef[r]
    ensures values == map k | k in byValue && !Swept(byRef, byValue, key, keep, {}, k) :: byValue[k]
  {
    refs, values := byRef, byValue;
    var todo := byRef.Keys;
    while todo != {}
      invariant todo <= byRef.Keys
      invariant refs == map r | r in byRef && (r in todo || r in keep) :: byRef[r]
      invariant values == map k | k in byValue && !Swept(byRef, byValue, key, keep, todo, k) :: byValue[k]
      decreases |todo|
    {
      var ref :| ref in todo;
      todo := todo - {ref};
      if ref !in keep {
        refs := refs - {ref};
        var k := key(byRef[ref]);
        if k in values && values[k] == ref {
          values := values - {k};
        }
      }
    }
  }

  /** One staged response: committed at most once, or rolled back. */
  class StagedReferences {
    const table: ReferenceAliases
    const checkpoint: Tables
    const value: Wire
    var active: bool

    /** Stages `value`; the table already holds everything it issued. */
    constructor (table: ReferenceAliases, value: Wire)
      modifies table
      ensures this.table == table && active && checkpoint == old(table.View())
      ensures (this.value, table.View()) == PresentTree(old(table.View()), value, None)
    {
      var before := table.Checkpoint();
      var mapped := table.MapTree(value, None);
      this.table, this.checkpoint, this.value, this.active := table, before, mapped, true;
    }

    method CommitPublished(published: Wire) returns (r: Result<()>)
      requires checkpoint.aliases.scope == table.scope
      modifies this`active, table
      ensures !active
      ensures !old(active) ==> table.View() == old(table.View()) && r == Ok(())
      ensures old(active) ==>
        match Commit(checkpoint, old(table.View()), published, table.max)
        case Ok(after) => table.View() == after && r == Ok(())
        case Err(fault) => table.View() == checkpoint && r == Err(fault)
    {
      if !active { return Ok(()); }
      hide Prune;
      active := false;
      ghost var now := table.observed;
      table.PruneCells(checkpoint.observed, Published(published));
      ghost var half := table.observed;
      table.PruneNotebooks(checkpoint.observed, Published(published));
      if |table.observed.cellByRef| + |table.observed.notebookByRef| > table.max {
        table.Restore(checkpoint);
        return Err(ResourceLimit);
      }
      r := Ok(());
    }

    method Rollback()
      requires checkpoint.aliases.scope == table.scope
      modifies this`active, table
      ensures !active && table.View() == if old(active) then checkpoint else old(table.View())
    {
      if !active { return; }
      active := false;
      table.Restore(checkpoint);
    }
  }
}
