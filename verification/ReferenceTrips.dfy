/** What is presented can be resolved again: single references, and whole trees while the table grows. */
module ReferenceTrips {
  import opened Options
  import opened Utf16
  import opened Decimal
  import opened Literals
  import opened Wires
  import opened References

  // ---------------------------------------------------------------------------
  // keys
  // ---------------------------------------------------------------------------

  /** The keys of notebook `n` can be mistaken for keys of notebook `m`. */
  predicate Overlaps(n: Str, m: Str) { n + [NUL] <= m || m + [NUL] <= n }

  /** The lookup key determines notebook and reference unless the notebooks overlap; and if they do, it does not. */
  lemma KeysClashExactly(kind: Kind, n: Str, m: Str)
    requires Scoped(kind) && n != m
    ensures Overlaps(n, m) <==> exists f, g :: Key(kind, f, Some(n)) == Key(kind, g, Some(m))
  {
    if n + [NUL] <= m {
      var f := m[|n| + 1..] + [NUL];
      assert m == n + [NUL] + m[|n| + 1..];
      assert Key(kind, f, Some(n)) == Key(kind, [], Some(m));
    }
    if m + [NUL] <= n {
      var g := n[|m| + 1..] + [NUL];
      assert n == m + [NUL] + n[|m| + 1..];
      assert Key(kind, [], Some(n)) == Key(kind, g, Some(m));
    }
    forall f, g | Key(kind, f, Some(n)) == Key(kind, g, Some(m)) ensures Overlaps(n, m) {
      ClashOverlaps(kind, n, f, m, g);
    }
  }

  lemma ClashOverlaps(kind: Kind, n: Str, f: Str, m: Str, g: Str)
    requires Scoped(kind) && Key(kind, f, Some(n)) == Key(kind, g, Some(m))
    ensures (n == m && f == g) || Overlaps(n, m)
  {
    var a, b := n + [NUL] + f, m + [NUL] + g;
    assert a == b;
    if |n| < |m| {
      assert b[..|n| + 1] == m[..|n| + 1] && a[..|n| + 1] == n + [NUL];
    } else if |m| < |n| {
      assert a[..|m| + 1] == n[..|m| + 1] && b[..|m| + 1] == m + [NUL];
    } else {
      assert a[..|n|] == n && b[..|m|] == m;
      assert a[|n| + 1..] == f && b[|m| + 1..] == g;
    }
  }

  /** Notebook handles whose keys never meet; handles without a NUL character are such. */
  predicate Apart(names: set<Str>) { forall n, m | n in names && m in names :: !(n + [NUL] <= m) }

  lemma PrefixHasNul(n: Str, m: Str)
    requires n + [NUL] <= m
    ensures NUL in m
  {
    assert m[|n|] == (n + [NUL])[|n|];
  }

  lemma NulFreeApart(names: set<Str>)
    requires forall n | n in names :: NUL !in n
    ensures Apart(names)
  {
    forall n, m | n in names && m in names ensures !(n + [NUL] <= m) {
      if n + [NUL] <= m {
        PrefixHasNul(n, m);
      }
    }
  }

  // ---------------------------------------------------------------------------
  // the alias table
  // ---------------------------------------------------------------------------

  function OwnerOf(a: Aliases, slot: Slot): Option<Str> { if slot in a.owner then Some(a.owner[slot]) else None }

  /** The number in an alias of this connection. */
  function NumberOf(a: Aliases, text: Str): nat { if |text| > |a.scope| then ParseNat(text[|a.scope| + 1..]) else 0 }

  predicate AliasOk(a: Aliases, slot: Slot)
    requires slot in a.byAlias
  {
    && slot.text == AliasText(a.scope, slot.kind, NumberOf(a, slot.text)) && NumberOf(a, slot.text) < NextOf(a, slot.kind)
    && (Scoped(slot.kind) <==> slot in a.owner)
    && var key := Slot(slot.kind, Key(slot.kind, a.byAlias[slot], OwnerOf(a, slot)));
       key in a.byFull && a.byFull[key] == slot.text
  }

  predicate KeyOk(a: Aliases, key: Slot)
    requires key in a.byFull
  {
    var slot := Slot(key.kind, a.byFull[key]);
    slot in a.byAlias && Key(key.kind, a.byAlias[slot], OwnerOf(a, slot)) == key.text
  }

  /** The two tables are inverse to each other, and every alias is one this connection issued. */
  predicate TableOk(a: Aliases) {
    && a.scope != [] && a.scope[0] == AT
    && (forall slot | slot in a.byAlias :: AliasOk(a, slot))
    && (forall key | key in a.byFull :: KeyOk(a, key))
  }

  predicate Grows(a: Aliases, b: Aliases) {
    && a.scope == b.scope
    && (forall s | s in a.byAlias :: s in b.byAlias && b.byAlias[s] == a.byAlias[s] && OwnerOf(b, s) == OwnerOf(a, s))
  }

  predicate OwnersIn(a: Aliases, names: set<Str>) { forall s | s in a.owner && s in a.byAlias :: a.owner[s] in names }

  lemma NumberRead(a: Aliases, kind: Kind, n: nat)
    ensures NumberOf(a, AliasText(a.scope, kind, n)) == n
    ensures |AliasText(a.scope, kind, n)| > |a.scope|
  {
    NatTextRoundTrip(n);
    assert AliasText(a.scope, kind, n)[|a.scope| + 1..] == NatText(n);
  }

  /** An alias that has not been used. */
  predicate Unused(a: Aliases, kind: Kind, alias: Str) {
    alias == AliasText(a.scope, kind, NextOf(a, kind)) && Slot(kind, alias) !in a.byAlias
  }

  lemma NextIsUnused(a: Aliases, kind: Kind)
    requires TableOk(a)
    ensures Unused(a, kind, AliasText(a.scope, kind, NextOf(a, kind)))
  {
    hide AliasText, NumberOf, Key;
    var slot := Slot(kind, AliasText(a.scope, kind, NextOf(a, kind)));
    NumberRead(a, kind, NextOf(a, kind));
    assert slot in a.byAlias ==> AliasOk(a, slot);
  }

  lemma IssueAlias(a: Aliases, kind: Kind, full: Str, notebook: Option<Str>, alias: Str, slot: Slot)
    requires Unused(a, kind, alias) && (Scoped(kind) ==> notebook.Some?)
    requires Slot(kind, Key(kind, full, notebook)) !in a.byFull
    requires slot == Slot(kind, alias) || (slot in a.byAlias && AliasOk(a, slot))
    requires slot == Slot(kind, alias) ==> slot !in a.owner
    ensures AliasOk(Issue(a, kind, full, notebook, alias), slot)
  {
    hide AliasText;
    var b := Issue(a, kind, full, notebook, alias);
    assert NumberOf(b, slot.text) == NumberOf(a, slot.text);
    if slot == Slot(kind, alias) {
      NumberRead(a, kind, NextOf(a, kind));
      assert Key(kind, full, OwnerOf(b, slot)) == Key(kind, full, notebook);
    }
  }

  lemma IssueKey(a: Aliases, kind: Kind, full: Str, notebook: Option<Str>, alias: Str, key: Slot)
    requires Unused(a, kind, alias) && (Scoped(kind) ==> notebook.Some?) && Slot(kind, alias) !in a.owner
    requires key == Slot(kind, Key(kind, full, notebook)) || (key in a.byFull && KeyOk(a, key))
    ensures KeyOk(Issue(a, kind, full, notebook, alias), key)
  {
  }

  /** A new alias keeps the tables inverse. */
  lemma IssueKeeps(a: Aliases, kind: Kind, full: Str, notebook: Option<Str>, alias: Str)
    requires TableOk(a) && Unused(a, kind, alias) && (Scoped(kind) ==> notebook.Some?)
    requires Slot(kind, Key(kind, full, notebook)) !in a.byFull && Slot(kind, alias) !in a.owner
    ensures TableOk(Issue(a, kind, full, notebook, alias)) && Grows(a, Issue(a, kind, full, notebook, alias))
  {
    hide AliasText, NumberOf, AliasOk, KeyOk, Key;
    var b := Issue(a, kind, full, notebook, alias);
    forall slot | slot in b.byAlias ensures AliasOk(b, slot) {
      IssueAlias(a, kind, full, notebook, alias, slot);
    }
    forall key | key in b.byFull ensures KeyOk(b, key) {
      IssueKey(a, kind, full, notebook, alias, key);
    }
  }

  /** Owners are recorded for issued aliases only. */
  predicate OwnersIssued(a: Aliases) { forall s | s in a.owner :: s in a.byAlias }

  predicate Sound(a: Aliases) { TableOk(a) && OwnersIssued(a) }

  lemma PresentKeeps(a: Aliases, kind: Kind, full: Str, notebook: Option<Str>)
    requires Sound(a)
    ensures var (text, b) := Present(a, kind, full, notebook);
      && Sound(b) && Grows(a, b)
      && (forall names | OwnersIn(a, names) && (notebook.Some? ==> notebook.value in names) :: OwnersIn(b, names))
  {
    hide TableOk, AliasText, Key;
    var (text, b) := Present(a, kind, full, notebook);
    if b == a {
      assert Grows(a, a);
    } else {
      NextIsUnused(a, kind);
      IssueKeeps(a, kind, full, notebook, text);
    }
  }

  /** A literal cell or revision survives unless it needs the escape and has a lone surrogate. */
  predicate TextOk(kind: Kind, full: Str, notebook: Option<Str>) {
    Scoped(kind) && notebook.None? && NeedsEscaping(full) ==> WellFormed(full)
  }

  lemma AliasIsNotRaw(a: Aliases, slot: Slot)
    requires TableOk(a) && slot in a.byAlias
    ensures slot.text != [] && slot.text[0] == AT && !StartsRaw(slot.text)
  {
    hide KeyOk, NumberOf, Key, NatText, NextOf;
    assert AliasOk(a, slot);
  }

  /** What the presented alias stands for. */
  lemma PresentedDenotes(a: Aliases, kind: Kind, full: Str, notebook: Option<Str>)
    requires Sound(a) && !(Scoped(kind) && notebook.None?)
    ensures var (text, b) := Present(a, kind, full, notebook); var slot := Slot(kind, text);
      && Sound(b) && slot in b.byAlias && (Scoped(kind) <==> slot in b.owner)
      && Key(kind, b.byAlias[slot], OwnerOf(b, slot)) == Key(kind, full, notebook)
  {
    hide Key, AliasText, NumberOf;
    PresentKeeps(a, kind, full, notebook);
    var (text, b) := Present(a, kind, full, notebook);
    var key := Slot(kind, Key(kind, full, notebook));
    assert key in b.byFull && b.byFull[key] == text;
    assert KeyOk(b, key);
    assert AliasOk(b, Slot(kind, text));
  }

  lemma LiteralResolves(kind: Kind, full: Str, notebook: Option<Str>, later: Aliases)
    requires TableOk(later) && (NeedsEscaping(full) ==> WellFormed(full))
    ensures Resolve(later, kind, LiteralValue(full), notebook) == Ok(full)
  {
    hide TableOk, DecodeLiteral;
    LiteralRoundTrip(full);
    if Slot(kind, LiteralValue(full)) in later.byAlias {
      AliasIsNotRaw(later, Slot(kind, LiteralValue(full)));
    }
  }

  lemma AliasResolves(a: Aliases, kind: Kind, full: Str, notebook: Option<Str>, names: set<Str>, later: Aliases)
    requires Sound(a) && OwnersIn(a, names) && Apart(names) && (notebook.Some? ==> notebook.value in names)
    requires !(Scoped(kind) && notebook.None?)
    requires Grows(Present(a, kind, full, notebook).1, later) && Sound(later)
    ensures Resolve(later, kind, Present(a, kind, full, notebook).0, notebook) == Ok(full)
  {
    hide TableOk, Present, StartsRaw;
    var (text, b) := Present(a, kind, full, notebook);
    PresentKeeps(a, kind, full, notebook);
    var slot := Slot(kind, text);
    PresentedDenotes(a, kind, full, notebook);
    AliasIsNotRaw(b, slot);
    if Scoped(kind) {
      ClashOverlaps(kind, notebook.value, full, b.owner[slot], b.byAlias[slot]);
    }
  }

  /** Presenting and resolving, with any growth of the table in between. */
  lemma PresentResolves(a: Aliases, kind: Kind, full: Str, notebook: Option<Str>, names: set<Str>, later: Aliases)
    requires Sound(a) && OwnersIn(a, names) && Apart(names) && (notebook.Some? ==> notebook.value in names)
    requires TextOk(kind, full, notebook)
    requires Grows(Present(a, kind, full, notebook).1, later) && Sound(later)
    ensures Resolve(later, kind, Present(a, kind, full, notebook).0, notebook) == Ok(full)
  {
    if Scoped(kind) && notebook.None? {
      LiteralResolves(kind, full, notebook, later);
    } else {
      AliasResolves(a, kind, full, notebook, names, later);
    }
  }

  /** Overlapping handles do lose references: the second alias resolves to nothing. */
  lemma OverlapLoses(scope: Str, n: Str, m: Str)
    requires scope != [] && scope[0] == AT && n + [NUL] <= m
    ensures exists f, g ::
      var a := Aliases(scope, map[], map[], map[], map[]);
      var b := Present(a, Cell, f, Some(m)).1;
      var (alias, c) := Present(b, Cell, g, Some(n));
      Resolve(c, Cell, alias, Some(n)) == Err(HandleExpired)
  {
    var a := Aliases(scope, map[], map[], map[], map[]);
    var g := m[|n| + 1..] + [NUL];
    assert m == n + [NUL] + m[|n| + 1..];
    var (first, b) := Present(a, Cell, [], Some(m));
    var (alias, c) := Present(b, Cell, g, Some(n));
    assert Key(Cell, g, Some(n)) == Key(Cell, [], Some(m));
    assert alias == first && alias[0] == AT && c == b;
    assert !StartsRaw(alias) by { if |alias| >= 4 { assert alias[..4][0] == alias[0]; } }
    assert Resolve(c, Cell, alias, Some(n)) == Err(HandleExpired);
  }

  // ---------------------------------------------------------------------------
  // trees
  // ---------------------------------------------------------------------------

  lemma GrowsSelf(a: Aliases)
    ensures Grows(a, a)
  {
  }

  lemma GrowsTrans(a: Aliases, b: Aliases, c: Aliases)
    requires Grows(a, b) && Grows(b, c)
    ensures Grows(a, c)
  {
  }

  /** No observed versions, handles among `names`, and literals that survive the escape. */
  predicate Faithful(v: Wire, notebook: Option<Str>, names: set<Str>)
    decreases v
  {
    match v
    case Arr(items) => FaithfulItems(items, notebook, names)
    case Obj(fields) =>
      var own := OwnNotebook(fields, notebook);
      && RoleOf(fields, own).Plain? && (own.Some? ==> own.value in names)
      && FaithfulFields(fields, own, names)
    case _ => true
  }

  predicate FaithfulItems(items: seq<Wire>, notebook: Option<Str>, names: set<Str>)
    decreases items
  {
    items == [] || (Faithful(items[0], notebook, names) && FaithfulItems(items[1..], notebook, names))
  }

  predicate FaithfulList(kind: Kind, items: seq<Wire>, own: Option<Str>, names: set<Str>)
    decreases items
  {
    items == [] ||
    (&& (if items[0].Text? then TextOk(kind, items[0].s, own) else Faithful(items[0], own, names))
     && FaithfulList(kind, items[1..], own, names))
  }

  /** A member that survives the round trip. */
  predicate FaithfulField(f: Field, own: Option<Str>, names: set<Str>)
    decreases f
  {
    if f.key in OPAQUE_KEYS then true
    else if f.key in SINGULAR && f.value.Text? then TextOk(SINGULAR[f.key], f.value.s, own)
    else if f.key in PLURAL && f.value.Arr? then FaithfulList(PLURAL[f.key], f.value.items, own, names)
    else Faithful(f.value, own, names)
  }

  predicate FaithfulFields(fields: seq<Field>, own: Option<Str>, names: set<Str>)
    decreases fields
  {
    fields == [] || (FaithfulField(fields[0], own, names) && FaithfulFields(fields[1..], own, names))
  }

  // -- observed references -----------------------------------------------------------

  function RefNumber(scope: Str, ref: Str): nat { if |ref| > |scope| then ParseNat(ref[|scope| + 1..]) else 0 }

  predicate RefOk(scope: Str, o: Observed, ref: Str) {
    ref == RefText(scope, RefNumber(scope, ref)) && RefNumber(scope, ref) < o.next
  }

  /** By-reference and by-value tables are inverse, and every reference is one this connection issued. */
  predicate ObservedOk(scope: Str, o: Observed) {
    && (forall r | r in o.cellByRef ::
          RefOk(scope, o, r) && CellKey(o.cellByRef[r]) in o.cellByValue && o.cellByValue[CellKey(o.cellByRef[r])] == r)
    && (forall k | k in o.cellByValue :: o.cellByValue[k] in o.cellByRef && CellKey(o.cellByRef[o.cellByValue[k]]) == k)
    && (forall r | r in o.notebookByRef ::
          RefOk(scope, o, r) && NotebookKey(o.notebookByRef[r]) in o.notebookByValue
          && o.notebookByValue[NotebookKey(o.notebookByRef[r])] == r)
    && (forall k | k in o.notebookByValue ::
          o.notebookByValue[k] in o.notebookByRef && NotebookKey(o.notebookByRef[o.notebookByValue[k]]) == k)
    && (forall r | r in o.cellByRef :: r !in o.notebookByRef)
  }

  predicate Extends(o: Observed, p: Observed) {
    && o.next <= p.next
    && (forall r | r in o.cellByRef :: r in p.cellByRef && p.cellByRef[r] == o.cellByRef[r])
    && (forall r | r in o.notebookByRef :: r in p.notebookByRef && p.notebookByRef[r] == o.notebookByRef[r])
  }

  predicate ObservedGrows(scope: Str, o: Observed, p: Observed) {
    ObservedOk(scope, o) ==> ObservedOk(scope, p) && Extends(o, p)
  }

  lemma RefRead(scope: Str, n: nat)
    ensures RefNumber(scope, RefText(scope, n)) == n
  {
    NatTextRoundTrip(n);
    assert RefText(scope, n)[|scope| + 1..] == NatText(n);
  }

  lemma NextRefIsNew(scope: Str, o: Observed)
    requires ObservedOk(scope, o)
    ensures RefText(scope, o.next) !in o.cellByRef && RefText(scope, o.next) !in o.notebookByRef
    ensures RefOk(scope, o.(next := o.next + 1), RefText(scope, o.next))
  {
    hide RefText, RefNumber, CellKey, NotebookKey;
    RefRead(scope, o.next);
    var r := RefText(scope, o.next);
    assert r in o.cellByRef ==> RefOk(scope, o, r);
    assert r in o.notebookByRef ==> RefOk(scope, o, r);
  }

  lemma PresentCellKeeps(scope: Str, o: Observed, c: ObservedCell)
    ensures ObservedGrows(scope, o, PresentCell(o, scope, c).1)
  {
    hide CellKey, NotebookKey, RefText, RefNumber;
    if ObservedOk(scope, o) {
      NextRefIsNew(scope, o);
    }
  }

  lemma PresentNotebookKeeps(scope: Str, o: Observed, n: ObservedNotebook)
    ensures ObservedGrows(scope, o, PresentNotebook(o, scope, n).1)
  {
    hide CellKey, NotebookKey, RefText, RefNumber;
    if ObservedOk(scope, o) {
      NextRefIsNew(scope, o);
    }
  }

  // -- what presenting any tree keeps ------------------------------------------------

  predicate Preserved(s: Tables, t: Tables) {
    Sound(t.aliases) && Grows(s.aliases, t.aliases) && ObservedGrows(s.aliases.scope, s.observed, t.observed)
  }

  lemma PreservedSelf(t: Tables)
    requires Sound(t.aliases)
    ensures Preserved(t, t)
  {
  }

  lemma PreservedTrans(s: Tables, t: Tables, u: Tables)
    requires Preserved(s, t) && Preserved(t, u)
    ensures Preserved(s, u)
  {
  }

  lemma TextKeeps(t: Tables, kind: Kind, text: Str, own: Option<Str>)
    requires Sound(t.aliases)
    ensures Preserved(t, PresentText(t, kind, text, own).1)
  {
    hide Sound, Present, Grows, ObservedOk;
    PresentKeeps(t.aliases, kind, text, own);
  }

  lemma VersionKeeps(t: Tables, fields: seq<Field>, mapped: seq<Field>, own: Option<Str>)
    requires Sound(t.aliases)
    ensures Preserved(t, PresentVersion(t, fields, mapped, own).1)
  {
    hide Sound, Grows, PresentText, PresentCell, PresentNotebook, Put, Wires.Without, ObservedGrows;
    PreservedSelf(t);
    match RoleOf(fields, own)
    case Plain =>
    case CellVersion =>
      var seen := ObservedOf(fields, own.value);
      PresentCellKeeps(t.aliases.scope, t.observed, seen);
      var t1 := t.(observed := PresentCell(t.observed, t.aliases.scope, seen).1);
      assert Preserved(t, t1) by { GrowsSelf(t.aliases); }
      TextKeeps(t1, Cell, Get(fields, "cell_id").s, own);
      PreservedTrans(t, t1, PresentText(t1, Cell, Get(fields, "cell_id").s, own).1);

    case NotebookVersion =>
      var seen := ObservedNotebook(own.value, Get(fields, "notebook_metadata_revision").s);
      PresentNotebookKeeps(t.aliases.scope, t.observed, seen);

      GrowsSelf(t.aliases);
  }

  lemma {:induction false} TreeKeeps(t: Tables, v: Wire, notebook: Option<Str>)
    requires Sound(t.aliases)
    ensures Preserved(t, PresentTree(t, v, notebook).1)
    decreases v
  {
    hide Sound, OwnNotebook, PresentVersion;
    match v
    case Arr(items) => ItemsKeep(t, items, notebook);
    case Obj(fields) =>
      var own := OwnNotebook(fields, notebook);
      FieldsKeep(t, fields, fields, own);
      var (mapped, t1) := PresentFields(t, fields, fields, own);
      assert Sound(t1.aliases);
      VersionKeeps(t1, fields, mapped, own);
      PreservedTrans(t, t1, PresentVersion(t1, fields, mapped, own).1);
    case _ => assert Preserved(t, t) by { PreservedSelf(t); }
  }

  lemma {:induction false} ItemsKeep(t: Tables, items: seq<Wire>, notebook: Option<Str>)
    requires Sound(t.aliases)
    ensures Preserved(t, PresentItems(t, items, notebook).1)
    decreases items
  {
    hide Sound, PresentTree;
    if items == [] {
      assert Preserved(t, t) by { PreservedSelf(t); }
    } else {
      var (head, t1) := PresentTree(t, items[0], notebook);
      TreeKeeps(t, items[0], notebook);
      assert Sound(t1.aliases);
      ItemsKeep(t1, items[1..], notebook);
      PreservedTrans(t, t1, PresentItems(t1, items[1..], notebook).1);
    }
  }

  lemma {:induction false} ListKeeps(t: Tables, kind: Kind, items: seq<Wire>, own: Option<Str>)
    requires Sound(t.aliases)
    ensures Preserved(t, PresentList(t, kind, items, own).1)
    decreases items
  {
    hide Sound, PresentTree, PresentText;
    if items == [] {
      assert Preserved(t, t) by { PreservedSelf(t); }
    } else {
      var (head, t1) := if items[0].Text? then PresentText(t, kind, items[0].s, own) else PresentTree(t, items[0], own);
      if items[0].Text? {
        TextKeeps(t, kind, items[0].s, own);
      } else {
        TreeKeeps(t, items[0], own);
      }
      assert Sound(t1.aliases);
      ListKeeps(t1, kind, items[1..], own);
      PreservedTrans(t, t1, PresentList(t1, kind, items[1..], own).1);
    }
  }

  lemma {:induction false} FieldsKeep(t: Tables, all: seq<Field>, fields: seq<Field>, own: Option<Str>)
    requires Sound(t.aliases)
    ensures Preserved(t, PresentFields(t, all, fields, own).1)
    decreases fields
  {
    hide Sound, Kept, PresentTree, PresentText, PresentList;
    if fields == [] {
      assert Preserved(t, t) by { PreservedSelf(t); }
    } else {
      var (head, t1) := PresentField(t, all, fields[0], own);
      FieldKeeps(t, all, fields[0], own);
      assert Sound(t1.aliases);
      FieldsKeep(t1, all, fields[1..], own);
      PreservedTrans(t, t1, PresentFields(t1, all, fields[1..], own).1);
    }
  }

  lemma {:induction false} FieldKeeps(t: Tables, all: seq<Field>, f: Field, own: Option<Str>)
    requires Sound(t.aliases)
    ensures Preserved(t, PresentField(t, all, f, own).1)
    decreases f
  {
    hide Sound, Preserved, Kept, PresentTree, PresentText, PresentList;
    if Kept(all, own, f.key) {
      assert Preserved(t, t) by { PreservedSelf(t); }
    } else if f.key in SINGULAR && f.value.Text? {
      TextKeeps(t, SINGULAR[f.key], f.value.s, own);
    } else if f.key in PLURAL && f.value.Arr? {
      ListKeeps(t, PLURAL[f.key], f.value.items, own);
    } else {
      TreeKeeps(t, f.value, own);
    }
  }

  // -- owners come from the tree ---------------------------------------------------

  lemma TextOwners(t: Tables, kind: Kind, text: Str, own: Option<Str>, names: set<Str>)
    requires Sound(t.aliases) && OwnersIn(t.aliases, names) && (own.Some? ==> own.value in names)
    ensures OwnersIn(PresentText(t, kind, text, own).1.aliases, names)
  {
  }

  lemma {:induction false} TreeOwners(t: Tables, v: Wire, notebook: Option<Str>, names: set<Str>)
    requires Sound(t.aliases) && OwnersIn(t.aliases, names) && Faithful(v, notebook, names)
    requires notebook.Some? ==> notebook.value in names
    ensures OwnersIn(PresentTree(t, v, notebook).1.aliases, names)
    decreases v
  {
    hide Sound, OwnersIn, RoleOf;
    match v
    case Arr(items) => ItemsOwners(t, items, notebook, names);
    case Obj(fields) =>
      FieldsOwners(t, fields, fields, OwnNotebook(fields, notebook), names);
    case _ =>
  }

  lemma {:induction false} ItemsOwners(t: Tables, items: seq<Wire>, notebook: Option<Str>, names: set<Str>)
    requires Sound(t.aliases) && OwnersIn(t.aliases, names) && FaithfulItems(items, notebook, names)
    requires notebook.Some? ==> notebook.value in names
    ensures OwnersIn(PresentItems(t, items, notebook).1.aliases, names)
    decreases items
  {
    hide Sound, OwnersIn, PresentTree, Grows;
    if items != [] {
      TreeOwners(t, items[0], notebook, names);
      TreeKeeps(t, items[0], notebook);
      ItemsOwners(PresentTree(t, items[0], notebook).1, items[1..], notebook, names);
    }
  }

  lemma {:induction false} ListOwners(t: Tables, kind: Kind, items: seq<Wire>, own: Option<Str>, names: set<Str>)
    requires Sound(t.aliases) && OwnersIn(t.aliases, names) && FaithfulList(kind, items, own, names)
    requires own.Some? ==> own.value in names
    ensures OwnersIn(PresentList(t, kind, items, own).1.aliases, names)
    decreases items
  {
    hide Sound, OwnersIn, PresentTree, PresentText, Grows;
    if items != [] {
      if items[0].Text? {
        TextOwners(t, kind, items[0].s, own, names);
        TextKeeps(t, kind, items[0].s, own);
        ListOwners(PresentText(t, kind, items[0].s, own).1, kind, items[1..], own, names);
      } else {
        TreeOwners(t, items[0], own, names);
        TreeKeeps(t, items[0], own);
        ListOwners(PresentTree(t, items[0], own).1, kind, items[1..], own, names);
      }
    }
  }

  lemma {:induction false} FieldsOwners(t: Tables, all: seq<Field>, fields: seq<Field>, own: Option<Str>, names: set<Str>)
    requires Sound(t.aliases) && OwnersIn(t.aliases, names) && FaithfulFields(fields, own, names)
    requires RoleOf(all, own).Plain? && (own.Some? ==> own.value in names)
    ensures OwnersIn(PresentFields(t, all, fields, own).1.aliases, names)
    decreases fields
  {
    hide Sound, OwnersIn, PresentField, Grows, RoleOf, Faithful, FaithfulList;
    if fields != [] {
      FieldOwners(t, all, fields[0], own, names);
      FieldKeeps(t, all, fields[0], own);
      FieldsOwners(PresentField(t, all, fields[0], own).1, all, fields[1..], own, names);
    }
  }

  lemma PlainKept(all: seq<Field>, own: Option<Str>, key: string)
    requires RoleOf(all, own).Plain?
    ensures Kept(all, own, key) <==> key in OPAQUE_KEYS
  {
  }

  lemma {:induction false} FieldOwners(t: Tables, all: seq<Field>, f: Field, own: Option<Str>, names: set<Str>)
    requires Sound(t.aliases) && OwnersIn(t.aliases, names) && FaithfulField(f, own, names)
    requires RoleOf(all, own).Plain? && (own.Some? ==> own.value in names)
    ensures OwnersIn(PresentField(t, all, f, own).1.aliases, names)
    decreases f
  {
    hide Sound, OwnersIn, PresentTree, PresentText, PresentList, Kept, RoleOf;
    PlainKept(all, own, f.key);
    if f.key in OPAQUE_KEYS {
    } else if f.key in SINGULAR && f.value.Text? {
      TextOwners(t, SINGULAR[f.key], f.value.s, own, names);
    } else if f.key in PLURAL && f.value.Arr? {
      ListOwners(t, PLURAL[f.key], f.value.items, own, names);
    } else {
      TreeOwners(t, f.value, own, names);
    }
  }

  // -- and back --------------------------------------------------------------------

  /** The table `later` still knows everything that was issued up to `b`. */
  predicate Knows(b: Aliases, later: Aliases) { Sound(later) && Grows(b, later) }

  lemma KnewBefore(s: Tables, t: Tables, later: Aliases)
    requires Preserved(s, t) && Knows(t.aliases, later)
    ensures Knows(s.aliases, later)
  {
  }

  lemma TextBack(t: Tables, kind: Kind, text: Str, own: Option<Str>, names: set<Str>, later: Aliases)
    requires Sound(t.aliases) && OwnersIn(t.aliases, names) && Apart(names) && (own.Some? ==> own.value in names)
    requires TextOk(kind, text, own) && Knows(PresentText(t, kind, text, own).1.aliases, later)
    ensures ResolveText(later, kind, PresentText(t, kind, text, own).0.s, own) == Ok(Text(text))
  {
    hide Sound, Present, Resolve, OwnersIn, Apart, Grows;
    PresentResolves(t.aliases, kind, text, own, names, later);
  }

  lemma {:induction false} TreeBack(t: Tables, v: Wire, notebook: Option<Str>, names: set<Str>, later: Aliases)
    requires Sound(t.aliases) && OwnersIn(t.aliases, names) && Apart(names) && Faithful(v, notebook, names)
    requires notebook.Some? ==> notebook.value in names
    requires Knows(PresentTree(t, v, notebook).1.aliases, later)
    ensures ResolveTree(later, PresentTree(t, v, notebook).0, notebook) == Ok(v)
    decreases v
  {
    hide Sound, OwnersIn, Apart, Knows, RoleOf, IsText, Get;
    match v
    case Arr(items) => ItemsBack(t, items, notebook, names, later);
    case Obj(fields) =>
      var own := OwnNotebook(fields, notebook);
      assert own.Some? ==> own.value in names;
      FieldsBack(t, fields, fields, own, names, later);
      OwnBack(t, fields, fields, own, notebook, names, later);
      var mapped := PresentFields(t, fields, fields, own).0;
      assert ResolveObject(later, mapped, own) == Ok(v);
      assert ResolveTree(later, Obj(mapped), notebook) == ResolveObject(later, mapped, own);
    case _ =>
  }

  lemma {:induction false} ItemsBack(t: Tables, items: seq<Wire>, notebook: Option<Str>, names: set<Str>, later: Aliases)
    requires Sound(t.aliases) && OwnersIn(t.aliases, names) && Apart(names) && FaithfulItems(items, notebook, names)
    requires notebook.Some? ==> notebook.value in names
    requires Knows(PresentItems(t, items, notebook).1.aliases, later)
    ensures ResolveItems(later, PresentItems(t, items, notebook).0, notebook) == Ok(items)
    decreases items
  {
    hide Sound, OwnersIn, Apart, Knows, PresentTree, ResolveTree, Grows, Faithful;
    if items != [] {
      var (head, t1) := PresentTree(t, items[0], notebook);
      var (tail, t2) := PresentItems(t1, items[1..], notebook);
      TreeKeeps(t, items[0], notebook);
      TreeOwners(t, items[0], notebook, names);
      ItemsKeep(t1, items[1..], notebook);
      KnewBefore(t1, t2, later);
      TreeBack(t, items[0], notebook, names, later);
      ItemsBack(t1, items[1..], notebook, names, later);
      assert ([head] + tail)[1..] == tail && items == [items[0]] + items[1..];
    }
  }

  lemma {:induction false} ListBack(t: Tables, kind: Kind, items: seq<Wire>, own: Option<Str>, names: set<Str>, later: Aliases)
    requires Sound(t.aliases) && OwnersIn(t.aliases, names) && Apart(names) && FaithfulList(kind, items, own, names)
    requires own.Some? ==> own.value in names
    requires Knows(PresentList(t, kind, items, own).1.aliases, later)
    ensures ResolveList(later, kind, PresentList(t, kind, items, own).0, own) == Ok(items)
    decreases items
  {
    hide Sound, OwnersIn, Apart, Knows, PresentTree, ResolveTree, ResolveText, Grows, Faithful, TextOk;
    if items != [] {
      var (head, t1) := if items[0].Text? then PresentText(t, kind, items[0].s, own) else PresentTree(t, items[0], own);
      var (tail, t2) := PresentList(t1, kind, items[1..], own);
      if items[0].Text? {
        TextKeeps(t, kind, items[0].s, own);
        TextOwners(t, kind, items[0].s, own, names);
      } else {
        TreeKeeps(t, items[0], own);
        TreeOwners(t, items[0], own, names);
        SameShape(t, items[0], own);
      }
      ListKeeps(t1, kind, items[1..], own);
      KnewBefore(t1, t2, later);
      if items[0].Text? {
        TextBack(t, kind, items[0].s, own, names, later);
        assert head.Text?;
      } else {
        TreeBack(t, items[0], own, names, later);
      }
      ListBack(t1, kind, items[1..], own, names, later);
      assert ([head] + tail)[1..] == tail && items == [items[0]] + items[1..];
    }
  }

  /** Mapping keeps texts texts, lists lists and nothing else. */
  lemma SameShape(t: Tables, v: Wire, notebook: Option<Str>)
    ensures PresentTree(t, v, notebook).0.Text? <==> v.Text?
    ensures PresentTree(t, v, notebook).0.Arr? <==> v.Arr?
  {
  }

  lemma {:induction false} FieldsBack(t: Tables, all: seq<Field>, fields: seq<Field>, own: Option<Str>, names: set<Str>, later: Aliases)
    requires Sound(t.aliases) && OwnersIn(t.aliases, names) && Apart(names) && FaithfulFields(fields, own, names)
    requires RoleOf(all, own).Plain? && (own.Some? ==> own.value in names)
    requires Knows(PresentFields(t, all, fields, own).1.aliases, later)
    ensures ResolveFields(later, PresentFields(t, all, fields, own).0, own) == Ok(fields)
    decreases fields
  {
    hide Sound, OwnersIn, Apart, Knows, PresentField, ResolveField, Grows, RoleOf, Faithful, FaithfulList, TextOk;
    if fields != [] {
      var (head, t1) := PresentField(t, all, fields[0], own);
      var (tail, t2) := PresentFields(t1, all, fields[1..], own);
      FieldKeeps(t, all, fields[0], own);
      FieldOwners(t, all, fields[0], own, names);
      FieldsKeep(t1, all, fields[1..], own);
      KnewBefore(t1, t2, later);
      FieldBack(t, all, fields[0], own, names, later);
      FieldsBack(t1, all, fields[1..], own, names, later);
      assert ([Field(fields[0].key, head)] + tail)[1..] == tail && fields == [fields[0]] + fields[1..];
    }
  }

  lemma {:induction false} FieldBack(t: Tables, all: seq<Field>, f: Field, own: Option<Str>, names: set<Str>, later: Aliases)
    requires Sound(t.aliases) && OwnersIn(t.aliases, names) && Apart(names) && FaithfulField(f, own, names)
    requires RoleOf(all, own).Plain? && (own.Some? ==> own.value in names)
    requires Knows(PresentField(t, all, f, own).1.aliases, later)
    ensures ResolveField(later, Field(f.key, PresentField(t, all, f, own).0), own) == Ok(f.value)
    decreases f
  {
    hide Sound, OwnersIn, Apart, Knows, PresentTree, PresentList, ResolveTree, ResolveText, ResolveList, Kept, RoleOf;
    PlainKept(all, own, f.key);
    if f.key in OPAQUE_KEYS {
    } else if f.key in SINGULAR && f.value.Text? {
      assert PresentText(t, SINGULAR[f.key], f.value.s, own).0.Text?;
      TextBack(t, SINGULAR[f.key], f.value.s, own, names, later);
    } else if f.key in PLURAL && f.value.Arr? {
      ListBack(t, PLURAL[f.key], f.value.items, own, names, later);
    } else {
      SameShape(t, f.value, own);
      TreeBack(t, f.value, own, names, later);
    }
  }

  /** The object's own handle is found again under the same key. */
  lemma {:induction false} OwnBack(
      t: Tables, all: seq<Field>, fields: seq<Field>, own: Option<Str>, notebook: Option<Str>, names: set<Str>, later: Aliases)
    requires Sound(t.aliases) && OwnersIn(t.aliases, names) && Apart(names) && FaithfulFields(fields, own, names)
    requires RoleOf(all, own).Plain? && (own.Some? ==> own.value in names)
    requires Knows(PresentFields(t, all, fields, own).1.aliases, later)
    ensures var mapped := PresentFields(t, all, fields, own).0;
      && (IsText(mapped, "notebook_id") <==> IsText(fields, "notebook_id"))
      && (IsText(fields, "notebook_id") ==>
            Resolve(later, Notebook, Get(mapped, "notebook_id").s, notebook) == Ok(Get(fields, "notebook_id").s))
    decreases fields
  {
    hide Sound, OwnersIn, Apart, Knows, PresentField, Grows, RoleOf, Faithful, FaithfulList, TextOk, Resolve;
    if fields != [] {
      var (head, t1) := PresentField(t, all, fields[0], own);
      var (tail, t2) := PresentFields(t1, all, fields[1..], own);
      FieldKeeps(t, all, fields[0], own);
      FieldOwners(t, all, fields[0], own, names);
      FieldsKeep(t1, all, fields[1..], own);
      KnewBefore(t1, t2, later);
      if fields[0].key == "notebook_id" {
        HandleBack(t, all, fields[0], own, notebook, names, later);
      } else {
        OwnBack(t1, all, fields[1..], own, notebook, names, later);
        SkipField(fields[0], fields[1..]);
        SkipField(Field(fields[0].key, head), tail);
        assert [Field(fields[0].key, head)] + tail == PresentFields(t, all, fields, own).0;
        assert fields == [fields[0]] + fields[1..];
      }
    }
  }

  lemma SkipField(f: Field, rest: seq<Field>)
    requires f.key != "notebook_id"
    ensures IsText([f] + rest, "notebook_id") == IsText(rest, "notebook_id")
    ensures Get([f] + rest, "notebook_id") == Get(rest, "notebook_id")
  {
  }

  lemma HandleKey()
    ensures "notebook_id" !in OPAQUE_KEYS && "notebook_id" in SINGULAR && SINGULAR["notebook_id"] == Notebook
  {
  }

  lemma HandleBack(t: Tables, all: seq<Field>, f: Field, own: Option<Str>, notebook: Option<Str>, names: set<Str>, later: Aliases)
    requires Sound(t.aliases) && OwnersIn(t.aliases, names) && Apart(names) && FaithfulField(f, own, names)
    requires RoleOf(all, own).Plain? && (own.Some? ==> own.value in names) && f.key == "notebook_id"
    requires Knows(PresentField(t, all, f, own).1.aliases, later)
    ensures PresentField(t, all, f, own).0.Text? <==> f.value.Text?
    ensures f.value.Text? ==> Resolve(later, Notebook, PresentField(t, all, f, own).0.s, notebook) == Ok(f.value.s)
  {
    hide Sound, OwnersIn, Apart, PresentTree, PresentList, Kept, RoleOf, Present, Resolve, Grows;
    PlainKept(all, own, f.key);
    HandleKey();
    SameShape(t, f.value, own);
    if f.value.Text? {
      PresentResolves(t.aliases, Notebook, f.value.s, own, names, later);
      AnyScope(later, PresentField(t, all, f, own).0.s, own, notebook);
    }
  }

  /** Notebook handles have no owner, so they resolve alike everywhere. */
  lemma AnyScope(a: Aliases, text: Str, n: Option<Str>, m: Option<Str>)
    requires Sound(a)
    ensures Resolve(a, Notebook, text, n) == Resolve(a, Notebook, text, m)
  {
  }

  /** What every JavaScript object inherits: looking up such a key in a table of kinds finds something. */
  const INHERITED_KEYS: set<string> := {
    "constructor", "hasOwnProperty", "isPrototypeOf", "propertyIsEnumerable", "toLocaleString", "toString", "valueOf",
    "__defineGetter__", "__defineSetter__", "__lookupGetter__", "__lookupSetter__", "__proto__"
  }

  /** No member that is looked at has such a key and a text, alone or in a list, to be mapped; none is `__proto__`. */
  predicate Ordinary(v: Wire)
    decreases v
  {
    match v
    case Arr(items) => forall i | 0 <= i < |items| :: Ordinary(items[i])
    case Obj(fields) =>
      forall i | 0 <= i < |fields| && fields[i].key !in OPAQUE_KEYS ::
        && fields[i].key != "__proto__" && Ordinary(fields[i].value)
        && (fields[i].key in INHERITED_KEYS ==>
              !fields[i].value.Text? && (fields[i].value.Arr? ==> forall w | w in fields[i].value.items :: !w.Text?))
    case _ => true
  }

  /**
   * Every tree comes back: whatever the table already held and whatever it learns later,
   * resolving the presented tree gives the original. (On a tree that is not ordinary the source throws
   * in the middle of the walk, or loses the member.)
   */
  lemma TreeRoundTrip(t: Tables, v: Wire, names: set<Str>, later: Aliases)
    requires Sound(t.aliases) && OwnersIn(t.aliases, names) && Apart(names) && Faithful(v, None, names) && Ordinary(v)
    requires Grows(PresentTree(t, v, None).1.aliases, later) && Sound(later)
    ensures ResolveTree(later, PresentTree(t, v, None).0, None) == Ok(v)
  {
    hide Sound, OwnersIn, Apart, Faithful, Grows;
    TreeBack(t, v, None, names, later);
  }
}
