/** What a presented tree shows: every reference resolves back, every observed version can be looked up. */
module ObservedTrees {
  import opened Options
  import opened Utf16
  import opened Literals
  import opened Wires
  import opened References
  import opened ReferenceTrips
  import opened ReferenceStages

  // ---------------------------------------------------------------------------
  // what is promised
  // ---------------------------------------------------------------------------

  const CELL_KEYS: set<string> := {"identity_token", "source_revision", "cell_revision", "outputs_revision"}

  /** An object that describes one version of a cell. */
  predicate DescribesCell(fields: seq<Field>, own: Option<Str>) {
    && own.Some? && IsText(fields, "cell_id") && IsText(fields, "identity_token") && IsText(fields, "source_revision")
    && IsText(fields, "cell_revision")
    && (IsText(fields, "outputs_revision") || (Has(fields, "outputs_revision") && Get(fields, "outputs_revision").Null?))
  }

  /** ... or of a notebook. */
  predicate DescribesNotebook(fields: seq<Field>, own: Option<Str>) {
    own.Some? && IsText(fields, "notebook_metadata_revision") && !DescribesCell(fields, own)
  }

  predicate InSummary(fields: seq<Field>) {
    IsText(fields, "cell_type") && (Get(fields, "index").Int? || Get(fields, "index").Number?)
  }

  /** The observation is the one the members describe; no outputs revision and an empty one look alike. */
  predicate Matches(c: ObservedCell, fields: seq<Field>, own: Str) {
    && c.notebook == own && Get(fields, "cell_id") == Text(c.cellId) && Get(fields, "identity_token") == Text(c.identity)
    && Get(fields, "source_revision") == Text(c.sourceRevision) && Get(fields, "cell_revision") == Text(c.cellRevision)
    && (match c.outputsRevision
        case Some(revision) => Get(fields, "outputs_revision") == Text(revision) || (revision == [] && Get(fields, "outputs_revision").Null?)
        case None => Get(fields, "outputs_revision").Null? || Get(fields, "outputs_revision") == Text([]))
  }

  /** A described cell shows a reference instead: it looks up the observation, and the members of the version are gone. */
  predicate CellShown(fields: seq<Field>, shown: seq<Field>, own: Option<Str>, later: Tables) {
    DescribesCell(fields, own) ==>
      && IsText(shown, "cell_ref")
      && LookupCell(later.observed, Get(shown, "cell_ref").s, own.value).Ok?
      && Matches(LookupCell(later.observed, Get(shown, "cell_ref").s, own.value).value, fields, own.value)
      && (forall key | key in CELL_KEYS :: !Has(shown, key))
      && (if InSummary(fields) then Denotes(Cell, Get(shown, "cell_id"), Get(fields, "cell_id").s, own, later) else !Has(shown, "cell_id"))
  }

  predicate NotebookShown(fields: seq<Field>, shown: seq<Field>, own: Option<Str>, later: Tables) {
    DescribesNotebook(fields, own) ==>
      && IsText(shown, "notebook_ref")
      && LookupNotebook(later.observed, Get(shown, "notebook_ref").s, own.value)
         == Ok(ObservedNotebook(own.value, Get(fields, "notebook_metadata_revision").s))
      && !Has(shown, "notebook_metadata_revision")
  }

  /** A shown text that resolves to the original. */
  predicate Denotes(kind: Kind, shown: Wire, text: Str, own: Option<Str>, later: Tables) {
    shown.Text? && Resolve(later.aliases, kind, shown.s, own) == Ok(text)
  }

  /** The members that stand for the version. */
  predicate Replaced(fields: seq<Field>, own: Option<Str>, key: string) {
    || (DescribesCell(fields, own) && (key in CELL_KEYS || key == "cell_id" || key == "cell_ref"))
    || (DescribesNotebook(fields, own) && key == "notebook_ref")
    || (own.Some? && key == "notebook_metadata_revision" && IsText(fields, key))
  }

  /** A presented value: references resolve back, versions are looked up, everything else is as it was. */
  predicate Shown(v: Wire, w: Wire, notebook: Option<Str>, later: Tables)
    decreases v
  {
    match v
    case Arr(items) => w.Arr? && |w.items| == |items| && forall i | 0 <= i < |items| :: Shown(items[i], w.items[i], notebook, later)
    case Obj(fields) =>
      var own := OwnNotebook(fields, notebook);
      && w.Obj? && CellShown(fields, w.fields, own, later) && NotebookShown(fields, w.fields, own, later)
      && forall i | 0 <= i < |fields| && Wires.IndexOf(fields, fields[i].key) == i && !Replaced(fields, own, fields[i].key) ::
           Has(w.fields, fields[i].key) && MemberShown(fields[i], Get(w.fields, fields[i].key), own, later)
    case _ => w == v
  }

  predicate MemberShown(f: Field, w: Wire, own: Option<Str>, later: Tables)
    decreases f
  {
    if f.key in OPAQUE_KEYS then w == f.value
    else if f.key in SINGULAR && f.value.Text? then Denotes(SINGULAR[f.key], w, f.value.s, own, later)
    else if f.key in PLURAL && f.value.Arr? then
      && w.Arr? && |w.items| == |f.value.items|
      && forall i | 0 <= i < |f.value.items| ::
           if f.value.items[i].Text? then Denotes(PLURAL[f.key], w.items[i], f.value.items[i].s, own, later)
           else Shown(f.value.items[i], w.items[i], own, later)
    else Shown(f.value, w, own, later)
  }

  // ---------------------------------------------------------------------------
  // what is assumed
  // ---------------------------------------------------------------------------

  predicate NoNul(fields: seq<Field>, key: string) { IsText(fields, key) ==> NUL !in Get(fields, key).s }

  /** Handles among `names`, literals that survive the escape, and no NUL in what a version is made of. */
  predicate Clean(v: Wire, notebook: Option<Str>, names: set<Str>)
    decreases v
  {
    match v
    case Arr(items) => forall i | 0 <= i < |items| :: Clean(items[i], notebook, names)
    case Obj(fields) =>
      var own := OwnNotebook(fields, notebook);
      && (own.Some? ==> own.value in names && NUL !in own.value)
      && NoNul(fields, "cell_id") && NoNul(fields, "identity_token") && NoNul(fields, "source_revision") && NoNul(fields, "cell_revision")
      && forall i | 0 <= i < |fields| && fields[i].key !in OPAQUE_KEYS :: CleanMember(fields[i], own, names)
    case _ => true
  }

  predicate CleanMember(f: Field, own: Option<Str>, names: set<Str>)
    decreases f
  {
    && (f.key in SINGULAR && f.value.Text? ==> TextOk(SINGULAR[f.key], f.value.s, own))
    && (f.key in PLURAL && f.value.Arr? ==>
          forall i | 0 <= i < |f.value.items| && f.value.items[i].Text? :: TextOk(PLURAL[f.key], f.value.items[i].s, own))
    && Clean(f.value, own, names)
  }

  predicate AllNulFree(o: Observed) {
    && (forall r | r in o.cellByRef :: NulFree(o.cellByRef[r]))
    && (forall r | r in o.notebookByRef :: NUL !in o.notebookByRef[r].notebook)
  }

  /** Tables as this connection builds them from clean trees. */
  predicate Good(t: Tables, names: set<Str>) {
    && Sound(t.aliases) && OwnersIn(t.aliases, names) && ObservedOk(t.aliases.scope, t.observed) && AllNulFree(t.observed)
  }

  predicate InNames(own: Option<Str>, names: set<Str>) { own.Some? ==> own.value in names && NUL !in own.value }

  // ---------------------------------------------------------------------------
  // the tables stay good
  // ---------------------------------------------------------------------------

  lemma TextGood(t: Tables, kind: Kind, text: Str, own: Option<Str>, names: set<Str>)
    requires Good(t, names) && InNames(own, names)
    ensures Good(PresentText(t, kind, text, own).1, names)
  {
    hide Sound, OwnersIn, ObservedOk, AllNulFree, Present, Grows;
    TextOwners(t, kind, text, own, names);
    PresentKeeps(t.aliases, kind, text, own);
    assert PresentText(t, kind, text, own).1.aliases.scope == t.aliases.scope by { ScopeKept(t.aliases, kind, text, own); }
  }

  lemma ScopeKept(a: Aliases, kind: Kind, text: Str, own: Option<Str>)
    ensures Present(a, kind, text, own).1.scope == a.scope
  {
  }

  lemma SameRole(fields: seq<Field>, own: Option<Str>)
    ensures DescribesCell(fields, own) <==> RoleOf(fields, own).CellVersion?
    ensures DescribesNotebook(fields, own) <==> RoleOf(fields, own).NotebookVersion?
  {
  }

  predicate CleanVersion(fields: seq<Field>) {
    NoNul(fields, "cell_id") && NoNul(fields, "identity_token") && NoNul(fields, "source_revision") && NoNul(fields, "cell_revision")
  }

  lemma SeenIsFree(fields: seq<Field>, own: Str)
    requires IsObservedCell(fields) && CleanVersion(fields) && NUL !in own
    ensures NulFree(ObservedOf(fields, own)) && Matches(ObservedOf(fields, own), fields, own)
  {
  }

  lemma CellGood(t: Tables, c: ObservedCell, names: set<Str>)
    requires Good(t, names) && NulFree(c)
    ensures Good(t.(observed := PresentCell(t.observed, t.aliases.scope, c).1), names)
  {
    hide Sound, OwnersIn, CellKey, NulFree, RefText, ObservedOk;
    PresentCellKeeps(t.aliases.scope, t.observed, c);
  }

  lemma NotebookGood(t: Tables, n: ObservedNotebook, names: set<Str>)
    requires Good(t, names) && NUL !in n.notebook
    ensures Good(t.(observed := PresentNotebook(t.observed, t.aliases.scope, n).1), names)
  {
    hide Sound, OwnersIn, NotebookKey, NulFree, RefText, ObservedOk;
    PresentNotebookKeeps(t.aliases.scope, t.observed, n);
  }

  lemma VersionGood(t: Tables, fields: seq<Field>, mapped: seq<Field>, own: Option<Str>, names: set<Str>)
    requires Good(t, names) && InNames(own, names) && CleanVersion(fields)
    ensures Good(PresentVersion(t, fields, mapped, own).1, names)
  {
    hide Good, PresentText, PresentCell, PresentNotebook, Put, Wires.Without, Get, Has, CleanVersion;
    match RoleOf(fields, own)
    case Plain =>
    case CellVersion =>
      var seen := ObservedOf(fields, own.value);
      SeenIsFree(fields, own.value);
      CellGood(t, seen, names);
      var t1 := t.(observed := PresentCell(t.observed, t.aliases.scope, seen).1);
      TextGood(t1, Cell, Get(fields, "cell_id").s, own, names);
    case NotebookVersion => NotebookGood(t, ObservedNotebook(own.value, Get(fields, "notebook_metadata_revision").s), names);
  }

  lemma {:induction false} TreeGood(t: Tables, v: Wire, notebook: Option<Str>, names: set<Str>)
    requires Good(t, names) && Clean(v, notebook, names) && InNames(notebook, names)
    ensures Good(PresentTree(t, v, notebook).1, names)
    decreases v
  {
    hide Good, OwnNotebook, PresentVersion, CleanMember, NoNul;
    match v
    case Arr(items) => ItemsGood(t, items, notebook, names);
    case Obj(fields) =>
      var own := OwnNotebook(fields, notebook);
      FieldsGood(t, fields, fields, own, names);
      var (mapped, t1) := PresentFields(t, fields, fields, own);
      VersionGood(t1, fields, mapped, own, names);
    case _ =>
  }

  lemma {:induction false} ItemsGood(t: Tables, items: seq<Wire>, notebook: Option<Str>, names: set<Str>)
    requires Good(t, names) && InNames(notebook, names) && forall i | 0 <= i < |items| :: Clean(items[i], notebook, names)
    ensures Good(PresentItems(t, items, notebook).1, names)
    decreases items
  {
    hide Good, PresentTree, Clean;
    if items != [] {
      TreeGood(t, items[0], notebook, names);
      ItemsGood(PresentTree(t, items[0], notebook).1, items[1..], notebook, names);
    }
  }

  lemma {:induction false} ListGood(t: Tables, kind: Kind, items: seq<Wire>, own: Option<Str>, names: set<Str>)
    requires Good(t, names) && InNames(own, names) && forall i | 0 <= i < |items| :: Clean(items[i], own, names)
    ensures Good(PresentList(t, kind, items, own).1, names)
    decreases items
  {
    hide Good, PresentTree, PresentText, Clean;
    if items != [] {
      if items[0].Text? { TextGood(t, kind, items[0].s, own, names); } else { TreeGood(t, items[0], own, names); }
      ListGood(PresentEntry(t, kind, items[0], own).1, kind, items[1..], own, names);
    }
  }

  lemma {:induction false} FieldsGood(t: Tables, all: seq<Field>, fields: seq<Field>, own: Option<Str>, names: set<Str>)
    requires Good(t, names) && InNames(own, names)
    requires forall i | 0 <= i < |fields| && fields[i].key !in OPAQUE_KEYS :: CleanMember(fields[i], own, names)
    ensures Good(PresentFields(t, all, fields, own).1, names)
    decreases fields
  {
    hide Good, PresentField, CleanMember;
    if fields != [] {
      FieldGood(t, all, fields[0], own, names);
      FieldsGood(PresentField(t, all, fields[0], own).1, all, fields[1..], own, names);
    }
  }

  lemma {:induction false} FieldGood(t: Tables, all: seq<Field>, f: Field, own: Option<Str>, names: set<Str>)
    requires Good(t, names) && InNames(own, names) && (f.key !in OPAQUE_KEYS ==> CleanMember(f, own, names))
    ensures Good(PresentField(t, all, f, own).1, names)
    decreases f
  {
    hide Good, Kept, PresentTree, PresentText, PresentList;
    if Kept(all, own, f.key) {
    } else if f.key in OPAQUE_KEYS {
      assert false by { OpaqueKept(all, own, f.key); }
    } else if f.key in SINGULAR && f.value.Text? {
      TextGood(t, SINGULAR[f.key], f.value.s, own, names);
    } else if f.key in PLURAL && f.value.Arr? {
      ListGood(t, PLURAL[f.key], f.value.items, own, names);
    } else {
      TreeGood(t, f.value, own, names);
    }
  }

  lemma OpaqueKept(all: seq<Field>, own: Option<Str>, key: string)
    requires key in OPAQUE_KEYS
    ensures Kept(all, own, key)
  {
  }

  // ---------------------------------------------------------------------------
  // what is shown
  // ---------------------------------------------------------------------------

  /** The tables `later` still know everything that was issued up to `t`. */
  predicate After(t: Tables, later: Tables) { Knows(t.aliases, later.aliases) && Extends(t.observed, later.observed) }

  lemma AfterBefore(s: Tables, t: Tables, later: Tables)
    requires Preserved(s, t) && ObservedOk(s.aliases.scope, s.observed) && After(t, later)
    ensures After(s, later)
  {
    hide ObservedOk;
    KnewBefore(s, t, later.aliases);
  }

  lemma TextShown(t: Tables, kind: Kind, text: Str, own: Option<Str>, names: set<Str>, later: Tables)
    requires Good(t, names) && InNames(own, names) && Apart(names) && TextOk(kind, text, own)
    requires After(PresentText(t, kind, text, own).1, later)
    ensures Denotes(kind, PresentText(t, kind, text, own).0, text, own, later)
  {
    hide Sound, OwnersIn, Apart, ObservedOk, AllNulFree, Present, Resolve, Knows;
    TextBack(t, kind, text, own, names, later.aliases);
    assert PresentText(t, kind, text, own).0.Text?;
  }

  /** A member under which the mapped object holds what the original held, mapped. */
  predicate MemberMapped(all: seq<Field>, f: Field, g: Field, own: Option<Str>, later: Tables) {
    g.key == f.key && if Kept(all, own, f.key) then g.value == f.value else MemberShown(f, g.value, own, later)
  }

  predicate Mapped(all: seq<Field>, fields: seq<Field>, mapped: seq<Field>, own: Option<Str>, later: Tables) {
    |mapped| == |fields| && forall i | 0 <= i < |fields| :: MemberMapped(all, fields[i], mapped[i], own, later)
  }

  lemma {:induction false} TreeShown(t: Tables, v: Wire, notebook: Option<Str>, names: set<Str>, later: Tables)
    requires Good(t, names) && Clean(v, notebook, names) && InNames(notebook, names) && Apart(names)
    requires After(PresentTree(t, v, notebook).1, later)
    ensures Shown(v, PresentTree(t, v, notebook).0, notebook, later)
    decreases v
  {
    hide Good, Apart, After, OwnNotebook, PresentVersion, CleanMember, NoNul, CellShown, NotebookShown, MemberShown, Mapped;
    match v
    case Arr(items) => ItemsShown(t, items, notebook, names, later);
    case Obj(fields) =>
      var own := OwnNotebook(fields, notebook);
      var (mapped, t1) := PresentFields(t, fields, fields, own);
      FieldsGood(t, fields, fields, own, names);
      VersionAfter(t1, fields, mapped, own, names, later);
      FieldsShown(t, fields, fields, own, names, later);
      VersionShown(t1, fields, mapped, own, names, later);
      ObjectShown(fields, PresentVersion(t1, fields, mapped, own).0, notebook, later);
    case _ =>
  }

  lemma VersionAfter(t: Tables, fields: seq<Field>, mapped: seq<Field>, own: Option<Str>, names: set<Str>, later: Tables)
    requires Good(t, names) && After(PresentVersion(t, fields, mapped, own).1, later)
    ensures After(t, later)
  {
    hide Sound, ObservedOk, PresentVersion, Knows;
    VersionKeeps(t, fields, mapped, own);
    AfterBefore(t, PresentVersion(t, fields, mapped, own).1, later);
  }

  /** What the whole object has to show. */
  predicate AllShown(fields: seq<Field>, shown: seq<Field>, own: Option<Str>, later: Tables) {
    forall i | 0 <= i < |fields| && Wires.IndexOf(fields, fields[i].key) == i && !Replaced(fields, own, fields[i].key) ::
      Has(shown, fields[i].key) && MemberShown(fields[i], Get(shown, fields[i].key), own, later)
  }

  lemma ObjectShown(fields: seq<Field>, w: Wire, notebook: Option<Str>, later: Tables)
    requires var own := OwnNotebook(fields, notebook);
      w.Obj? && CellShown(fields, w.fields, own, later) && NotebookShown(fields, w.fields, own, later)
      && AllShown(fields, w.fields, own, later)
    ensures Shown(Obj(fields), w, notebook, later)
  {
    hide CellShown, NotebookShown, MemberShown, Replaced;
  }

  lemma {:induction false} ItemsShown(t: Tables, items: seq<Wire>, notebook: Option<Str>, names: set<Str>, later: Tables)
    requires Good(t, names) && InNames(notebook, names) && Apart(names)
    requires forall i | 0 <= i < |items| :: Clean(items[i], notebook, names)
    requires After(PresentItems(t, items, notebook).1, later)
    ensures var r := PresentItems(t, items, notebook).0;
      |r| == |items| && forall i | 0 <= i < |items| :: Shown(items[i], r[i], notebook, later)
    decreases items
  {
    hide Good, Apart, After, PresentTree, Clean, Shown;
    if items != [] {
      var (head, t1) := PresentTree(t, items[0], notebook);
      TreeGood(t, items[0], notebook, names);
      ItemsAfter(t1, items[1..], notebook, names, later);
      TreeShown(t, items[0], notebook, names, later);
      ItemsShown(t1, items[1..], notebook, names, later);
      assert items == [items[0]] + items[1..];
    }
  }

  lemma ItemsAfter(t: Tables, items: seq<Wire>, notebook: Option<Str>, names: set<Str>, later: Tables)
    requires Good(t, names) && After(PresentItems(t, items, notebook).1, later)
    ensures After(t, later)
  {
    hide Sound, ObservedOk, PresentItems, Knows;
    ItemsKeep(t, items, notebook);
    AfterBefore(t, PresentItems(t, items, notebook).1, later);
  }

  predicate EntryShown(kind: Kind, item: Wire, w: Wire, own: Option<Str>, later: Tables) {
    if item.Text? then Denotes(kind, w, item.s, own, later) else Shown(item, w, own, later)
  }

  predicate EntryClean(kind: Kind, item: Wire, own: Option<Str>, names: set<Str>) {
    (item.Text? ==> TextOk(kind, item.s, own)) && Clean(item, own, names)
  }

  lemma {:induction false} ListShown(t: Tables, kind: Kind, items: seq<Wire>, own: Option<Str>, names: set<Str>, later: Tables)
    requires Good(t, names) && InNames(own, names) && Apart(names)
    requires forall i | 0 <= i < |items| :: EntryClean(kind, items[i], own, names)
    requires After(PresentList(t, kind, items, own).1, later)
    ensures var r := PresentList(t, kind, items, own).0;
      |r| == |items| && forall i | 0 <= i < |items| :: EntryShown(kind, items[i], r[i], own, later)
    decreases items
  {
    if items != [] {
      var (head, t1) := PresentEntry(t, kind, items[0], own);
      assert EntryClean(kind, items[0], own, names);
      hide Good, Apart, After, PresentTree, PresentText, Clean, Shown, Denotes, TextOk;
      if items[0].Text? { TextGood(t, kind, items[0].s, own, names); } else { TreeGood(t, items[0], own, names); }
      ListAfter(t1, kind, items[1..], own, names, later);
      if items[0].Text? { TextShown(t, kind, items[0].s, own, names, later); } else { TreeShown(t, items[0], own, names, later); }
      assert EntryShown(kind, items[0], head, own, later);
      hide EntryShown, EntryClean;
      ListShown(t1, kind, items[1..], own, names, later);
      assert items == [items[0]] + items[1..];
    }
  }

  lemma ListAfter(t: Tables, kind: Kind, items: seq<Wire>, own: Option<Str>, names: set<Str>, later: Tables)
    requires Good(t, names) && After(PresentList(t, kind, items, own).1, later)
    ensures After(t, later)
  {
    hide Sound, ObservedOk, PresentList, Knows;
    ListKeeps(t, kind, items, own);
    AfterBefore(t, PresentList(t, kind, items, own).1, later);
  }

  lemma {:induction false} FieldsShown(t: Tables, all: seq<Field>, fields: seq<Field>, own: Option<Str>, names: set<Str>, later: Tables)
    requires Good(t, names) && InNames(own, names) && Apart(names)
    requires forall i | 0 <= i < |fields| && fields[i].key !in OPAQUE_KEYS :: CleanMember(fields[i], own, names)
    requires After(PresentFields(t, all, fields, own).1, later)
    ensures Mapped(all, fields, PresentFields(t, all, fields, own).0, own, later)
    decreases fields
  {
    hide Good, Apart, After, PresentField, CleanMember, MemberMapped;
    if fields != [] {
      var (head, t1) := PresentField(t, all, fields[0], own);
      FieldGood(t, all, fields[0], own, names);
      FieldsAfter(t1, all, fields[1..], own, names, later);
      FieldShown(t, all, fields[0], own, names, later);
      FieldsShown(t1, all, fields[1..], own, names, later);
      assert fields == [fields[0]] + fields[1..];
    }
  }

  lemma FieldsAfter(t: Tables, all: seq<Field>, fields: seq<Field>, own: Option<Str>, names: set<Str>, later: Tables)
    requires Good(t, names) && After(PresentFields(t, all, fields, own).1, later)
    ensures After(t, later)
  {
    hide Sound, ObservedOk, PresentFields, Knows;
    FieldsKeep(t, all, fields, own);
    AfterBefore(t, PresentFields(t, all, fields, own).1, later);
  }

  lemma {:induction false} FieldShown(t: Tables, all: seq<Field>, f: Field, own: Option<Str>, names: set<Str>, later: Tables)
    requires Good(t, names) && InNames(own, names) && Apart(names) && (f.key !in OPAQUE_KEYS ==> CleanMember(f, own, names))
    requires After(PresentField(t, all, f, own).1, later)
    ensures MemberMapped(all, f, Field(f.key, PresentField(t, all, f, own).0), own, later)
    decreases f
  {
    hide Good, Apart, After, Kept, PresentTree, PresentText, PresentList, Shown, Denotes, TextOk, Clean;
    if Kept(all, own, f.key) {
    } else if f.key in OPAQUE_KEYS {
      assert false by { OpaqueKept(all, own, f.key); }
    } else if f.key in SINGULAR && f.value.Text? {
      TextShown(t, SINGULAR[f.key], f.value.s, own, names, later);
    } else if f.key in PLURAL && f.value.Arr? {
      assert forall i | 0 <= i < |f.value.items| :: Clean(f.value.items[i], own, names) by { ItemsClean(f.value, own, names); }
      ListShown(t, PLURAL[f.key], f.value.items, own, names, later);
    } else {
      TreeShown(t, f.value, own, names, later);
    }
  }

  lemma ItemsClean(v: Wire, own: Option<Str>, names: set<Str>)
    requires v.Arr? && Clean(v, own, names)
    ensures forall i | 0 <= i < |v.items| :: Clean(v.items[i], own, names)
  {
  }

  // -- the object itself -----------------------------------------------------------

  /** Members of one object are told apart by length or first characters. */
  lemma MemberNames()
    ensures "cell_ref" !in CELL_KEYS && "cell_id" !in CELL_KEYS && "cell_ref" != "cell_id"
    ensures "notebook_metadata_revision" !in CELL_KEYS && "notebook_metadata_revision" != "cell_id"
    ensures "notebook_ref" != "notebook_metadata_revision" && "cell_ref" != "notebook_metadata_revision"
  {
    assert |"cell_ref"| == 8 && |"cell_id"| == 7 && |"notebook_metadata_revision"| == 26 && |"notebook_ref"| == 12;
    assert |"identity_token"| == 14 && |"source_revision"| == 15 && |"cell_revision"| == 13 && |"outputs_revision"| == 16;
  }

  /** Mapped members are where the original ones were. */
  lemma {:induction false} MappedAt(all: seq<Field>, fields: seq<Field>, mapped: seq<Field>, own: Option<Str>, later: Tables, key: string)
    requires Mapped(all, fields, mapped, own, later)
    ensures Wires.IndexOf(mapped, key) == Wires.IndexOf(fields, key)
  {
    hide MemberMapped;
    if fields != [] {
      assert MemberMapped(all, fields[0], mapped[0], own, later);
      assert mapped[0].key == fields[0].key by { KeyKept(all, fields[0], mapped[0], own, later); }
      MappedAt(all, fields[1..], mapped[1..], own, later, key);
    }
  }

  lemma KeyKept(all: seq<Field>, f: Field, g: Field, own: Option<Str>, later: Tables)
    requires MemberMapped(all, f, g, own, later)
    ensures g.key == f.key
  {
  }

  /** What may be written over or removed keeps every member that does not stand for the version. */
  predicate KeepsOthers(mapped: seq<Field>, shown: seq<Field>, fields: seq<Field>, own: Option<Str>) {
    forall i | 0 <= i < |fields| && !Replaced(fields, own, fields[i].key) ::
      (Has(shown, fields[i].key) <==> Has(mapped, fields[i].key)) && Get(shown, fields[i].key) == Get(mapped, fields[i].key)
  }

  lemma OthersShown(fields: seq<Field>, mapped: seq<Field>, shown: seq<Field>, own: Option<Str>, later: Tables)
    requires Mapped(fields, fields, mapped, own, later) && KeepsOthers(mapped, shown, fields, own)
    ensures AllShown(fields, shown, own, later)
  {
    hide MemberShown, Replaced, Kept;
    forall i | 0 <= i < |fields| && Wires.IndexOf(fields, fields[i].key) == i && !Replaced(fields, own, fields[i].key)
      ensures Has(shown, fields[i].key) && MemberShown(fields[i], Get(shown, fields[i].key), own, later)
    {
      MappedAt(fields, fields, mapped, own, later, fields[i].key);
      assert MemberMapped(fields, fields[i], mapped[i], own, later);
      if Kept(fields, own, fields[i].key) { KeptIsOpaque(fields, fields[i], own, later); }
    }
  }

  lemma KeptIsOpaque(fields: seq<Field>, f: Field, own: Option<Str>, later: Tables)
    requires Kept(fields, own, f.key) && !Replaced(fields, own, f.key)
    ensures MemberShown(f, f.value, own, later)
  {
    SameRole(fields, own);
  }

  lemma VersionShown(t: Tables, fields: seq<Field>, mapped: seq<Field>, own: Option<Str>, names: set<Str>, later: Tables)
    requires Good(t, names) && InNames(own, names) && Apart(names) && CleanVersion(fields) && Mapped(fields, fields, mapped, own, later)
    requires After(PresentVersion(t, fields, mapped, own).1, later)
    ensures var w := PresentVersion(t, fields, mapped, own).0;
      w.Obj? && CellShown(fields, w.fields, own, later) && NotebookShown(fields, w.fields, own, later)
      && AllShown(fields, w.fields, own, later)
  {
    hide Good, Apart, After, CellShown, NotebookShown, DescribesCell, DescribesNotebook, CleanVersion, Mapped, InSummary, PresentVersion, AllShown;
    SameRole(fields, own);
    NotDescribed(fields, own, later);
    match RoleOf(fields, own)
    case Plain =>
      assert PresentVersion(t, fields, mapped, own).0 == Obj(mapped) by { PlainVersion(t, fields, mapped, own); }
      assert KeepsOthers(mapped, mapped, fields, own);
      OthersShown(fields, mapped, mapped, own, later);
    case CellVersion => CellVersionShown(t, fields, mapped, own, names, later);
    case NotebookVersion => NotebookVersionShown(t, fields, mapped, own, names, later);
  }

  lemma PlainVersion(t: Tables, fields: seq<Field>, mapped: seq<Field>, own: Option<Str>)
    requires RoleOf(fields, own).Plain?
    ensures PresentVersion(t, fields, mapped, own).0 == Obj(mapped)
  {
  }

  lemma NotDescribed(fields: seq<Field>, own: Option<Str>, later: Tables)
    ensures !DescribesCell(fields, own) ==> forall shown :: CellShown(fields, shown, own, later)
    ensures !DescribesNotebook(fields, own) ==> forall shown :: NotebookShown(fields, shown, own, later)
  {
  }

  /** The mapped members of a described cell, with the reference in place of the version. */
  function CellMembers(fields: seq<Field>, mapped: seq<Field>, text: Str, id: Wire): seq<Field> {
    var shown := Put(mapped, "cell_ref", Text(text));
    Wires.Without(if InSummary(fields) then Put(shown, "cell_id", id) else Wires.Without(shown, {"cell_id"}), CELL_KEYS)
  }

  lemma CellMembersAre(fields: seq<Field>, mapped: seq<Field>, text: Str, id: Wire, own: Option<Str>)
    requires DescribesCell(fields, own)
    ensures var shown := CellMembers(fields, mapped, text, id);
      && Get(shown, "cell_ref") == Text(text) && KeepsOthers(mapped, shown, fields, own)
      && (forall key | key in CELL_KEYS :: !Has(shown, key))
      && (if InSummary(fields) then Get(shown, "cell_id") == id else !Has(shown, "cell_id"))
  {
    MemberNames();
    hide Get, Has, Put, Wires.Without, InSummary;
    var a := Put(mapped, "cell_ref", Text(text));
    var b := if InSummary(fields) then Put(a, "cell_id", id) else Wires.Without(a, {"cell_id"});
    var shown := Wires.Without(b, CELL_KEYS);
    forall key ensures key in CELL_KEYS ==> !Has(shown, key) {
      if key in CELL_KEYS { WithoutNone(b, CELL_KEYS, key); }
    }
    PutGet(mapped, "cell_ref", Text(text), "cell_ref");
    CellIdAt(a, InSummary(fields), id, "cell_ref");
    WithoutGet(b, CELL_KEYS, "cell_ref");
    CellIdAt(a, InSummary(fields), id, "cell_id");
    WithoutGet(b, CELL_KEYS, "cell_id");
    forall i | 0 <= i < |fields| && !Replaced(fields, own, fields[i].key)
      ensures (Has(shown, fields[i].key) <==> Has(mapped, fields[i].key)) && Get(shown, fields[i].key) == Get(mapped, fields[i].key)
    {
      PutGet(mapped, "cell_ref", Text(text), fields[i].key);
      CellIdAt(a, InSummary(fields), id, fields[i].key);
      WithoutGet(b, CELL_KEYS, fields[i].key);
    }
  }

  lemma CellIdAt(a: seq<Field>, put: bool, id: Wire, key: string)
    ensures var b := if put then Put(a, "cell_id", id) else Wires.Without(a, {"cell_id"});
      && (key != "cell_id" ==> (Has(b, key) <==> Has(a, key)) && Get(b, key) == Get(a, key))
      && (key == "cell_id" ==> if put then Get(b, key) == id else !Has(b, key))
  {
    if put {
      PutGet(a, "cell_id", id, key);
    } else if key == "cell_id" {
      WithoutNone(a, {"cell_id"}, key);
    } else {
      WithoutGet(a, {"cell_id"}, key);
    }
  }

  lemma CellVersionIs(t: Tables, fields: seq<Field>, mapped: seq<Field>, own: Option<Str>) returns (t1: Tables, text: Str)
    requires RoleOf(fields, own).CellVersion?
    ensures text == PresentCell(t.observed, t.aliases.scope, ObservedOf(fields, own.value)).0
    ensures t1 == t.(observed := PresentCell(t.observed, t.aliases.scope, ObservedOf(fields, own.value)).1)
    ensures var (id, t2) := PresentText(t1, Cell, Get(fields, "cell_id").s, own);
      PresentVersion(t, fields, mapped, own) == (Obj(CellMembers(fields, mapped, text, id)), if InSummary(fields) then t2 else t1)
  {
    hide PresentCell, PresentText, Put, Wires.Without, ObservedOf;
    text := PresentCell(t.observed, t.aliases.scope, ObservedOf(fields, own.value)).0;
    t1 := t.(observed := PresentCell(t.observed, t.aliases.scope, ObservedOf(fields, own.value)).1);
  }

  lemma CellVersionShown(t: Tables, fields: seq<Field>, mapped: seq<Field>, own: Option<Str>, names: set<Str>, later: Tables)
    requires Good(t, names) && InNames(own, names) && Apart(names) && CleanVersion(fields) && Mapped(fields, fields, mapped, own, later)
    requires After(PresentVersion(t, fields, mapped, own).1, later) && RoleOf(fields, own).CellVersion?
    ensures var w := PresentVersion(t, fields, mapped, own).0;
      w.Obj? && CellShown(fields, w.fields, own, later) && AllShown(fields, w.fields, own, later)
  {
    SameRole(fields, own);
    hide Good, Apart, After, CleanVersion, Mapped, PresentVersion, AllShown, ObservedOf, PresentCell, PresentText, CellMembers, Matches,
      DescribesCell, InSummary, Denotes, KeepsOthers, LookupCell, Get, Has;
    var t1, text := CellVersionIs(t, fields, mapped, own);
    var seen := ObservedOf(fields, own.value);
    var (id, t2) := PresentText(t1, Cell, Get(fields, "cell_id").s, own);
    SeenIsFree(fields, own.value);
    CellGood(t, seen, names);
    if InSummary(fields) {
      TextShown(t1, Cell, Get(fields, "cell_id").s, own, names, later) by { assert TextOk(Cell, Get(fields, "cell_id").s, own); }
      TextAfter(t1, Cell, Get(fields, "cell_id").s, own, names, later);
    }
    CellLooksUp(t, seen, names, later);
    MatchesAlike(LookupCell(later.observed, text, own.value).value, seen, fields, own.value);
    CellMembersAre(fields, mapped, text, id, own);
    OthersShown(fields, mapped, CellMembers(fields, mapped, text, id), own, later);
  }

  lemma TextAfter(t: Tables, kind: Kind, text: Str, own: Option<Str>, names: set<Str>, later: Tables)
    requires Good(t, names) && After(PresentText(t, kind, text, own).1, later)
    ensures After(t, later)
  {
    hide Sound, ObservedOk, Knows, Present;
    TextKeeps(t, kind, text, own);
    AfterBefore(t, PresentText(t, kind, text, own).1, later);
  }

  /** The reference of an observation looks it up, now and later. */
  lemma CellLooksUp(t: Tables, c: ObservedCell, names: set<Str>, later: Tables)
    requires Good(t, names) && NulFree(c)
    requires After(t.(observed := PresentCell(t.observed, t.aliases.scope, c).1), later)
    ensures var r := LookupCell(later.observed, PresentCell(t.observed, t.aliases.scope, c).0, c.notebook);
      r.Ok? && SameObservation(r.value, c) && NulFree(r.value)
  {
    hide Sound, OwnersIn, Knows, CellKey, RefText;
    CellGood(t, c, names);
    ObservedAnswers(t.aliases.scope, t.observed, c) by { hide PresentCell; }
    hide ObservedOk, NulFree, SameObservation;
  }

  lemma MatchesAlike(c: ObservedCell, d: ObservedCell, fields: seq<Field>, own: Str)
    requires SameObservation(c, d) && NulFree(c) && NulFree(d) && Matches(d, fields, own)
    ensures Matches(c, fields, own)
  {
    CellKeyExact(c, d);
    hide SameObservation, CellKey, Get;
    assert d.outputsRevision == c.outputsRevision || (c.outputsRevision in {None, Some([])} && d.outputsRevision in {None, Some([])});
  }

  lemma NotebookVersionShown(t: Tables, fields: seq<Field>, mapped: seq<Field>, own: Option<Str>, names: set<Str>, later: Tables)
    requires Good(t, names) && InNames(own, names) && Mapped(fields, fields, mapped, own, later)
    requires After(PresentVersion(t, fields, mapped, own).1, later) && RoleOf(fields, own).NotebookVersion?
    ensures var w := PresentVersion(t, fields, mapped, own).0;
      w.Obj? && NotebookShown(fields, w.fields, own, later) && AllShown(fields, w.fields, own, later)
  {
    var seen := ObservedNotebook(own.value, Get(fields, "notebook_metadata_revision").s);
    var (text, o) := PresentNotebook(t.observed, t.aliases.scope, seen);
    var shown := Wires.Without(Put(mapped, "notebook_ref", Text(text)), {"notebook_metadata_revision"});
    assert PresentVersion(t, fields, mapped, own) == (Obj(shown), t.(observed := o));
    SameRole(fields, own);
    hide Good, After, Mapped, PresentVersion, AllShown, PresentNotebook, KeepsOthers, LookupNotebook, Get, Has, Put, Wires.Without, DescribesCell;
    NotebookLooksUp(t, seen, names, later);
    NotebookMembersAre(fields, mapped, text, own);
    OthersShown(fields, mapped, shown, own, later);
  }

  lemma NotebookMembersAre(fields: seq<Field>, mapped: seq<Field>, text: Str, own: Option<Str>)
    requires DescribesNotebook(fields, own)
    ensures var shown := Wires.Without(Put(mapped, "notebook_ref", Text(text)), {"notebook_metadata_revision"});
      && Get(shown, "notebook_ref") == Text(text) && !Has(shown, "notebook_metadata_revision") && KeepsOthers(mapped, shown, fields, own)
  {
    MemberNames();
    hide Get, Has, Put, Wires.Without, DescribesCell;
    var a := Put(mapped, "notebook_ref", Text(text));
    var gone := {"notebook_metadata_revision"};
    PutGet(mapped, "notebook_ref", Text(text), "notebook_ref");
    WithoutGet(a, gone, "notebook_ref");
    WithoutNone(a, gone, "notebook_metadata_revision");
    forall i | 0 <= i < |fields| && !Replaced(fields, own, fields[i].key)
      ensures var shown := Wires.Without(a, gone);
        (Has(shown, fields[i].key) <==> Has(mapped, fields[i].key)) && Get(shown, fields[i].key) == Get(mapped, fields[i].key)
    {
      PutGet(mapped, "notebook_ref", Text(text), fields[i].key);
      WithoutGet(a, gone, fields[i].key);
    }
  }

  lemma NotebookLooksUp(t: Tables, n: ObservedNotebook, names: set<Str>, later: Tables)
    requires Good(t, names) && NUL !in n.notebook
    requires After(t.(observed := PresentNotebook(t.observed, t.aliases.scope, n).1), later)
    ensures LookupNotebook(later.observed, PresentNotebook(t.observed, t.aliases.scope, n).0, n.notebook) == Ok(n)
  {
    hide Sound, OwnersIn, Knows, NotebookKey, RefText;
    ObservedNotebookAnswers(t.aliases.scope, t.observed, n) by { hide PresentNotebook; }
    hide ObservedOk, NulFree;
  }

  /**
   * Every tree: in its presented form, whatever the tables held before and learn later, each reference
   * resolves to the original, each described version of a cell or notebook shows a reference that looks up
   * exactly what its members said, and everything else is unchanged.
   */
  lemma TreeIsShown(t: Tables, v: Wire, names: set<Str>, later: Tables)
    requires Good(t, names) && Clean(v, None, names) && Apart(names) && Ordinary(v)
    requires var after := PresentTree(t, v, None).1;
      Grows(after.aliases, later.aliases) && Sound(later.aliases) && Extends(after.observed, later.observed)
    ensures Shown(v, PresentTree(t, v, None).0, None, later) && Good(PresentTree(t, v, None).1, names)
  {
    hide Good, Clean, Apart, Sound, Grows, Extends, PresentTree, Shown;
    TreeGood(t, v, None, names);
    TreeShown(t, v, None, names, later);
  }
}
