/** The per-connection reference table: short aliases for full references, and observed versions. */
module References {
  import opened Options
  import opened Utf16
  import opened Decimal
  import opened Literals
  import opened Wires

  datatype Kind = Notebook | Cell | Execution | Output | Revision

  const SINGULAR: map<string, Kind> := map[
    "notebook_id" := Notebook, "open_notebook_id" := Notebook, "execution_id" := Execution, "output_id" := Output,
    "cell_id" := Cell, "before_cell_id" := Cell, "after_cell_id" := Cell,
    "revision" := Revision, "source_revision" := Revision, "cell_revision" := Revision,
    "outputs_revision" := Revision, "notebook_metadata_revision" := Revision, "structure_revision" := Revision,
    "expected_source_revision" := Revision, "expected_cell_revision" := Revision,
    "expected_outputs_revision" := Revision, "expected_notebook_metadata_revision" := Revision,
    "current_source_revision" := Revision, "current_cell_revision" := Revision,
    "current_outputs_revision" := Revision, "current_notebook_metadata_revision" := Revision
  ]

  const PLURAL: map<string, Kind> := map[
    "cell_ids" := Cell, "duplicate_cell_ids" := Cell, "cancelled_cell_ids" := Cell, "already_sent_cell_ids" := Cell,
    "active_execution_ids" := Execution, "invalidated_execution_ids" := Execution,
    "dropped_execution_ids" := Execution, "execution_ids" := Execution
  ]

  // ---------------------------------------------------------------------------
  // aliases
  // ---------------------------------------------------------------------------

  datatype Slot = Slot(kind: Kind, text: Str)

  /** `scope` is what all aliases of the connection start with: `@`, process and connection. */
  datatype Aliases = Aliases(
    scope: Str,
    byFull: map<Slot, Str>,
    byAlias: map<Slot, Str>,
    owner: map<Slot, Str>,
    next: map<Kind, nat>)

  predicate Scoped(kind: Kind) { kind.Cell? || kind.Revision? }

  function Letter(kind: Kind): Unit {
    match kind
    case Notebook => 0x6E
    case Cell => 0x63
    case Execution => 0x65
    case Output => 0x6F
    case Revision => 0x72
  }

  function NextOf(a: Aliases, kind: Kind): nat { if kind in a.next then a.next[kind] else 1 }

  function AliasText(scope: Str, kind: Kind, n: nat): Str { scope + [Letter(kind)] + NatText(n) }

  const NUL: Unit := 0

  /** Cells and revisions are looked up together with their notebook. */
  function Key(kind: Kind, full: Str, notebook: Option<Str>): Str {
    if Scoped(kind) then (if notebook.Some? then notebook.value else []) + [NUL] + full else full
  }

  /** A new alias for a reference: both tables, the owner of a scoped one, and the counter. */
  function Issue(a: Aliases, kind: Kind, full: Str, notebook: Option<Str>, alias: Str): Aliases {
    a.(byFull := a.byFull[Slot(kind, Key(kind, full, notebook)) := alias],
       byAlias := a.byAlias[Slot(kind, alias) := full],
       owner := if Scoped(kind) && notebook.Some? then a.owner[Slot(kind, alias) := notebook.value] else a.owner,
       next := a.next[kind := NextOf(a, kind) + 1])
  }

  function Present(a: Aliases, kind: Kind, full: Str, notebook: Option<Str>): (Str, Aliases) {
    var key := Slot(kind, Key(kind, full, notebook));
    if Scoped(kind) && notebook.None? then (LiteralValue(full), a)
    else if key in a.byFull then (a.byFull[key], a)
    else
      var alias := AliasText(a.scope, kind, NextOf(a, kind));
      (alias, Issue(a, kind, full, notebook, alias))
  }

  function Resolve(a: Aliases, kind: Kind, value: Str, notebook: Option<Str>): Result<Str> {
    var slot := Slot(kind, value);
    if StartsRaw(value) then DecodeLiteral(value)
    else if slot in a.byAlias then
      if slot in a.owner && Some(a.owner[slot]) != notebook then Err(HandleExpired) else Ok(a.byAlias[slot])
    else if value != [] && value[0] == AT then Err(HandleExpired)
    else Ok(value)
  }

  // ---------------------------------------------------------------------------
  // observed versions
  // ---------------------------------------------------------------------------

  datatype ObservedCell = ObservedCell(
    notebook: Str, cellId: Str, identity: Str, sourceRevision: Str, cellRevision: Str, outputsRevision: Option<Str>)

  datatype ObservedNotebook = ObservedNotebook(notebook: Str, metadataRevision: Str)

  datatype Observed = Observed(
    cellByRef: map<Str, ObservedCell>,
    cellByValue: map<Str, Str>,
    notebookByRef: map<Str, ObservedNotebook>,
    notebookByValue: map<Str, Str>,
    next: nat)

  /** `parts.join('\u0000')` */
  function Join(parts: seq<Str>): Str {
    if parts == [] then [] else if |parts| == 1 then parts[0] else parts[0] + [NUL] + Join(parts[1..])
  }

  function CellParts(c: ObservedCell): seq<Str> {
    [c.notebook, c.cellId, c.identity, c.sourceRevision, c.cellRevision,
     if c.outputsRevision.Some? then c.outputsRevision.value else []]
  }

  function CellKey(c: ObservedCell): Str { Join(CellParts(c)) }

  function NotebookKey(n: ObservedNotebook): Str { n.notebook + [NUL] + n.metadataRevision }

  /** `v` and a counter. */
  function RefText(scope: Str, n: nat): Str { scope + [0x76] + NatText(n) }

  function PresentCell(o: Observed, scope: Str, c: ObservedCell): (Str, Observed) {
    var key := CellKey(c);
    if key in o.cellByValue then (o.cellByValue[key], o)
    else
      var text := RefText(scope, o.next);
      (text, o.(cellByValue := o.cellByValue[key := text], cellByRef := o.cellByRef[text := c], next := o.next + 1))
  }

  function PresentNotebook(o: Observed, scope: Str, n: ObservedNotebook): (Str, Observed) {
    var key := NotebookKey(n);
    if key in o.notebookByValue then (o.notebookByValue[key], o)
    else
      var text := RefText(scope, o.next);
      (text, o.(notebookByValue := o.notebookByValue[key := text], notebookByRef := o.notebookByRef[text := n], next := o.next + 1))
  }

  // ---------------------------------------------------------------------------
  // trees
  // ---------------------------------------------------------------------------

  datatype Tables = Tables(aliases: Aliases, observed: Observed)

  /** The notebook an object's own fields are relative to. */
  function OwnNotebook(fields: seq<Field>, inherited: Option<Str>): Option<Str> {
    if IsText(fields, "notebook_id") then Some(Get(fields, "notebook_id").s) else inherited
  }

  predicate IsObservedCell(fields: seq<Field>) {
    && IsText(fields, "cell_id") && IsText(fields, "identity_token") && IsText(fields, "source_revision")
    && IsText(fields, "cell_revision")
    && (IsText(fields, "outputs_revision") || (Has(fields, "outputs_revision") && Get(fields, "outputs_revision").Null?))
  }

  predicate IsObservedNotebook(fields: seq<Field>) { IsText(fields, "notebook_metadata_revision") }

  const OBSERVED_CELL_KEYS: set<string> := {"cell_id", "identity_token", "source_revision", "cell_revision", "outputs_revision"}

  /** What an object stands for besides its fields. */
  datatype Role = Plain | CellVersion | NotebookVersion

  function RoleOf(fields: seq<Field>, own: Option<Str>): Role {
    if own.None? then Plain
    else if IsObservedCell(fields) then CellVersion
    else if IsObservedNotebook(fields) then NotebookVersion
    else Plain
  }

  /** Members that pass through unmapped. An object can be both kinds of version at once. */
  predicate Kept(fields: seq<Field>, own: Option<Str>, key: string) {
    || key in OPAQUE_KEYS
    || (own.Some? && IsObservedCell(fields) && key in OBSERVED_CELL_KEYS)
    || (own.Some? && IsObservedNotebook(fields) && key == "notebook_metadata_revision")
  }

  function PresentTree(t: Tables, v: Wire, notebook: Option<Str>): (Wire, Tables)
    decreases v, 0
  {
    match v
    case Arr(items) =>
      var (mapped, t1) := PresentItems(t, items, notebook);
      (Arr(mapped), t1)
    case Obj(fields) =>
      var own := OwnNotebook(fields, notebook);
      var (mapped, t1) := PresentFields(t, fields, fields, own);
      PresentVersion(t1, fields, mapped, own)
    case _ => (v, t)
  }

  function PresentItems(t: Tables, items: seq<Wire>, notebook: Option<Str>): (seq<Wire>, Tables)
    decreases items
  {
    if items == [] then ([], t)
    else
      var (head, t1) := PresentTree(t, items[0], notebook);
      var (tail, t2) := PresentItems(t1, items[1..], notebook);
      ([head] + tail, t2)
  }

  function PresentText(t: Tables, kind: Kind, text: Str, own: Option<Str>): (Wire, Tables) {
    var (alias, a) := Present(t.aliases, kind, text, own);
    (Text(alias), t.(aliases := a))
  }

  /** One element of a list of references. */
  function PresentEntry(t: Tables, kind: Kind, item: Wire, own: Option<Str>): (Wire, Tables)
    decreases item, 1
  {
    if item.Text? then PresentText(t, kind, item.s, own) else PresentTree(t, item, own)
  }

  function PresentList(t: Tables, kind: Kind, items: seq<Wire>, own: Option<Str>): (seq<Wire>, Tables)
    decreases items
  {
    if items == [] then ([], t)
    else
      var (head, t1) := PresentEntry(t, kind, items[0], own);
      var (tail, t2) := PresentList(t1, kind, items[1..], own);
      ([head] + tail, t2)
  }

  /** One member; `all` are the members of its object. */
  function PresentField(t: Tables, all: seq<Field>, f: Field, own: Option<Str>): (Wire, Tables)
    decreases f
  {
    if Kept(all, own, f.key) then (f.value, t)
    else if f.key in SINGULAR && f.value.Text? then PresentText(t, SINGULAR[f.key], f.value.s, own)
    else if f.key in PLURAL && f.value.Arr? then
      var (mapped, t1) := PresentList(t, PLURAL[f.key], f.value.items, own);
      (Arr(mapped), t1)
    else PresentTree(t, f.value, own)
  }

  function PresentFields(t: Tables, all: seq<Field>, fields: seq<Field>, own: Option<Str>): (seq<Field>, Tables)
    decreases fields
  {
    if fields == [] then ([], t)
    else
      var (head, t1) := PresentField(t, all, fields[0], own);
      var (tail, t2) := PresentFields(t1, all, fields[1..], own);
      ([Field(fields[0].key, head)] + tail, t2)
  }

  function ObservedOf(fields: seq<Field>, own: Str): ObservedCell
    requires IsObservedCell(fields)
  {
    ObservedCell(own, Get(fields, "cell_id").s, Get(fields, "identity_token").s, Get(fields, "source_revision").s,
                 Get(fields, "cell_revision").s,
                 if IsText(fields, "outputs_revision") then Some(Get(fields, "outputs_revision").s) else None)
  }

  /** An observed cell or notebook shows one reference in place of its identity and revisions. */
  function PresentVersion(t: Tables, fields: seq<Field>, mapped: seq<Field>, own: Option<Str>): (Wire, Tables) {
    match RoleOf(fields, own)
    case Plain => (Obj(mapped), t)
    case CellVersion =>
      var (text, o) := PresentCell(t.observed, t.aliases.scope, ObservedOf(fields, own.value));
      var t1 := t.(observed := o);
      var shown := Put(mapped, "cell_ref", Text(text));
      var (withId, t2) :=
        if IsText(fields, "cell_type") && (Get(fields, "index").Int? || Get(fields, "index").Number?) then
          var (id, t0) := PresentText(t1, Cell, Get(fields, "cell_id").s, own);
          (Put(shown, "cell_id", id), t0)
        else (Wires.Without(shown, {"cell_id"}), t1);
      (Obj(Wires.Without(withId, {"identity_token", "source_revision", "cell_revision", "outputs_revision"})), t2)
    case NotebookVersion =>
      var seen := ObservedNotebook(own.value, Get(fields, "notebook_metadata_revision").s);
      var (text, o) := PresentNotebook(t.observed, t.aliases.scope, seen);
      (Obj(Wires.Without(Put(mapped, "notebook_ref", Text(text)), {"notebook_metadata_revision"})), t.(observed := o))
  }

  // -- the way back --------------------------------------------------------------

  function ResolveTree(a: Aliases, v: Wire, notebook: Option<Str>): Result<Wire>
    decreases v
  {
    match v
    case Arr(items) =>
      (match ResolveItems(a, items, notebook)
       case Err(e) => Err(e)
       case Ok(mapped) => Ok(Arr(mapped)))
    case Obj(fields) =>
      if IsText(fields, "notebook_id") then
        match Resolve(a, Notebook, Get(fields, "notebook_id").s, notebook)
        case Err(e) => Err(e)
        case Ok(own) => ResolveObject(a, fields, Some(own))
      else ResolveObject(a, fields, notebook)
    case _ => Ok(v)
  }

  function ResolveObject(a: Aliases, fields: seq<Field>, own: Option<Str>): Result<Wire>
    decreases fields, 1
  {
    match ResolveFields(a, fields, own)
    case Err(e) => Err(e)
    case Ok(mapped) => Ok(Obj(mapped))
  }

  function ResolveItems(a: Aliases, items: seq<Wire>, notebook: Option<Str>): Result<seq<Wire>>
    decreases items
  {
    if items == [] then Ok([])
    else
      match ResolveTree(a, items[0], notebook)
      case Err(e) => Err(e)
      case Ok(head) =>
        match ResolveItems(a, items[1..], notebook)
        case Err(e) => Err(e)
        case Ok(tail) => Ok([head] + tail)
  }

  function ResolveText(a: Aliases, kind: Kind, text: Str, own: Option<Str>): Result<Wire> {
    match Resolve(a, kind, text, own)
    case Err(e) => Err(e)
    case Ok(full) => Ok(Text(full))
  }

  function ResolveList(a: Aliases, kind: Kind, items: seq<Wire>, own: Option<Str>): Result<seq<Wire>>
    decreases items
  {
    if items == [] then Ok([])
    else
      match if items[0].Text? then ResolveText(a, kind, items[0].s, own) else ResolveTree(a, items[0], own)
      case Err(e) => Err(e)
      case Ok(head) =>
        match ResolveList(a, kind, items[1..], own)
        case Err(e) => Err(e)
        case Ok(tail) => Ok([head] + tail)
  }

  function ResolveField(a: Aliases, f: Field, own: Option<Str>): Result<Wire>
    decreases f
  {
    if f.key in OPAQUE_KEYS then Ok(f.value)
    else if f.key in SINGULAR && f.value.Text? then ResolveText(a, SINGULAR[f.key], f.value.s, own)
    else if f.key in PLURAL && f.value.Arr? then
      match ResolveList(a, PLURAL[f.key], f.value.items, own)
      case Err(e) => Err(e)
      case Ok(mapped) => Ok(Arr(mapped))
    else ResolveTree(a, f.value, own)
  }

  function ResolveFields(a: Aliases, fields: seq<Field>, own: Option<Str>): Result<seq<Field>>
    decreases fields, 0
  {
    if fields == [] then Ok([])
    else
      match ResolveField(a, fields[0], own)
      case Err(e) => Err(e)
      case Ok(head) =>
        match ResolveFields(a, fields[1..], own)
        case Err(e) => Err(e)
        case Ok(tail) => Ok([Field(fields[0].key, head)] + tail)
  }

  // ---------------------------------------------------------------------------
  // staging a response
  // ---------------------------------------------------------------------------

  const OBSERVED_SINGULAR: set<string> := {"cell_ref", "notebook_ref", "current_cell_ref", "current_notebook_ref"}
  const OBSERVED_PLURAL: set<string> := {"cell_refs", "cancelled_cell_refs", "already_sent_cell_refs"}

  /** The observed references a published value shows in the fields that are looked at. */
  function Published(v: Wire): set<Str>
    decreases v
  {
    match v
    case Arr(items) => PublishedItems(items)
    case Obj(fields) => PublishedFields(fields)
    case _ => {}
  }

  function PublishedItems(items: seq<Wire>): set<Str>
    decreases items
  {
    if items == [] then {} else Published(items[0]) + PublishedItems(items[1..])
  }

  function Texts(items: seq<Wire>): set<Str> {
    if items == [] then {} else (if items[0].Text? then {items[0].s} else {}) + Texts(items[1..])
  }

  function PublishedFields(fields: seq<Field>): set<Str>
    decreases fields
  {
    if fields == [] then {}
    else
      var f := fields[0];
      (if f.key in OPAQUE_KEYS then {}
       else if f.key in OBSERVED_SINGULAR && f.value.Text? then {f.value.s}
       else if f.key in OBSERVED_PLURAL && f.value.Arr? then Texts(f.value.items)
       else Published(f.value))
      + PublishedFields(fields[1..])
  }

  /** References of this response that were not published are forgotten, in both directions. */
  function Prune(before: Observed, now: Observed, published: set<Str>): Observed {
    now.(
      cellByRef := map r | r in now.cellByRef && (r in before.cellByRef || r in published) :: now.cellByRef[r],
      cellByValue := map k | k in now.cellByValue && !DropsCell(before, now, published, k) :: now.cellByValue[k],
      notebookByRef := map r | r in now.notebookByRef && (r in before.notebookByRef || r in published) :: now.notebookByRef[r],
      notebookByValue := map k | k in now.notebookByValue && !DropsNotebook(before, now, published, k) :: now.notebookByValue[k])
  }

  predicate DropsCell(before: Observed, now: Observed, published: set<Str>, k: Str)
    requires k in now.cellByValue
  {
    var r := now.cellByValue[k];
    r in now.cellByRef && r !in before.cellByRef && r !in published && CellKey(now.cellByRef[r]) == k
  }

  predicate DropsNotebook(before: Observed, now: Observed, published: set<Str>, k: Str)
    requires k in now.notebookByValue
  {
    var r := now.notebookByValue[k];
    r in now.notebookByRef && r !in before.notebookByRef && r !in published && NotebookKey(now.notebookByRef[r]) == k
  }

  function Count(o: Observed): nat { |o.cellByRef| + |o.notebookByRef| }

  /** A commit beyond the cap restores the checkpoint. */
  function Commit(before: Tables, now: Tables, published: Wire, max: nat): Result<Tables> {
    var pruned := Prune(before.observed, now.observed, Published(published));
    if Count(pruned) > max then Err(ResourceLimit) else Ok(now.(observed := pruned))
  }

  /** `#observed`: what a submitted cell reference stands for. */
  function LookupCell(o: Observed, ref: Str, notebook: Str): Result<ObservedCell> {
    if ref !in o.cellByRef || o.cellByRef[ref].notebook != notebook then Err(HandleExpired) else Ok(o.cellByRef[ref])
  }

  /** `#observedNotebook`: the same for a notebook reference. */
  function LookupNotebook(o: Observed, ref: Str, notebook: Str): Result<ObservedNotebook> {
    if ref !in o.notebookByRef || o.notebookByRef[ref].notebook != notebook then Err(HandleExpired) else Ok(o.notebookByRef[ref])
  }
}
