/**
  The save batching engine: the accumulators of one multi-aggregate save,
  `add` (a fold of `AddAction` over the actions of one aggregate change) and
  `forEachAction` (a pure function from the accumulators to the merged action
  sequence).
 */
module SaveBatching {
  import opened Actions
  import opened AssocList
  import opened DepthOrder

  /** The inner map of the insert accumulator: IdValueSource to the Inserts with that source. */
  type InsertsBySource = seq<Entry<IdValueSource, seq<InsertAction>>>

  datatype State = State(
    /** Finished root actions: InsertRoot, UpdateRoot or BatchInsertRoot. */
    rootActions: seq<DbAction>,
    /** InsertRoots that may still be combined into one batch. */
    insertRootBatchCandidates: seq<InsertRootAction>,
    /** Path to IdValueSource to the child Inserts of that key. */
    insertActions: seq<Entry<Path, InsertsBySource>>,
    /** Path to the Deletes on that path. */
    deleteActions: seq<Entry<Path, seq<DeleteAction>>>)

  /** The accumulators of a freshly constructed engine. */
  const Fresh: State := State([], [], [], [])

  predicate SameSource(candidates: seq<InsertRootAction>) {
    forall i :: 0 <= i < |candidates| ==> candidates[i].idValueSource == candidates[0].idValueSource
  }

  /**
    The flush rule for insert-root candidates: two or more become one
    BatchInsertRoot, a single one stays unwrapped, none emit nothing.
   */
  function Collapse(candidates: seq<InsertRootAction>): (r: seq<DbAction>)
    ensures Flatten(r) == candidates
    ensures |r| == if candidates == [] then 0 else 1
    ensures r != [] ==> IsRootInsertEmission(r[0]) && RootInsertSource(r[0]) == candidates[0].idValueSource
    ensures SameSource(candidates) ==> forall i :: 0 <= i < |r| ==> WellFormedEmission(r[i]) && Phase(r[i]) == 0
  {
    if |candidates| > 1 then [BatchInsertRoot(candidates)] else candidates
  }

  /** `combineBatchCandidatesIntoSingleBatchRootAction`: flush the candidates into the root actions. */
  function CombineBatchCandidates(s: State): (r: State)
    ensures r.insertRootBatchCandidates == []
    ensures |r.rootActions| == |s.rootActions| + (if s.insertRootBatchCandidates == [] then 0 else 1)
    ensures r.rootActions[..|s.rootActions|] == s.rootActions
    ensures Flatten(r.rootActions) == Flatten(s.rootActions) + s.insertRootBatchCandidates
    ensures SameSource(s.insertRootBatchCandidates) ==>
              forall i :: |s.rootActions| <= i < |r.rootActions| ==> IsRootEmission(r.rootActions[i])
    ensures r.insertActions == s.insertActions && r.deleteActions == s.deleteActions
  {
    FlattenAppend(s.rootActions, Collapse(s.insertRootBatchCandidates));
    s.(rootActions := s.rootActions + Collapse(s.insertRootBatchCandidates),
       insertRootBatchCandidates := [])
  }

  /**
    `addInsert`: appends `a` to the list under its path and IdValueSource,
    creating the outer and the inner entry on first use.
   */
  function AddInsert(m: seq<Entry<Path, InsertsBySource>>, a: InsertAction): (r: seq<Entry<Path, InsertsBySource>>)
    ensures |r| == |m| + (if ValuesAt(m, a.path) == [] then 1 else 0)
    ensures forall i :: 0 <= i < |m| ==>
              && r[i].key == m[i].key
              && (r[i] == m[i] || (m[i].key == a.path && r[i].value == AppendAt(m[i].value, a.idValueSource, a)))
    ensures |r| > |m| ==> r[|m|] == Entry(a.path, [Entry(a.idValueSource, [a])])
    ensures forall p :: p != a.path ==> ValuesAt(r, p) == ValuesAt(m, p)
    ensures |ValuesAt(r, a.path)| == if ValuesAt(m, a.path) == [] then 1 else |ValuesAt(m, a.path)|
    ensures Get(r, a.path) == AppendAt(Get(m, a.path), a.idValueSource, a)
  {
    if m == [] then [Entry(a.path, [Entry(a.idValueSource, [a])])]
    else if m[0].key == a.path then [Entry(a.path, AppendAt(m[0].value, a.idValueSource, a))] + m[1..]
    else [m[0]] + AddInsert(m[1..], a)
  }

  /** The body of `add` for one action. Kinds other than the four below are ignored. */
  function AddAction(s: State, a: DbAction): State {
    match a
    case UpdateRoot(_) =>
      var f := CombineBatchCandidates(s);
      f.(rootActions := f.rootActions + [a])
    case InsertRoot(_, source) =>
      var f :=
        if s.insertRootBatchCandidates != [] && s.insertRootBatchCandidates[0].idValueSource != source
        then CombineBatchCandidates(s)
        else s;
      f.(insertRootBatchCandidates := f.insertRootBatchCandidates + [a])
    case Insert(_, _, _) => s.(insertActions := AddInsert(s.insertActions, a))
    case Delete(_, path) => s.(deleteActions := AppendAt<Path, DeleteAction>(s.deleteActions, path, a))
    case _ => s
  }

  /** `add`: feeds the actions of one aggregate change, in the order the change yields them. */
  function Add(s: State, change: seq<DbAction>): State
    decreases |change|
  {
    if change == [] then s else Add(AddAction(s, change[0]), change[1..])
  }

  /** One `add` per aggregate change, in order. */
  function AddAll(s: State, changes: seq<seq<DbAction>>): State
    decreases |changes|
  {
    if changes == [] then s else AddAll(Add(s, changes[0]), changes[1..])
  }

  /** All actions of all changes, in order. */
  function Join(changes: seq<seq<DbAction>>): seq<DbAction> {
    if changes == [] then [] else changes[0] + Join(changes[1..])
  }

  predicate OnOnePath(deletes: seq<DeleteAction>) {
    forall i :: 0 <= i < |deletes| ==> deletes[i].path == deletes[0].path
  }

  /** The emission of one delete group: two or more become one BatchDelete, a single one stays unwrapped. */
  function DeleteGroupActions(deletes: seq<DeleteAction>): (r: seq<DbAction>)
    ensures Flatten(r) == deletes
    ensures |r| == if deletes == [] then 0 else 1
    ensures OnOnePath(deletes) ==> forall i :: 0 <= i < |r| ==> WellFormedEmission(r[i]) && Phase(r[i]) == 1
  {
    if |deletes| > 1 then [BatchDelete(deletes)] else deletes
  }

  function EmitDeletes(m: seq<Entry<Path, seq<DeleteAction>>>): seq<DbAction> {
    if m == [] then [] else DeleteGroupActions(m[0].value) + EmitDeletes(m[1..])
  }

  /** One BatchInsert per IdValueSource, whatever the size of its list. */
  function EmitInsertsBySource(m: InsertsBySource): seq<DbAction> {
    if m == [] then [] else [BatchInsert(m[0].value)] + EmitInsertsBySource(m[1..])
  }

  function EmitInserts(m: seq<Entry<Path, InsertsBySource>>): seq<DbAction> {
    if m == [] then [] else EmitInsertsBySource(m[0].value) + EmitInserts(m[1..])
  }

  function RootSection(s: State): seq<DbAction> {
    s.rootActions + Collapse(s.insertRootBatchCandidates)
  }

  function DeleteSection(s: State): seq<DbAction> {
    EmitDeletes(SortByDepth(s.deleteActions, true))
  }

  function InsertSection(s: State): seq<DbAction> {
    EmitInserts(SortByDepth(s.insertActions, false))
  }

  /**
    `forEachAction`: the actions handed to the consumer, in order. The root
    actions, the final flush of the candidates, the delete groups deepest path
    first, then the insert groups shallowest path first.
   */
  function ForEachAction(s: State): seq<DbAction> {
    RootSection(s) + DeleteSection(s) + InsertSection(s)
  }

  /* ----- The invariant of the accumulators ----- */

  predicate DeleteGroupOk(e: Entry<Path, seq<DeleteAction>>) {
    e.value != [] && forall j :: 0 <= j < |e.value| ==> e.value[j].path == e.key
  }

  predicate SourceGroupOk(g: Entry<IdValueSource, seq<InsertAction>>, p: Path) {
    g.value != [] && forall j :: 0 <= j < |g.value| ==> g.value[j].path == p && g.value[j].idValueSource == g.key
  }

  ghost predicate InsertGroupOk(e: Entry<Path, InsertsBySource>) {
    && e.value != []
    && UniqueKeys(e.value)
    && forall j :: 0 <= j < |e.value| ==> SourceGroupOk(e.value[j], e.key)
  }

  predicate DeleteGroupsOk(m: seq<Entry<Path, seq<DeleteAction>>>) {
    forall i :: 0 <= i < |m| ==> DeleteGroupOk(m[i])
  }

  ghost predicate InsertGroupsOk(m: seq<Entry<Path, InsertsBySource>>) {
    forall i :: 0 <= i < |m| ==> InsertGroupOk(m[i])
  }

  /** A finished root action: InsertRoot, UpdateRoot, or a well-formed BatchInsertRoot. */
  predicate IsRootEmission(a: DbAction) {
    Phase(a) == 0 && WellFormedEmission(a)
  }

  /** Consecutive InsertRoot emissions never share an IdValueSource: each is a maximal batch. */
  predicate MaximalRootBatches(r: seq<DbAction>) {
    forall i :: 0 < i < |r| && IsRootInsertEmission(r[i - 1]) && IsRootInsertEmission(r[i]) ==>
      RootInsertSource(r[i - 1]) != RootInsertSource(r[i])
  }

  /** The invariant of the root actions and the candidates. */
  predicate RootsOk(s: State) {
    && (forall i :: 0 <= i < |s.rootActions| ==> IsRootEmission(s.rootActions[i]))
    && MaximalRootBatches(s.rootActions)
    && SameSource(s.insertRootBatchCandidates)
    // candidates exist only after a flush forced by an IdValueSource change, or after an UpdateRoot
    && (s.insertRootBatchCandidates == [] ==> s.rootActions == [] || s.rootActions[|s.rootActions| - 1].UpdateRoot?)
    && (s.insertRootBatchCandidates != [] && s.rootActions != [] &&
        IsRootInsertEmission(s.rootActions[|s.rootActions| - 1]) ==>
          RootInsertSource(s.rootActions[|s.rootActions| - 1]) != s.insertRootBatchCandidates[0].idValueSource)
  }

  /** The invariant of the two maps: unique keys, and every list non-empty and on its key. */
  ghost predicate MapsOk(s: State) {
    && UniqueKeys(s.deleteActions)
    && DeleteGroupsOk(s.deleteActions)
    && UniqueKeys(s.insertActions)
    && InsertGroupsOk(s.insertActions)
  }

  ghost predicate Valid(s: State) {
    RootsOk(s) && MapsOk(s)
  }
}
