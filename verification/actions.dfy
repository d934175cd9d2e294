/**
  The action model consumed and produced by the save batching engine: the
  closed family of database actions, the ID-value source of a row, property
  paths, and the views of an action sequence the engine's guarantees talk about
  (flattening batches, selecting the actions of one grouping key).
 */
module Actions {

  /** How the primary key of an inserted row is obtained. */
  datatype IdValueSource = Generated | Provided | None

  /** A property path from the aggregate root; its length is its depth. Root actions use the empty path. */
  type Path = seq<string>

  /** Entities are opaque: the engine only moves them around. */
  type Entity = nat

  datatype DbAction =
    | InsertRoot(entity: Entity, idValueSource: IdValueSource)
    | UpdateRoot(entity: Entity)
    | Insert(entity: Entity, path: Path, idValueSource: IdValueSource)
    | Delete(rootId: Entity, path: Path)
      /** Every other kind a change may hold (root deletes, delete-all, lock acquisition); the engine ignores it. */
    | OtherAction(kind: string)
    | BatchInsertRoot(actions: seq<DbAction>)
    | BatchInsert(actions: seq<DbAction>)
    | BatchDelete(actions: seq<DbAction>)

  /** The element types of the engine's typed accumulators. */
  type InsertRootAction = a: DbAction | a.InsertRoot? witness InsertRoot(0, Generated)
  type InsertAction = a: DbAction | a.Insert? witness Insert(0, [], Generated)
  type DeleteAction = a: DbAction | a.Delete? witness Delete(0, [])

  predicate IsBatch(a: DbAction) {
    a.BatchInsertRoot? || a.BatchInsert? || a.BatchDelete?
  }

  /** The primitive actions an emitted action stands for. */
  function Members(a: DbAction): seq<DbAction> {
    if IsBatch(a) then a.actions else [a]
  }

  /** Every emitted action replaced by the primitive actions it stands for. */
  function Flatten(r: seq<DbAction>): seq<DbAction> {
    if r == [] then [] else Members(r[0]) + Flatten(r[1..])
  }

  lemma {:induction false} FlattenAppend(a: seq<DbAction>, b: seq<DbAction>)
    ensures Flatten(a + b) == Flatten(a) + Flatten(b)
    decreases |a|
  {
    if a == [] {
      assert a + b == b;
    } else {
      assert (a + b)[1..] == a[1..] + b;
      FlattenAppend(a[1..], b);
    }
  }

  /** The grouping keys the engine's guarantees are stated per. */
  datatype Selector =
    | RootActions                                       // InsertRoot and UpdateRoot
    | DeletesOn(deletePath: Path)                       // primitive Deletes at one path
    | InsertsOn(insertPath: Path, source: IdValueSource) // primitive Inserts at one path with one source
    | AcceptedActions                                   // every kind `add` accepts
    | DeleteEmissionsOn(emittedPath: Path)              // a Delete or BatchDelete at one path
    | InsertBatchesOn(batchPath: Path, batchSource: IdValueSource) // a BatchInsert for one key

  predicate Matches(sel: Selector, a: DbAction) {
    match sel
    case RootActions => a.InsertRoot? || a.UpdateRoot?
    case DeletesOn(p) => a.Delete? && a.path == p
    case InsertsOn(p, src) => a.Insert? && a.path == p && a.idValueSource == src
    case AcceptedActions => a.InsertRoot? || a.UpdateRoot? || a.Insert? || a.Delete?
    case DeleteEmissionsOn(p) =>
      || (a.Delete? && a.path == p)
      || (a.BatchDelete? && a.actions != [] && a.actions[0].Delete? && a.actions[0].path == p)
    case InsertBatchesOn(p, src) =>
      && a.BatchInsert? && a.actions != []
      && a.actions[0].Insert? && a.actions[0].path == p && a.actions[0].idValueSource == src
  }

  /** The subsequence of `xs` that `sel` selects, in order. */
  function Select(xs: seq<DbAction>, sel: Selector): (r: seq<DbAction>)
    ensures |r| <= |xs|
    ensures forall i :: 0 <= i < |r| ==> Matches(sel, r[i])
  {
    if xs == [] then []
    else (if Matches(sel, xs[0]) then [xs[0]] else []) + Select(xs[1..], sel)
  }

  lemma {:induction false} SelectAppend(a: seq<DbAction>, b: seq<DbAction>, sel: Selector)
    ensures Select(a + b, sel) == Select(a, sel) + Select(b, sel)
    decreases |a|
  {
    if a == [] {
      assert a + b == b;
    } else {
      assert (a + b)[1..] == a[1..] + b;
      SelectAppend(a[1..], b, sel);
    }
  }

  lemma {:induction false} SelectAll(xs: seq<DbAction>, sel: Selector)
    requires forall i :: 0 <= i < |xs| ==> Matches(sel, xs[i])
    ensures Select(xs, sel) == xs
    decreases |xs|
  {
    if xs != [] {
      SelectAll(xs[1..], sel);
    }
  }

  lemma {:induction false} SelectNone(xs: seq<DbAction>, sel: Selector)
    requires forall i :: 0 <= i < |xs| ==> !Matches(sel, xs[i])
    ensures Select(xs, sel) == []
    decreases |xs|
  {
    if xs != [] {
      SelectNone(xs[1..], sel);
    }
  }

  /** Selecting does not change how often a selected action occurs. */
  lemma {:induction false} SelectCount(xs: seq<DbAction>, sel: Selector, a: DbAction)
    ensures multiset(Select(xs, sel))[a] == if Matches(sel, a) then multiset(xs)[a] else 0
    decreases |xs|
  {
    if xs != [] {
      SelectCount(xs[1..], sel, a);
      assert xs == [xs[0]] + xs[1..];
    }
  }

  /** The phase of the actions a selector can select. */
  function SelectorPhase(sel: Selector): nat {
    match sel
    case RootActions => 0
    case DeletesOn(_) => 1
    case DeleteEmissionsOn(_) => 1
    case InsertsOn(_, _) => 2
    case InsertBatchesOn(_, _) => 2
    case AcceptedActions => 0
  }

  lemma SelectOtherPhase(xs: seq<DbAction>, sel: Selector)
    requires !sel.AcceptedActions?
    requires forall a :: a in xs ==> Phase(a) != SelectorPhase(sel)
    ensures Select(xs, sel) == []
  {
    forall i | 0 <= i < |xs| ensures !Matches(sel, xs[i]) {
      assert xs[i] in xs;
    }
    SelectNone(xs, sel);
  }

  /** The execution phase an emitted action belongs to: roots, then deletes, then child inserts. */
  function Phase(a: DbAction): nat {
    match a
    case InsertRoot(_, _) => 0
    case UpdateRoot(_) => 0
    case BatchInsertRoot(_) => 0
    case Delete(_, _) => 1
    case BatchDelete(_) => 1
    case Insert(_, _, _) => 2
    case BatchInsert(_) => 2
    case OtherAction(_) => 3
  }

  /**
    Whether `a` may run before `b` in an emitted (flattened) sequence: phases
    never go backwards, deletes go deepest path first, child inserts go
    shallowest path first.
   */
  predicate MayPrecede(a: DbAction, b: DbAction) {
    if Phase(a) != Phase(b) then Phase(a) < Phase(b)
    else if a.Delete? && b.Delete? then |a.path| >= |b.path|
    else if a.Insert? && b.Insert? then |a.path| <= |b.path|
    else true
  }

  predicate Ordered(f: seq<DbAction>) {
    forall i, j :: 0 <= i < j < |f| ==> MayPrecede(f[i], f[j])
  }

  lemma OrderedAppend(a: seq<DbAction>, b: seq<DbAction>)
    requires Ordered(a) && Ordered(b)
    requires forall x, y :: x in a && y in b ==> MayPrecede(x, y)
    ensures Ordered(a + b)
  {
    forall i, j | 0 <= i < j < |a + b|
      ensures MayPrecede((a + b)[i], (a + b)[j])
    {
      if j < |a| {
      } else if i >= |a| {
        assert (a + b)[i] == b[i - |a|] && (a + b)[j] == b[j - |a|];
      } else {
        assert (a + b)[i] == a[i] && (a + b)[j] == b[j - |a|];
        assert a[i] in a && b[j - |a|] in b;
      }
    }
  }

  lemma OrderedByPairs(a: seq<DbAction>)
    requires forall x, y :: x in a && y in a ==> MayPrecede(x, y)
    ensures Ordered(a)
  {
    forall i, j | 0 <= i < j < |a| ensures MayPrecede(a[i], a[j]) {
      assert a[i] in a && a[j] in a;
    }
  }

  /**
    The shape every emitted action has: a BatchInsertRoot holds two or more
    InsertRoots sharing one IdValueSource, a BatchDelete two or more Deletes on
    one path, a BatchInsert one or more Inserts sharing path and IdValueSource;
    child Inserts are never emitted unwrapped.
   */
  predicate WellFormedEmission(a: DbAction) {
    match a
    case InsertRoot(_, _) => true
    case UpdateRoot(_) => true
    case Delete(_, _) => true
    case BatchInsertRoot(xs) =>
      && |xs| >= 2 && xs[0].InsertRoot?
      && forall i :: 0 <= i < |xs| ==> xs[i].InsertRoot? && xs[i].idValueSource == xs[0].idValueSource
    case BatchDelete(xs) =>
      && |xs| >= 2 && xs[0].Delete?
      && forall i :: 0 <= i < |xs| ==> xs[i].Delete? && xs[i].path == xs[0].path
    case BatchInsert(xs) =>
      && |xs| >= 1 && xs[0].Insert?
      && forall i :: 0 <= i < |xs| ==>
           xs[i].Insert? && xs[i].path == xs[0].path && xs[i].idValueSource == xs[0].idValueSource
    case Insert(_, _, _) => false
    case OtherAction(_) => false
  }

  /** An InsertRoot or a BatchInsertRoot: an emission of the insert-root candidates. */
  predicate IsRootInsertEmission(a: DbAction) {
    a.InsertRoot? || (a.BatchInsertRoot? && a.actions != [] && a.actions[0].InsertRoot?)
  }

  /** The IdValueSource of an InsertRoot, or of the first member of a BatchInsertRoot. */
  function RootInsertSource(a: DbAction): IdValueSource
    requires IsRootInsertEmission(a)
  {
    if a.InsertRoot? then a.idValueSource else a.actions[0].idValueSource
  }
}
