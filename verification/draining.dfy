/**
  What `forEachAction` emits from accumulators that satisfy the invariant:
  the shape of every emitted action, the order of the phases and of the path
  depths, and, per grouping key, exactly the accumulated actions.
 */
module Draining {
  import opened Actions
  import opened AssocList
  import opened DepthOrder
  import opened SaveBatching
  import opened Accumulation

  /** The child Inserts of all entries of the insert map, in entry order. */
  function AllInserts(m: seq<Entry<Path, InsertsBySource>>): seq<InsertAction> {
    if m == [] then [] else SourceInserts(m[0].value) + AllInserts(m[1..])
  }

  /** The Deletes of all entries of the delete map, in entry order. */
  function AllDeletes(m: seq<Entry<Path, seq<DeleteAction>>>): seq<DeleteAction> {
    ConcatValues<Path, DeleteAction>(m)
  }

  /** The child Inserts of all IdValueSource entries of one path, in entry order. */
  function SourceInserts(v: InsertsBySource): seq<InsertAction> {
    ConcatValues<IdValueSource, InsertAction>(v)
  }

  /** A child-insert list as emitted: one BatchInsert, or nothing for an empty list. */
  function BatchOf(l: seq<InsertAction>): seq<DbAction> {
    if l == [] then [] else [BatchInsert(l)]
  }

  /* ----- Flattening the emission ----- */

  lemma {:induction false} FlattenEmitDeletes(m: seq<Entry<Path, seq<DeleteAction>>>)
    ensures Flatten(EmitDeletes(m)) == AllDeletes(m)
    decreases |m|
  {
    if m != [] {
      FlattenAppend(DeleteGroupActions(m[0].value), EmitDeletes(m[1..]));
      FlattenEmitDeletes(m[1..]);
    }
  }

  lemma {:induction false} FlattenEmitInsertsBySource(v: InsertsBySource)
    ensures Flatten(EmitInsertsBySource(v)) == SourceInserts(v)
    decreases |v|
  {
    if v != [] {
      FlattenAppend([BatchInsert(v[0].value)], EmitInsertsBySource(v[1..]));
      FlattenEmitInsertsBySource(v[1..]);
    }
  }

  lemma {:induction false} FlattenEmitInserts(m: seq<Entry<Path, InsertsBySource>>)
    ensures Flatten(EmitInserts(m)) == AllInserts(m)
    decreases |m|
  {
    if m != [] {
      FlattenAppend(EmitInsertsBySource(m[0].value), EmitInserts(m[1..]));
      FlattenEmitInsertsBySource(m[0].value);
      FlattenEmitInserts(m[1..]);
    }
  }

  lemma {:induction false} FlattenRootEmissions(r: seq<DbAction>)
    requires forall a :: a in r ==> IsRootEmission(a)
    ensures forall b :: b in Flatten(r) ==> b.InsertRoot? || b.UpdateRoot?
    decreases |r|
  {
    if r != [] {
      assert r[0] in r;
      FlattenRootEmissions(r[1..]);
    }
  }

  /** The emission, flattened: the roots in order, then the sorted delete lists, then the sorted insert lists. */
  lemma FlattenForEachAction(s: State)
    ensures Flatten(RootSection(s)) == Flatten(s.rootActions) + s.insertRootBatchCandidates
    ensures Flatten(DeleteSection(s)) == AllDeletes(SortByDepth(s.deleteActions, true))
    ensures Flatten(InsertSection(s)) == AllInserts(SortByDepth(s.insertActions, false))
    ensures Flatten(ForEachAction(s)) == Flatten(RootSection(s)) + Flatten(DeleteSection(s)) + Flatten(InsertSection(s))
  {
    FlattenAppend(s.rootActions, Collapse(s.insertRootBatchCandidates));
    FlattenEmitDeletes(SortByDepth(s.deleteActions, true));
    FlattenEmitInserts(SortByDepth(s.insertActions, false));
    FlattenAppend(RootSection(s) + DeleteSection(s), InsertSection(s));
    FlattenAppend(RootSection(s), DeleteSection(s));
  }

  /* ----- Sorting keeps the group invariants and lookups ----- */

  lemma SortKeepsKeys<V>(m: seq<Entry<Path, V>>, deepestFirst: bool)
    requires UniqueKeys(m)
    ensures UniqueKeys(SortByDepth(m, deepestFirst))
  {
    forall k ensures |ValuesAt(SortByDepth(m, deepestFirst), k)| <= 1 {
      SortByDepthKeepsValues(m, deepestFirst, k);
    }
  }

  lemma SortKeepsLookup<T>(m: seq<Entry<Path, seq<T>>>, deepestFirst: bool, k: Path)
    ensures Get(SortByDepth(m, deepestFirst), k) == Get(m, k)
  {
    SortByDepthKeepsValues(m, deepestFirst, k);
  }

  lemma SortKeepsDeleteGroups(m: seq<Entry<Path, seq<DeleteAction>>>, deepestFirst: bool)
    requires DeleteGroupsOk(m)
    ensures DeleteGroupsOk(SortByDepth(m, deepestFirst))
  {
    var r := SortByDepth(m, deepestFirst);
    forall i | 0 <= i < |r| ensures DeleteGroupOk(r[i]) {
      assert r[i] in multiset(r);
      var j :| 0 <= j < |m| && m[j] == r[i];
    }
  }

  lemma SortKeepsInsertGroups(m: seq<Entry<Path, InsertsBySource>>, deepestFirst: bool)
    requires InsertGroupsOk(m)
    ensures InsertGroupsOk(SortByDepth(m, deepestFirst))
  {
    var r := SortByDepth(m, deepestFirst);
    forall i | 0 <= i < |r| ensures InsertGroupOk(r[i]) {
      assert r[i] in multiset(r);
      var j :| 0 <= j < |m| && m[j] == r[i];
    }
  }

  /* ----- Per-key contents of the delete section ----- */

  lemma {:induction false} SelectDeletesOfGroups(m: seq<Entry<Path, seq<DeleteAction>>>, p: Path)
    requires UniqueKeys(m) && DeleteGroupsOk(m)
    ensures Select(AllDeletes(m), DeletesOn(p)) == Get(m, p)
    decreases |m|
  {
    if m != [] {
      var e := m[0];
      UniqueKeysTail(m);
      SelectDeletesOfGroups(m[1..], p);
      SelectAppend(e.value, AllDeletes(m[1..]), DeletesOn(p));
      assert DeleteGroupOk(e);
      if e.key == p {
        SelectAll(e.value, DeletesOn(p));
      } else {
        SelectNone(e.value, DeletesOn(p));
      }
    }
  }

  lemma SelectDeleteGroupEmission(e: Entry<Path, seq<DeleteAction>>, p: Path)
    requires DeleteGroupOk(e)
    ensures Select(DeleteGroupActions(e.value), DeleteEmissionsOn(p))
         == if e.key == p then DeleteGroupActions(e.value) else []
  {
    var r := DeleteGroupActions(e.value);
    assert |r| == 1;
    assert r[0] == BatchDelete(e.value) || r[0] == e.value[0];
    assert Matches(DeleteEmissionsOn(p), r[0]) <==> e.key == p;
    assert r == [r[0]];
  }

  lemma {:induction false} SelectDeleteEmissions(m: seq<Entry<Path, seq<DeleteAction>>>, p: Path)
    requires UniqueKeys(m) && DeleteGroupsOk(m)
    ensures Select(EmitDeletes(m), DeleteEmissionsOn(p)) == DeleteGroupActions(Get(m, p))
    decreases |m|
  {
    if m != [] {
      var e := m[0];
      UniqueKeysTail(m);
      SelectDeleteEmissions(m[1..], p);
      SelectAppend(DeleteGroupActions(e.value), EmitDeletes(m[1..]), DeleteEmissionsOn(p));
      SelectDeleteGroupEmission(e, p);
    }
  }

  /* ----- Per-key contents of the insert section ----- */

  lemma {:induction false} SelectInsertsOfSources(v: InsertsBySource, k: Path, p: Path, src: IdValueSource)
    requires UniqueKeys(v)
    requires forall j :: 0 <= j < |v| ==> SourceGroupOk(v[j], k)
    ensures Select(SourceInserts(v), InsertsOn(p, src)) == if k == p then Get(v, src) else []
    decreases |v|
  {
    if v != [] {
      var g := v[0];
      UniqueKeysTail(v);
      SelectInsertsOfSources(v[1..], k, p, src);
      SelectAppend(g.value, SourceInserts(v[1..]), InsertsOn(p, src));
      assert SourceGroupOk(g, k);
      if k == p && g.key == src {
        SelectAll(g.value, InsertsOn(p, src));
      } else {
        SelectNone(g.value, InsertsOn(p, src));
      }
    }
  }

  lemma {:induction false} SelectInsertsOfGroups(m: seq<Entry<Path, InsertsBySource>>, p: Path, src: IdValueSource)
    requires UniqueKeys(m) && InsertGroupsOk(m)
    ensures Select(AllInserts(m), InsertsOn(p, src)) == Get(Get(m, p), src)
    decreases |m|
  {
    if m != [] {
      var e := m[0];
      UniqueKeysTail(m);
      SelectInsertsOfGroups(m[1..], p, src);
      SelectAppend(SourceInserts(e.value), AllInserts(m[1..]), InsertsOn(p, src));
      assert InsertGroupOk(e);
      SelectInsertsOfSources(e.value, e.key, p, src);
    }
  }

  lemma {:induction false} SelectBatchesOfSources(v: InsertsBySource, k: Path, p: Path, src: IdValueSource)
    requires UniqueKeys(v)
    requires forall j :: 0 <= j < |v| ==> SourceGroupOk(v[j], k)
    ensures Select(EmitInsertsBySource(v), InsertBatchesOn(p, src)) == if k == p then BatchOf(Get(v, src)) else []
    decreases |v|
  {
    if v != [] {
      var g := v[0];
      UniqueKeysTail(v);
      SelectBatchesOfSources(v[1..], k, p, src);
      SelectAppend([BatchInsert(g.value)], EmitInsertsBySource(v[1..]), InsertBatchesOn(p, src));
      assert SourceGroupOk(g, k);
      assert Matches(InsertBatchesOn(p, src), BatchInsert(g.value)) <==> k == p && g.key == src;
    }
  }

  lemma {:induction false} SelectInsertBatches(m: seq<Entry<Path, InsertsBySource>>, p: Path, src: IdValueSource)
    requires UniqueKeys(m) && InsertGroupsOk(m)
    ensures Select(EmitInserts(m), InsertBatchesOn(p, src)) == BatchOf(Get(Get(m, p), src))
    decreases |m|
  {
    if m != [] {
      var e := m[0];
      UniqueKeysTail(m);
      SelectInsertBatches(m[1..], p, src);
      SelectAppend(EmitInsertsBySource(e.value), EmitInserts(m[1..]), InsertBatchesOn(p, src));
      assert InsertGroupOk(e);
      SelectBatchesOfSources(e.value, e.key, p, src);
    }
  }

  /* ----- Shape of each section ----- */

  lemma RootSectionShape(s: State)
    requires Valid(s)
    ensures forall a :: a in RootSection(s) ==> IsRootEmission(a)
  {
    forall a | a in RootSection(s) ensures IsRootEmission(a) {
      if a !in s.rootActions {
        assert a in Collapse(s.insertRootBatchCandidates);
      }
    }
  }

  lemma {:induction false} DeleteEmissionShape(m: seq<Entry<Path, seq<DeleteAction>>>)
    requires DeleteGroupsOk(m)
    ensures forall a :: a in EmitDeletes(m) ==> WellFormedEmission(a) && Phase(a) == 1
    decreases |m|
  {
    if m != [] {
      assert DeleteGroupOk(m[0]);
      assert OnOnePath(m[0].value);
      DeleteEmissionShape(m[1..]);
    }
  }

  lemma {:induction false} InsertBySourceEmissionShape(v: InsertsBySource, k: Path)
    requires forall j :: 0 <= j < |v| ==> SourceGroupOk(v[j], k)
    ensures forall a :: a in EmitInsertsBySource(v) ==> WellFormedEmission(a) && Phase(a) == 2
    decreases |v|
  {
    if v != [] {
      assert SourceGroupOk(v[0], k);
      InsertBySourceEmissionShape(v[1..], k);
    }
  }

  lemma {:induction false} InsertEmissionShape(m: seq<Entry<Path, InsertsBySource>>)
    requires InsertGroupsOk(m)
    ensures forall a :: a in EmitInserts(m) ==> WellFormedEmission(a) && Phase(a) == 2
    decreases |m|
  {
    if m != [] {
      assert InsertGroupOk(m[0]);
      InsertBySourceEmissionShape(m[0].value, m[0].key);
      InsertEmissionShape(m[1..]);
    }
  }

  /* ----- Depth order of the flattened sections ----- */

  lemma {:induction false} DeletesNoDeeperThan(m: seq<Entry<Path, seq<DeleteAction>>>, d: nat)
    requires DeleteGroupsOk(m)
    requires forall i :: 0 <= i < |m| ==> |m[i].key| <= d
    ensures forall b :: b in AllDeletes(m) ==> |b.path| <= d
    decreases |m|
  {
    if m != [] {
      assert DeleteGroupOk(m[0]);
      DeletesNoDeeperThan(m[1..], d);
    }
  }

  lemma {:induction false} DeletesDeepestFirst(m: seq<Entry<Path, seq<DeleteAction>>>)
    requires DeleteGroupsOk(m) && SortedByDepth(m, true)
    ensures Ordered(AllDeletes(m))
    decreases |m|
  {
    if m != [] {
      var e := m[0];
      assert DeleteGroupOk(e);
      DeletesDeepestFirst(m[1..]);
      DeletesNoDeeperThan(m[1..], |e.key|);
      OrderedByPairs(e.value);
      OrderedAppend(e.value, AllDeletes(m[1..]));
    }
  }

  lemma {:induction false} SourcesOnPath(v: InsertsBySource, k: Path)
    requires forall j :: 0 <= j < |v| ==> SourceGroupOk(v[j], k)
    ensures forall b :: b in SourceInserts(v) ==> b.path == k
    decreases |v|
  {
    if v != [] {
      assert SourceGroupOk(v[0], k);
      SourcesOnPath(v[1..], k);
    }
  }

  lemma {:induction false} InsertsNoShallowerThan(m: seq<Entry<Path, InsertsBySource>>, d: nat)
    requires InsertGroupsOk(m)
    requires forall i :: 0 <= i < |m| ==> |m[i].key| >= d
    ensures forall b :: b in AllInserts(m) ==> |b.path| >= d
    decreases |m|
  {
    if m != [] {
      assert InsertGroupOk(m[0]);
      SourcesOnPath(m[0].value, m[0].key);
      InsertsNoShallowerThan(m[1..], d);
    }
  }

  lemma {:induction false} InsertsShallowestFirst(m: seq<Entry<Path, InsertsBySource>>)
    requires InsertGroupsOk(m) && SortedByDepth(m, false)
    ensures Ordered(AllInserts(m))
    decreases |m|
  {
    if m != [] {
      var e := m[0];
      assert InsertGroupOk(e);
      InsertsShallowestFirst(m[1..]);
      InsertsNoShallowerThan(m[1..], |e.key|);
      SourcesOnPath(e.value, e.key);
      OrderedByPairs(SourceInserts(e.value));
      OrderedAppend(SourceInserts(e.value), AllInserts(m[1..]));
    }
  }

  /* ----- The emission of a valid state ----- */

  /** What the invariant gives the root section and the sorted delete map. */
  lemma DeleteSectionFacts(s: State)
    requires UniqueKeys(s.deleteActions) && DeleteGroupsOk(s.deleteActions)
    ensures forall a :: a in DeleteSection(s) ==> WellFormedEmission(a) && Phase(a) == 1
    ensures UniqueKeys(SortByDepth(s.deleteActions, true)) && DeleteGroupsOk(SortByDepth(s.deleteActions, true))
  {
    SortKeepsKeys(s.deleteActions, true);
    SortKeepsDeleteGroups(s.deleteActions, true);
    DeleteEmissionShape(SortByDepth(s.deleteActions, true));
  }

  lemma InsertSectionFacts(s: State)
    requires UniqueKeys(s.insertActions) && InsertGroupsOk(s.insertActions)
    ensures forall a :: a in InsertSection(s) ==> WellFormedEmission(a) && Phase(a) == 2
    ensures UniqueKeys(SortByDepth(s.insertActions, false)) && InsertGroupsOk(SortByDepth(s.insertActions, false))
  {
    SortKeepsKeys(s.insertActions, false);
    SortKeepsInsertGroups(s.insertActions, false);
    InsertEmissionShape(SortByDepth(s.insertActions, false));
  }

  /** What the invariant gives each section of the emission. */
  lemma SectionFacts(s: State)
    requires Valid(s)
    ensures forall a :: a in RootSection(s) ==> IsRootEmission(a)
    ensures forall a :: a in DeleteSection(s) ==> WellFormedEmission(a) && Phase(a) == 1
    ensures forall a :: a in InsertSection(s) ==> WellFormedEmission(a) && Phase(a) == 2
  {
    RootSectionShape(s);
    DeleteSectionFacts(s);
    InsertSectionFacts(s);
  }

  /** Every emitted action is a primitive root action or Delete, or a well-formed batch. */
  lemma ForEachActionShape(s: State)
    requires Valid(s)
    ensures forall a :: a in ForEachAction(s) ==> WellFormedEmission(a)
  {
    SectionFacts(s);
  }

  /** The flattened sections: root actions, then Deletes deepest first, then child Inserts shallowest first. */
  lemma FlattenedSectionsOrdered(s: State)
    requires Valid(s)
    ensures forall b :: b in Flatten(RootSection(s)) ==> b.InsertRoot? || b.UpdateRoot?
    ensures Ordered(AllDeletes(SortByDepth(s.deleteActions, true)))
    ensures Ordered(AllInserts(SortByDepth(s.insertActions, false)))
  {
    RootSectionShape(s);
    DeleteSectionFacts(s);
    InsertSectionFacts(s);
    FlattenRootEmissions(RootSection(s));
    DeletesDeepestFirst(SortByDepth(s.deleteActions, true));
    InsertsShallowestFirst(SortByDepth(s.insertActions, false));
  }

  lemma OrderedPhases(roots: seq<DbAction>, dels: seq<DeleteAction>, ins: seq<InsertAction>)
    requires forall b :: b in roots ==> b.InsertRoot? || b.UpdateRoot?
    requires Ordered(dels) && Ordered(ins)
    ensures Ordered(roots + dels + ins)
  {
    OrderedByPairs(roots);
    OrderedAppend(roots, dels);
    OrderedAppend(roots + dels, ins);
  }

  /**
    Flattened, the emission runs the root actions first, then the Deletes
    deepest path first, then the child Inserts shallowest path first.
   */
  lemma ForEachActionOrdered(s: State)
    requires Valid(s)
    ensures Ordered(Flatten(ForEachAction(s)))
  {
    FlattenForEachAction(s);
    FlattenedSectionsOrdered(s);
    OrderedPhases(Flatten(RootSection(s)), AllDeletes(SortByDepth(s.deleteActions, true)),
                  AllInserts(SortByDepth(s.insertActions, false)));
  }

  lemma MaximalRootSection(s: State)
    requires Valid(s)
    ensures MaximalRootBatches(RootSection(s))
  {
    var roots := s.rootActions;
    var c := Collapse(s.insertRootBatchCandidates);
    var r := RootSection(s);
    forall i | 0 < i < |r| && IsRootInsertEmission(r[i - 1]) && IsRootInsertEmission(r[i])
      ensures RootInsertSource(r[i - 1]) != RootInsertSource(r[i])
    {
      if i < |roots| {
        assert r[i - 1] == roots[i - 1] && r[i] == roots[i];
      } else {
        assert r[i] == c[0] && r[i - 1] == roots[|roots| - 1];
      }
    }
  }

  lemma MaximalPrefix(r: seq<DbAction>, rest: seq<DbAction>)
    requires MaximalRootBatches(r)
    requires forall a :: a in rest ==> Phase(a) != 0
    ensures MaximalRootBatches(r + rest)
  {
    var t := r + rest;
    forall j | |r| <= j < |t| ensures !IsRootInsertEmission(t[j]) {
      assert t[j] == rest[j - |r|] && rest[j - |r|] in rest;
    }
    forall i | 0 < i < |t| && IsRootInsertEmission(t[i - 1]) && IsRootInsertEmission(t[i])
      ensures RootInsertSource(t[i - 1]) != RootInsertSource(t[i])
    {
      if i < |r| {
        assert t[i - 1] == r[i - 1] && t[i] == r[i];
      }
    }
  }

  /** Two InsertRoot emissions next to each other never share an IdValueSource. */
  lemma ForEachActionMaximalRootBatches(s: State)
    requires Valid(s)
    ensures MaximalRootBatches(ForEachAction(s))
  {
    SectionFacts(s);
    MaximalRootSection(s);
    MaximalPrefix(RootSection(s), DeleteSection(s) + InsertSection(s));
    assert ForEachAction(s) == RootSection(s) + (DeleteSection(s) + InsertSection(s));
  }

  lemma SelectMiddle(a: seq<DbAction>, b: seq<DbAction>, c: seq<DbAction>, sel: Selector)
    requires Select(a, sel) == [] && Select(c, sel) == []
    ensures Select(a + b + c, sel) == Select(b, sel)
  {
    SelectAppend(a + b, c, sel);
    SelectAppend(a, b, sel);
  }

  lemma SelectLast(a: seq<DbAction>, b: seq<DbAction>, c: seq<DbAction>, sel: Selector)
    requires Select(a, sel) == [] && Select(b, sel) == []
    ensures Select(a + b + c, sel) == Select(c, sel)
  {
    SelectAppend(a + b, c, sel);
    SelectAppend(a, b, sel);
  }

  /** The delete section, selected on one path, is the collapse of that path's Deletes. */
  lemma DeleteSectionOnPath(s: State, p: Path)
    requires UniqueKeys(s.deleteActions) && DeleteGroupsOk(s.deleteActions)
    ensures Select(DeleteSection(s), DeleteEmissionsOn(p)) == DeleteGroupActions(DeletesFor(s, p))
  {
    DeleteSectionFacts(s);
    SortKeepsLookup(s.deleteActions, true, p);
    SelectDeleteEmissions(SortByDepth(s.deleteActions, true), p);
  }

  /** The insert section, selected on one key, is one BatchInsert of that key's Inserts. */
  lemma InsertSectionOnKey(s: State, p: Path, src: IdValueSource)
    requires UniqueKeys(s.insertActions) && InsertGroupsOk(s.insertActions)
    ensures Select(InsertSection(s), InsertBatchesOn(p, src)) == BatchOf(InsertsFor(s, p, src))
  {
    InsertSectionFacts(s);
    SortKeepsLookup(s.insertActions, false, p);
    SelectInsertBatches(SortByDepth(s.insertActions, false), p, src);
  }

  /** The insert section holds nothing of another phase. */
  lemma InsertSectionSelectsNone(s: State, sel: Selector)
    requires UniqueKeys(s.insertActions) && InsertGroupsOk(s.insertActions)
    requires !sel.AcceptedActions? && SelectorPhase(sel) != 2
    ensures Select(InsertSection(s), sel) == []
  {
    InsertSectionFacts(s);
    SelectOtherPhase(InsertSection(s), sel);
  }

  lemma DeleteGroupsAfterRoots(s: State, p: Path)
    requires forall a :: a in RootSection(s) ==> IsRootEmission(a)
    requires MapsOk(s)
    ensures Select(ForEachAction(s), DeleteEmissionsOn(p)) == DeleteGroupActions(DeletesFor(s, p))
  {
    var sel := DeleteEmissionsOn(p);
    SelectOtherPhase(RootSection(s), sel);
    InsertSectionSelectsNone(s, sel);
    DeleteSectionOnPath(s, p);
    SelectMiddle(RootSection(s), DeleteSection(s), InsertSection(s), sel);
  }

  /** Per path, the delete emission is the collapse of that path's accumulated Deletes. */
  lemma ForEachActionDeleteGroups(s: State, p: Path)
    requires Valid(s)
    ensures Select(ForEachAction(s), DeleteEmissionsOn(p)) == DeleteGroupActions(DeletesFor(s, p))
  {
    RootSectionShape(s);
    DeleteGroupsAfterRoots(s, p);
  }

  /** The delete section holds nothing of another phase. */
  lemma DeleteSectionSelectsNone(s: State, sel: Selector)
    requires UniqueKeys(s.deleteActions) && DeleteGroupsOk(s.deleteActions)
    requires !sel.AcceptedActions? && SelectorPhase(sel) != 1
    ensures Select(DeleteSection(s), sel) == []
  {
    DeleteSectionFacts(s);
    SelectOtherPhase(DeleteSection(s), sel);
  }

  lemma InsertGroupsAfterRoots(s: State, p: Path, src: IdValueSource)
    requires forall a :: a in RootSection(s) ==> IsRootEmission(a)
    requires MapsOk(s)
    ensures Select(ForEachAction(s), InsertBatchesOn(p, src)) == BatchOf(InsertsFor(s, p, src))
  {
    var sel := InsertBatchesOn(p, src);
    var r, d, i := RootSection(s), DeleteSection(s), InsertSection(s);
    SelectOtherPhase(r, sel);
    DeleteSectionSelectsNone(s, sel);
    InsertSectionOnKey(s, p, src);
    SelectLast(r, d, i, sel);
  }

  /** Per path and IdValueSource, the insert emission is one BatchInsert of the accumulated Inserts. */
  lemma ForEachActionInsertGroups(s: State, p: Path, src: IdValueSource)
    requires Valid(s)
    ensures Select(ForEachAction(s), InsertBatchesOn(p, src)) == BatchOf(InsertsFor(s, p, src))
  {
    RootSectionShape(s);
    InsertGroupsAfterRoots(s, p, src);
  }

  lemma SelectRootsOfSections(roots: seq<DbAction>, dels: seq<DeleteAction>, ins: seq<InsertAction>)
    requires forall b :: b in roots ==> b.InsertRoot? || b.UpdateRoot?
    ensures Select(roots + dels + ins, RootActions) == roots
  {
    SelectOtherPhase(dels, RootActions);
    SelectOtherPhase(ins, RootActions);
    forall i | 0 <= i < |roots| ensures Matches(RootActions, roots[i]) {
      assert roots[i] in roots;
    }
    SelectAll(roots, RootActions);
    SelectAppend(roots + dels, ins, RootActions);
    SelectAppend(roots, dels, RootActions);
  }

  lemma SelectDeletesOfSections(roots: seq<DbAction>, dels: seq<DeleteAction>, ins: seq<InsertAction>, p: Path)
    requires forall b :: b in roots ==> b.InsertRoot? || b.UpdateRoot?
    ensures Select(roots + dels + ins, DeletesOn(p)) == Select(dels, DeletesOn(p))
  {
    SelectOtherPhase(roots, DeletesOn(p));
    SelectOtherPhase(ins, DeletesOn(p));
    SelectMiddle(roots, dels, ins, DeletesOn(p));
  }

  lemma SelectInsertsOfSections(roots: seq<DbAction>, dels: seq<DeleteAction>, ins: seq<InsertAction>, p: Path, src: IdValueSource)
    requires forall b :: b in roots ==> b.InsertRoot? || b.UpdateRoot?
    ensures Select(roots + dels + ins, InsertsOn(p, src)) == Select(ins, InsertsOn(p, src))
  {
    SelectOtherPhase(roots, InsertsOn(p, src));
    SelectOtherPhase(dels, InsertsOn(p, src));
    SelectAppend(roots + dels, ins, InsertsOn(p, src));
    SelectAppend(roots, dels, InsertsOn(p, src));
  }

  lemma SectionsAccepted(roots: seq<DbAction>, dels: seq<DeleteAction>, ins: seq<InsertAction>)
    requires forall b :: b in roots ==> b.InsertRoot? || b.UpdateRoot?
    ensures forall b :: b in roots + dels + ins ==> Matches(AcceptedActions, b)
  {
  }

  /**
    Flattened, the emission holds the accumulated root actions in order, and
    per key exactly the accumulated Deletes or Inserts, in order; nothing else.
   */
  lemma ForEachActionFlattened(s: State, p: Path, src: IdValueSource)
    requires Valid(s)
    ensures var f := Flatten(ForEachAction(s));
      && Select(f, RootActions) == Flatten(s.rootActions) + s.insertRootBatchCandidates
      && Select(f, DeletesOn(p)) == DeletesFor(s, p)
      && Select(f, InsertsOn(p, src)) == InsertsFor(s, p, src)
      && forall b :: b in f ==> Matches(AcceptedActions, b)
  {
    FlattenForEachAction(s);
    FlattenedSectionsOrdered(s);
    DeleteSectionFacts(s);
    InsertSectionFacts(s);
    var roots := Flatten(RootSection(s));
    var dels := AllDeletes(SortByDepth(s.deleteActions, true));
    var ins := AllInserts(SortByDepth(s.insertActions, false));
    SelectRootsOfSections(roots, dels, ins);
    SelectDeletesOfSections(roots, dels, ins, p);
    SelectInsertsOfSections(roots, dels, ins, p, src);
    SectionsAccepted(roots, dels, ins);
    SortKeepsLookup(s.deleteActions, true, p);
    SelectDeletesOfGroups(SortByDepth(s.deleteActions, true), p);
    SortKeepsLookup(s.insertActions, false, p);
    SelectInsertsOfGroups(SortByDepth(s.insertActions, false), p, src);
  }
}
