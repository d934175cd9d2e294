/**
  The guarantees of one multi-aggregate save: a fresh engine, fed the
  aggregate changes in order through `add`, then drained once through
  `forEachAction`. Each guarantee is stated against the joined input actions
  alone, with no reference to the accumulators.
 */
module Theorems {
  import opened Actions
  import opened AssocList
  import opened SaveBatching
  import opened Accumulation
  import opened Draining
  import opened RootBatching

  /** The actions a fresh engine hands to the consumer after one `add` per change. */
  function SaveActions(changes: seq<seq<DbAction>>): seq<DbAction> {
    ForEachAction(AddAll(Fresh, changes))
  }

  lemma EngineValid(changes: seq<seq<DbAction>>)
    ensures Valid(AddAll(Fresh, changes))
  {
    FreshValid();
    AddAllKeepsValid(Fresh, changes);
  }

  lemma FreshIsEmpty(p: Path, src: IdValueSource)
    ensures Flatten(Fresh.rootActions) + Fresh.insertRootBatchCandidates == []
    ensures DeletesFor(Fresh, p) == [] && InsertsFor(Fresh, p, src) == []
  {
  }

  /** The accumulators of a fed engine, in terms of the joined input. */
  lemma EngineAccumulates(changes: seq<seq<DbAction>>, p: Path, src: IdValueSource)
    ensures var t := AddAll(Fresh, changes);
      && Flatten(t.rootActions) + t.insertRootBatchCandidates == Select(Join(changes), RootActions)
      && DeletesFor(t, p) == Select(Join(changes), DeletesOn(p))
      && InsertsFor(t, p, src) == Select(Join(changes), InsertsOn(p, src))
  {
    var xs := Join(changes);
    FreshIsEmpty(p, src);
    AddAllIsAddOfJoin(Fresh, changes);
    AddRoots(Fresh, xs);
    AddDeletes(Fresh, xs, p);
    AddInserts(Fresh, xs, p, src);
    assert [] + Select(xs, RootActions) == Select(xs, RootActions);
    assert [] + Select(xs, DeletesOn(p)) == Select(xs, DeletesOn(p));
    assert [] + Select(xs, InsertsOn(p, src)) == Select(xs, InsertsOn(p, src));
  }

  /**
    InsertRoot and UpdateRoot actions come out, once flattened, exactly in
    the order they went in: batching never reorders an InsertRoot past an
    UpdateRoot.
   */
  lemma RootOrderKept(changes: seq<seq<DbAction>>)
    ensures Select(Flatten(SaveActions(changes)), RootActions) == Select(Join(changes), RootActions)
  {
    EngineValid(changes);
    EngineAccumulates(changes, [], Generated);
    ForEachActionFlattened(AddAll(Fresh, changes), [], Generated);
  }

  /** The Deletes of one path come out as one BatchDelete when there are two or more, else unwrapped. */
  lemma DeleteGrouping(changes: seq<seq<DbAction>>, p: Path)
    ensures var l := Select(Join(changes), DeletesOn(p));
      Select(SaveActions(changes), DeleteEmissionsOn(p)) == if |l| > 1 then [BatchDelete(l)] else l
  {
    EngineValid(changes);
    EngineAccumulates(changes, p, Generated);
    ForEachActionDeleteGroups(AddAll(Fresh, changes), p);
  }

  /** The Inserts of one path and IdValueSource come out as exactly one BatchInsert, even a single one. */
  lemma InsertGrouping(changes: seq<seq<DbAction>>, p: Path, src: IdValueSource)
    ensures var l := Select(Join(changes), InsertsOn(p, src));
      Select(SaveActions(changes), InsertBatchesOn(p, src)) == if l == [] then [] else [BatchInsert(l)]
  {
    EngineValid(changes);
    EngineAccumulates(changes, p, src);
    ForEachActionInsertGroups(AddAll(Fresh, changes), p, src);
  }

  /** Counting per action: one action's occurrences are conserved. */
  lemma ConservedAction(changes: seq<seq<DbAction>>, a: DbAction)
    ensures multiset(Flatten(SaveActions(changes)))[a] == multiset(Select(Join(changes), AcceptedActions))[a]
  {
    var t := AddAll(Fresh, changes);
    var f := Flatten(SaveActions(changes));
    var xs := Join(changes);
    EngineValid(changes);
    var p := if a.Delete? || a.Insert? then a.path else [];
    var src := if a.Insert? then a.idValueSource else Generated;
    EngineAccumulates(changes, p, src);
    ForEachActionFlattened(t, p, src);
    SelectCount(xs, AcceptedActions, a);
    if !Matches(AcceptedActions, a) {
      assert a !in f;
    } else {
      var sel := if a.Delete? then DeletesOn(p) else if a.Insert? then InsertsOn(p, src) else RootActions;
      assert Matches(sel, a);
      SelectCount(f, sel, a);
      SelectCount(xs, sel, a);
    }
  }

  /**
    Conservation: the primitive actions handed out are exactly the accepted
    input actions (InsertRoot, UpdateRoot, Insert, Delete), each as often as
    it was added; every other kind is dropped.
   */
  lemma Conservation(changes: seq<seq<DbAction>>)
    ensures multiset(Flatten(SaveActions(changes))) == multiset(Select(Join(changes), AcceptedActions))
  {
    forall a ensures multiset(Flatten(SaveActions(changes)))[a] == multiset(Select(Join(changes), AcceptedActions))[a] {
      ConservedAction(changes, a);
    }
  }

  /**
    Phases: flattened, the root actions come first, then the Deletes deepest
    path first, then the child Inserts shallowest path first.
   */
  lemma PhasesOrdered(changes: seq<seq<DbAction>>)
    ensures Ordered(Flatten(SaveActions(changes)))
  {
    EngineValid(changes);
    ForEachActionOrdered(AddAll(Fresh, changes));
  }

  /**
    Shape: every emitted batch holds two or more InsertRoots of one
    IdValueSource, two or more Deletes of one path, or one or more Inserts of
    one path and one IdValueSource; adjacent InsertRoot emissions never share
    an IdValueSource, so every batch of root inserts is maximal.
   */
  lemma BatchesWellFormed(changes: seq<seq<DbAction>>)
    ensures forall a :: a in SaveActions(changes) ==> WellFormedEmission(a)
    ensures MaximalRootBatches(SaveActions(changes))
  {
    EngineValid(changes);
    ForEachActionShape(AddAll(Fresh, changes));
    ForEachActionMaximalRootBatches(AddAll(Fresh, changes));
  }

  lemma RootSectionRuns(t: State)
    requires Valid(t)
    ensures RootRuns(RootSection(t))
  {
    var roots := RootSection(t);
    RootSectionShape(t);
    MaximalRootSection(t);
    forall i | 0 <= i < |roots| ensures IsRootEmission(roots[i]) {
      assert roots[i] in roots;
    }
  }

  lemma PhaseAfterPrefix(roots: seq<DbAction>, rest: seq<DbAction>)
    requires forall a :: a in rest ==> Phase(a) != 0
    ensures forall i :: |roots| <= i < |roots + rest| ==> Phase((roots + rest)[i]) != 0
  {
    forall i | |roots| <= i < |roots + rest| ensures Phase((roots + rest)[i]) != 0 {
      assert (roots + rest)[i] == rest[i - |roots|] && rest[i - |roots|] in rest;
    }
  }

  /** Only the root section holds root-phase emissions. */
  lemma AfterRootSection(t: State)
    requires UniqueKeys(t.deleteActions) && DeleteGroupsOk(t.deleteActions)
    requires UniqueKeys(t.insertActions) && InsertGroupsOk(t.insertActions)
    ensures ForEachAction(t) == RootSection(t) + (DeleteSection(t) + InsertSection(t))
    ensures forall i :: |RootSection(t)| <= i < |ForEachAction(t)| ==> Phase(ForEachAction(t)[i]) != 0
  {
    DeleteSectionFacts(t);
    InsertSectionFacts(t);
    PhaseAfterPrefix(RootSection(t), DeleteSection(t) + InsertSection(t));
  }

  /** A state-level form: the root section is the one root-run grouping of the recorded root actions. */
  lemma RootPart(t: State, r: seq<DbAction>)
    requires Valid(t)
    requires RootRuns(r) && Flatten(r) == Flatten(t.rootActions) + t.insertRootBatchCandidates
    ensures |r| <= |ForEachAction(t)| && ForEachAction(t)[..|r|] == r
    ensures forall i :: |r| <= i < |ForEachAction(t)| ==> Phase(ForEachAction(t)[i]) != 0
  {
    FlattenForEachAction(t);
    RootSectionRuns(t);
    RootRunsUnique(r, RootSection(t));
    AfterRootSection(t);
  }

  /**
    The root part of the output, characterised by the input alone: it is
    the one way to cut the input's InsertRoots and UpdateRoots, in order, into
    root emissions whose InsertRoot batches are maximal runs of one
    IdValueSource; everything after it is a delete or insert emission.
   */
  lemma RootBatchesAreMaximalRuns(changes: seq<seq<DbAction>>, r: seq<DbAction>)
    requires RootRuns(r) && Flatten(r) == Select(Join(changes), RootActions)
    ensures |r| <= |SaveActions(changes)| && SaveActions(changes)[..|r|] == r
    ensures forall i :: |r| <= i < |SaveActions(changes)| ==> Phase(SaveActions(changes)[i]) != 0
  {
    EngineValid(changes);
    EngineAccumulates(changes, [], Generated);
    RootPart(AddAll(Fresh, changes), r);
  }

  /**
    The requires of `RootBatchesAreMaximalRuns` can be met for every input:
    the root section of the output is such a grouping.
   */
  lemma RootRunsExist(changes: seq<seq<DbAction>>)
    ensures exists r :: RootRuns(r) && Flatten(r) == Select(Join(changes), RootActions)
  {
    var t := AddAll(Fresh, changes);
    EngineValid(changes);
    EngineAccumulates(changes, [], Generated);
    RootSectionRuns(t);
    FlattenForEachAction(t);
    assert RootRuns(RootSection(t)) && Flatten(RootSection(t)) == Select(Join(changes), RootActions);
  }
}
