/**
  What `add` does to the accumulators: it keeps their invariant, and each
  accumulator ends up holding exactly the added actions of its kind and key,
  in arrival order.
 */
module Accumulation {
  import opened Actions
  import opened AssocList
  import opened SaveBatching

  /** The child Inserts accumulated under one path and IdValueSource. */
  function InsertsFor(s: State, p: Path, source: IdValueSource): seq<InsertAction> {
    Get<IdValueSource, InsertAction>(Get<Path, Entry<IdValueSource, seq<InsertAction>>>(s.insertActions, p), source)
  }

  /** The Deletes accumulated under one path. */
  function DeletesFor(s: State, p: Path): seq<DeleteAction> {
    Get<Path, DeleteAction>(s.deleteActions, p)
  }

  lemma FreshValid()
    ensures Valid(Fresh)
  {
  }

  lemma NewInsertGroupOk(a: InsertAction)
    ensures InsertGroupOk(Entry(a.path, [Entry(a.idValueSource, [a])]))
  {
    var inner := [Entry(a.idValueSource, [a])];
    forall k ensures |ValuesAt(inner, k)| <= 1 {
    }
  }

  lemma SourceGroupGrows(g: Entry<IdValueSource, seq<InsertAction>>, p: Path, a: InsertAction)
    requires SourceGroupOk(g, p) && a.path == p && a.idValueSource == g.key
    ensures SourceGroupOk(Entry(g.key, g.value + [a]), p)
  {
  }

  lemma {:induction false} AppendKeepsSourceGroups(v: InsertsBySource, p: Path, a: InsertAction)
    requires forall j :: 0 <= j < |v| ==> SourceGroupOk(v[j], p)
    requires a.path == p
    ensures forall j :: 0 <= j < |AppendAt(v, a.idValueSource, a)| ==> SourceGroupOk(AppendAt(v, a.idValueSource, a)[j], p)
  {
    var inner := AppendAt(v, a.idValueSource, a);
    forall j | 0 <= j < |inner| ensures SourceGroupOk(inner[j], p) {
      if j < |v| {
        var g := v[j];
        assert SourceGroupOk(g, p);
        if inner[j] != g {
          assert inner[j].key == g.key && inner[j].value == g.value + [a];
          SourceGroupGrows(g, p, a);
        }
      } else {
        assert inner[j] == Entry(a.idValueSource, [a]);
      }
    }
  }

  lemma {:induction false} GrownInsertGroupOk(e: Entry<Path, InsertsBySource>, a: InsertAction)
    requires InsertGroupOk(e) && e.key == a.path
    ensures InsertGroupOk(Entry(e.key, AppendAt(e.value, a.idValueSource, a)))
  {
    AppendAtKeepsUniqueKeys(e.value, a.idValueSource, a);
    AppendKeepsSourceGroups(e.value, e.key, a);
  }

  lemma AddInsertKeepsGroups(m: seq<Entry<Path, InsertsBySource>>, a: InsertAction)
    requires UniqueKeys(m)
    requires forall i :: 0 <= i < |m| ==> InsertGroupOk(m[i])
    ensures UniqueKeys(AddInsert(m, a))
    ensures forall i :: 0 <= i < |AddInsert(m, a)| ==> InsertGroupOk(AddInsert(m, a)[i])
  {
    var r := AddInsert(m, a);
    forall p ensures |ValuesAt(r, p)| <= 1 {
      if p != a.path {
        assert ValuesAt(r, p) == ValuesAt(m, p);
      }
    }
    forall i | 0 <= i < |r| ensures InsertGroupOk(r[i]) {
      if i == |m| {
        NewInsertGroupOk(a);
      } else if r[i] != m[i] {
        GrownInsertGroupOk(m[i], a);
        assert r[i] == Entry(m[i].key, AppendAt(m[i].value, a.idValueSource, a));
      }
    }
  }

  lemma AppendDeleteKeepsGroups(m: seq<Entry<Path, seq<DeleteAction>>>, a: DeleteAction)
    requires UniqueKeys(m)
    requires forall i :: 0 <= i < |m| ==> DeleteGroupOk(m[i])
    ensures UniqueKeys(AppendAt(m, a.path, a))
    ensures forall i :: 0 <= i < |AppendAt(m, a.path, a)| ==> DeleteGroupOk(AppendAt(m, a.path, a)[i])
  {
    AppendAtKeepsUniqueKeys(m, a.path, a);
    var r := AppendAt(m, a.path, a);
    forall i | 0 <= i < |r| ensures DeleteGroupOk(r[i]) {
      if i < |m| {
        assert DeleteGroupOk(m[i]);
      }
    }
  }

  /** The root-action part of the invariant survives a flush followed by appending `a`. */
  lemma FlushThenAppendKeepsRoots(s: State, a: DbAction)
    requires Valid(s)
    requires a.UpdateRoot? || (a.InsertRoot? && s.insertRootBatchCandidates != [] && a.idValueSource != s.insertRootBatchCandidates[0].idValueSource)
    ensures var f := CombineBatchCandidates(s);
      && (forall i :: 0 <= i < |f.rootActions| ==> IsRootEmission(f.rootActions[i]))
      && MaximalRootBatches(f.rootActions)
      && (a.InsertRoot? && f.rootActions != [] && IsRootInsertEmission(f.rootActions[|f.rootActions| - 1]) ==>
            RootInsertSource(f.rootActions[|f.rootActions| - 1]) != a.idValueSource)
      && (a.InsertRoot? ==> f.rootActions != [] && !f.rootActions[|f.rootActions| - 1].UpdateRoot?)
  {
    var c := s.insertRootBatchCandidates;
    var roots := s.rootActions + Collapse(c);
    assert CombineBatchCandidates(s).rootActions == roots;
    forall i | 0 < i < |roots| && IsRootInsertEmission(roots[i - 1]) && IsRootInsertEmission(roots[i])
      ensures RootInsertSource(roots[i - 1]) != RootInsertSource(roots[i])
    {
      if i < |s.rootActions| {
        assert roots[i - 1] == s.rootActions[i - 1] && roots[i] == s.rootActions[i];
      } else {
        assert roots[i] == Collapse(c)[0];
        assert roots[i - 1] == s.rootActions[|s.rootActions| - 1];
      }
    }
    forall i | 0 <= i < |roots| ensures IsRootEmission(roots[i]) {
      if i >= |s.rootActions| {
        assert roots[i] == Collapse(c)[i - |s.rootActions|];
      }
    }
  }

  lemma UpdateRootKeepsValid(s: State, a: DbAction)
    requires Valid(s) && a.UpdateRoot?
    ensures Valid(AddAction(s, a))
  {
    FlushThenAppendKeepsRoots(s, a);
    var f := CombineBatchCandidates(s);
    assert AddAction(s, a).rootActions == f.rootActions + [a];
    assert IsRootEmission(a);
  }

  lemma InsertRootKeepsValid(s: State, a: DbAction)
    requires Valid(s) && a.InsertRoot?
    ensures Valid(AddAction(s, a))
  {
    var c := s.insertRootBatchCandidates;
    if c != [] && c[0].idValueSource != a.idValueSource {
      FlushThenAppendKeepsRoots(s, a);
    } else {
      assert AddAction(s, a).rootActions == s.rootActions;
      assert SameSource(AddAction(s, a).insertRootBatchCandidates);
    }
  }

  lemma InsertKeepsValid(s: State, a: DbAction)
    requires Valid(s) && a.Insert?
    ensures Valid(AddAction(s, a))
  {
    AddInsertKeepsGroups(s.insertActions, a);
    assert RootsOk(AddAction(s, a));
  }

  lemma DeleteKeepsValid(s: State, a: DbAction)
    requires Valid(s) && a.Delete?
    ensures Valid(AddAction(s, a))
  {
    AppendDeleteKeepsGroups(s.deleteActions, a);
    assert RootsOk(AddAction(s, a));
  }

  /** Every branch of `add` keeps the invariant; ignored kinds leave the state as it is. */
  lemma AddActionKeepsValid(s: State, a: DbAction)
    requires Valid(s)
    ensures Valid(AddAction(s, a))
  {
    if a.UpdateRoot? {
      UpdateRootKeepsValid(s, a);
    } else if a.InsertRoot? {
      InsertRootKeepsValid(s, a);
    } else if a.Insert? {
      InsertKeepsValid(s, a);
    } else if a.Delete? {
      DeleteKeepsValid(s, a);
    } else {
      assert AddAction(s, a) == s;
    }
  }

  lemma {:induction false} AddKeepsValid(s: State, change: seq<DbAction>)
    requires Valid(s)
    ensures Valid(Add(s, change))
    decreases |change|
  {
    if change != [] {
      AddActionKeepsValid(s, change[0]);
      AddKeepsValid(AddAction(s, change[0]), change[1..]);
    }
  }

  lemma {:induction false} AddAllKeepsValid(s: State, changes: seq<seq<DbAction>>)
    requires Valid(s)
    ensures Valid(AddAll(s, changes))
    decreases |changes|
  {
    if changes != [] {
      AddKeepsValid(s, changes[0]);
      AddAllKeepsValid(Add(s, changes[0]), changes[1..]);
    }
  }

  /** The root actions and the candidates together keep every root action in arrival order. */
  lemma AddActionRoots(s: State, a: DbAction)
    ensures var t := AddAction(s, a);
      Flatten(t.rootActions) + t.insertRootBatchCandidates
      == Flatten(s.rootActions) + s.insertRootBatchCandidates + Select([a], RootActions)
  {
    var t := AddAction(s, a);
    match a
    case UpdateRoot(_) =>
      var f := CombineBatchCandidates(s);
      FlattenAppend(f.rootActions, [a]);
    case InsertRoot(_, source) =>
      var c := s.insertRootBatchCandidates;
      if c != [] && c[0].idValueSource != source {
        var f := CombineBatchCandidates(s);
        assert t.rootActions == f.rootActions;
      }
    case Insert(_, _, _) =>
    case Delete(_, _) =>
    case OtherAction(_) =>
    case BatchInsertRoot(_) =>
    case BatchInsert(_) =>
    case BatchDelete(_) =>
  }

  /** A Delete lands at the end of the list for its path; no other list changes. */
  lemma AddActionDeletes(s: State, a: DbAction, p: Path)
    ensures DeletesFor(AddAction(s, a), p) == DeletesFor(s, p) + Select([a], DeletesOn(p))
  {
    if a.Delete? && a.path != p {
      AppendAtKeepsOtherLists<Path, DeleteAction>(s.deleteActions, a.path, a, p);
    }
  }

  lemma AddInsertLists(m: seq<Entry<Path, InsertsBySource>>, a: InsertAction, p: Path, src: IdValueSource)
    ensures Get(Get(AddInsert(m, a), p), src) == Get(Get(m, p), src) + (if p == a.path && src == a.idValueSource then [a] else [])
  {
    var r := AddInsert(m, a);
    if p != a.path {
      assert ValuesAt(r, p) == ValuesAt(m, p);
    } else {
      var inner := Get(m, p);
      assert Get(r, p) == AppendAt(inner, a.idValueSource, a);
      if src != a.idValueSource {
        AppendAtKeepsOtherLists(inner, a.idValueSource, a, src);
      }
    }
  }

  /** A child Insert lands at the end of the list for its path and IdValueSource; no other list changes. */
  lemma AddActionInserts(s: State, a: DbAction, p: Path, src: IdValueSource)
    ensures InsertsFor(AddAction(s, a), p, src) == InsertsFor(s, p, src) + Select([a], InsertsOn(p, src))
  {
    if a.Insert? {
      AddInsertLists(s.insertActions, a, p, src);
    }
  }

  /** After `add`, root actions and candidates hold the earlier roots followed by the change's, in order. */
  lemma {:induction false} AddRoots(s: State, change: seq<DbAction>)
    ensures var t := Add(s, change);
      Flatten(t.rootActions) + t.insertRootBatchCandidates
      == Flatten(s.rootActions) + s.insertRootBatchCandidates + Select(change, RootActions)
    decreases |change|
  {
    if change != [] {
      var a := change[0];
      AddActionRoots(s, a);
      AddRoots(AddAction(s, a), change[1..]);
      assert change == [a] + change[1..];
      SelectAppend([a], change[1..], RootActions);
    }
  }

  /** After `add`, the list under path `p` is the earlier one followed by the change's Deletes on `p`, in order. */
  lemma {:induction false} AddDeletes(s: State, change: seq<DbAction>, p: Path)
    ensures DeletesFor(Add(s, change), p) == DeletesFor(s, p) + Select(change, DeletesOn(p))
    decreases |change|
  {
    if change != [] {
      var a := change[0];
      AddActionDeletes(s, a, p);
      AddDeletes(AddAction(s, a), change[1..], p);
      assert change == [a] + change[1..];
      SelectAppend([a], change[1..], DeletesOn(p));
    }
  }

  /** After `add`, the list under (`p`, `src`) is the earlier one followed by the change's matching Inserts, in order. */
  lemma {:induction false} AddInserts(s: State, change: seq<DbAction>, p: Path, src: IdValueSource)
    ensures InsertsFor(Add(s, change), p, src) == InsertsFor(s, p, src) + Select(change, InsertsOn(p, src))
    decreases |change|
  {
    if change != [] {
      var a := change[0];
      AddActionInserts(s, a, p, src);
      AddInserts(AddAction(s, a), change[1..], p, src);
      assert change == [a] + change[1..];
      SelectAppend([a], change[1..], InsertsOn(p, src));
    }
  }

  /** Feeding two changes one after the other is feeding their concatenation. */
  lemma {:induction false} AddAppend(s: State, xs: seq<DbAction>, ys: seq<DbAction>)
    ensures Add(Add(s, xs), ys) == Add(s, xs + ys)
    decreases |xs|
  {
    if xs != [] {
      assert (xs + ys)[1..] == xs[1..] + ys;
      AddAppend(AddAction(s, xs[0]), xs[1..], ys);
    } else {
      assert xs + ys == ys;
    }
  }

  /**
    Aggregate boundaries do not matter: adding the changes one by one gives the
    accumulators of adding all their actions as a single change, so roots of
    different aggregates batch together.
   */
  lemma {:induction false} AddAllIsAddOfJoin(s: State, changes: seq<seq<DbAction>>)
    ensures AddAll(s, changes) == Add(s, Join(changes))
    decreases |changes|
  {
    if changes != [] {
      AddAllIsAddOfJoin(Add(s, changes[0]), changes[1..]);
      AddAppend(s, changes[0], Join(changes[1..]));
    }
  }

  /** Feeding one more change is one more `add`. */
  lemma {:induction false} AddAllSnoc(s: State, changes: seq<seq<DbAction>>, change: seq<DbAction>)
    ensures AddAll(s, changes + [change]) == Add(AddAll(s, changes), change)
    decreases |changes|
  {
    if changes == [] {
      AddAllStep(s, change, []);
      assert [] + [change] == [change] + [];
    } else {
      assert changes + [change] == [changes[0]] + (changes[1..] + [change]);
      AddAllStep(s, changes[0], changes[1..] + [change]);
      AddAllSnoc(Add(s, changes[0]), changes[1..], change);
      AddAllStep(s, changes[0], changes[1..]);
      assert changes == [changes[0]] + changes[1..];
    }
  }

  /** Unfolding `add` by one action. */
  lemma AddStep(s: State, a: DbAction, rest: seq<DbAction>)
    ensures Add(s, [a] + rest) == Add(AddAction(s, a), rest)
  {
    assert ([a] + rest)[1..] == rest;
  }

  /** Unfolding the sequence of `add` calls by one change. */
  lemma AddAllStep(s: State, change: seq<DbAction>, rest: seq<seq<DbAction>>)
    ensures AddAll(s, [change] + rest) == AddAll(Add(s, change), rest)
  {
    assert ([change] + rest)[1..] == rest;
  }

  /** A change of one action is one step of `add`. */
  lemma AddOne(s: State, a: DbAction)
    ensures Add(s, [a]) == AddAction(s, a)
  {
    AddStep(s, a, []);
    assert [a] + [] == [a];
  }

  /** A save of one change is one `add` call. */
  lemma AddAllOne(s: State, change: seq<DbAction>)
    ensures AddAll(s, [change]) == Add(s, change)
  {
    AddAllStep(s, change, []);
    assert [change] + [] == [change];
  }
}
