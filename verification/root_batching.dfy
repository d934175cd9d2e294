/**
  The root section as maximal runs. A sequence of root emissions in which
  adjacent InsertRoot emissions differ in IdValueSource is determined by its
  flattening: there is exactly one way to cut a sequence of InsertRoot and
  UpdateRoot actions into such emissions.
 */
module RootBatching {
  import opened Actions
  import opened SaveBatching

  /** Root emissions whose InsertRoot batches are maximal runs of one IdValueSource. */
  predicate RootRuns(r: seq<DbAction>) {
    && (forall i :: 0 <= i < |r| ==> IsRootEmission(r[i]))
    && MaximalRootBatches(r)
  }

  lemma RootRunsTail(r: seq<DbAction>)
    requires r != [] && RootRuns(r)
    ensures RootRuns(r[1..])
  {
    var t := r[1..];
    forall i | 0 < i < |t| && IsRootInsertEmission(t[i - 1]) && IsRootInsertEmission(t[i])
      ensures RootInsertSource(t[i - 1]) != RootInsertSource(t[i])
    {
      assert t[i - 1] == r[i] && t[i] == r[i + 1];
    }
  }

  /** What a root emission stands for: itself when UpdateRoot, otherwise InsertRoots of its source. */
  lemma EmissionMembers(e: DbAction)
    requires IsRootEmission(e)
    ensures Members(e) != []
    ensures !IsRootInsertEmission(e) ==> e.UpdateRoot? && Members(e) == [e]
    ensures IsRootInsertEmission(e) ==>
      forall j :: 0 <= j < |Members(e)| ==>
        Members(e)[j].InsertRoot? && Members(e)[j].idValueSource == RootInsertSource(e)
  {
  }

  /** A root emission is determined by the actions it stands for. */
  lemma EmissionFromMembers(e1: DbAction, e2: DbAction)
    requires IsRootEmission(e1) && IsRootEmission(e2)
    requires Members(e1) == Members(e2)
    ensures e1 == e2
  {
  }

  lemma {:induction false} FlattenLength(r: seq<DbAction>)
    requires forall i :: 0 <= i < |r| ==> IsRootEmission(r[i])
    ensures |Flatten(r)| >= |r|
    decreases |r|
  {
    if r != [] {
      EmissionMembers(r[0]);
      FlattenLength(r[1..]);
    }
  }

  /** The action after a run of InsertRoots is not another InsertRoot of the same source. */
  lemma RunEnd(r: seq<DbAction>)
    requires r != [] && RootRuns(r) && IsRootInsertEmission(r[0])
    ensures var n := |Members(r[0])|; var f := Flatten(r);
      n <= |f| && (n == |f| || !(f[n].InsertRoot? && f[n].idValueSource == RootInsertSource(r[0])))
  {
    var f := Flatten(r);
    var n := |Members(r[0])|;
    assert f == Members(r[0]) + Flatten(r[1..]);
    if |r| > 1 {
      assert r[1..][0] == r[1];
      EmissionMembers(r[1]);
      assert Flatten(r[1..]) == Members(r[1]) + Flatten(r[2..]);
      assert f[n] == Members(r[1])[0];
    } else {
      assert Flatten(r[1..]) == [];
    }
  }

  /** The first emissions of two root-run sequences with one flattening stand for the same actions. */
  lemma SameFirstRun(r1: seq<DbAction>, r2: seq<DbAction>)
    requires r1 != [] && r2 != [] && RootRuns(r1) && RootRuns(r2)
    requires Flatten(r1) == Flatten(r2)
    ensures Members(r1[0]) == Members(r2[0])
  {
    var f := Flatten(r1);
    var m1, m2 := Members(r1[0]), Members(r2[0]);
    assert f == m1 + Flatten(r1[1..]);
    assert f == m2 + Flatten(r2[1..]);
    EmissionMembers(r1[0]);
    EmissionMembers(r2[0]);
    assert f[0] == m1[0] == m2[0];
    if IsRootInsertEmission(r1[0]) {
      var s := RootInsertSource(r1[0]);
      RunEnd(r1);
      RunEnd(r2);
      forall j | 0 <= j < |m1| ensures f[j].InsertRoot? && f[j].idValueSource == s {
        assert f[j] == m1[j];
      }
      forall j | 0 <= j < |m2| ensures f[j].InsertRoot? && f[j].idValueSource == s {
        assert f[j] == m2[j];
      }
      assert |m1| == |m2|;
      assert m1 == f[..|m1|] == m2;
    }
  }

  /** Uniqueness: root-run sequences with the same flattening are equal. */
  lemma {:induction false} RootRunsUnique(r1: seq<DbAction>, r2: seq<DbAction>)
    requires RootRuns(r1) && RootRuns(r2)
    requires Flatten(r1) == Flatten(r2)
    ensures r1 == r2
    decreases |r1|
  {
    FlattenLength(r1);
    FlattenLength(r2);
    if r1 != [] && r2 != [] {
      SameFirstRun(r1, r2);
      EmissionFromMembers(r1[0], r2[0]);
      var n := |Members(r1[0])|;
      assert Flatten(r1) == Members(r1[0]) + Flatten(r1[1..]);
      assert Flatten(r2) == Members(r2[0]) + Flatten(r2[1..]);
      assert Flatten(r1[1..]) == Flatten(r1)[n..] == Flatten(r2[1..]);
      RootRunsTail(r1);
      RootRunsTail(r2);
      RootRunsUnique(r1[1..], r2[1..]);
      assert r1 == [r1[0]] + r1[1..];
      assert r2 == [r2[0]] + r2[1..];
    }
  }
}
