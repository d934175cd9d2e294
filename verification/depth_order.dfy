/**
  Ordering map entries by the length of their property-path key: the engine
  streams its delete map sorted deepest path first and its insert map sorted
  shallowest path first. The sort below is stable, but the engine sorts a
  stream over a hash map's entry set, which has no encounter order, so it
  promises nothing about two entries whose paths have equal length; nothing
  below depends on their relative order.
 */
module DepthOrder {
  import opened Actions
  import opened AssocList

  /** The path-length comparator, reversed when `deepestFirst`. */
  predicate InOrder(p: Path, q: Path, deepestFirst: bool) {
    if deepestFirst then |p| >= |q| else |p| <= |q|
  }

  predicate SortedByDepth<V>(m: seq<Entry<Path, V>>, deepestFirst: bool) {
    forall i, j :: 0 <= i < j < |m| ==> InOrder(m[i].key, m[j].key, deepestFirst)
  }

  /** Puts `e` in front of the first entry it may precede. */
  function InsertByDepth<V>(e: Entry<Path, V>, sorted: seq<Entry<Path, V>>, deepestFirst: bool)
    : seq<Entry<Path, V>>
  {
    if sorted == [] || InOrder(e.key, sorted[0].key, deepestFirst) then [e] + sorted
    else [sorted[0]] + InsertByDepth(e, sorted[1..], deepestFirst)
  }

  lemma ConsSorted<V>(x: Entry<Path, V>, m: seq<Entry<Path, V>>, deepestFirst: bool)
    requires SortedByDepth(m, deepestFirst)
    requires forall j :: 0 <= j < |m| ==> InOrder(x.key, m[j].key, deepestFirst)
    ensures SortedByDepth([x] + m, deepestFirst)
  {
    var r := [x] + m;
    forall i, j | 0 <= i < j < |r| ensures InOrder(r[i].key, r[j].key, deepestFirst) {
      assert r[j] == m[j - 1];
      if i > 0 {
        assert r[i] == m[i - 1];
      }
    }
  }

  /** Every key of the result follows `b` when `e`'s key and all of `sorted`'s do. */
  lemma {:induction false} InsertByDepthBound<V>(
    e: Entry<Path, V>, sorted: seq<Entry<Path, V>>, deepestFirst: bool, b: Path)
    requires InOrder(b, e.key, deepestFirst)
    requires forall j :: 0 <= j < |sorted| ==> InOrder(b, sorted[j].key, deepestFirst)
    ensures forall j :: 0 <= j < |InsertByDepth(e, sorted, deepestFirst)| ==>
              InOrder(b, InsertByDepth(e, sorted, deepestFirst)[j].key, deepestFirst)
    decreases |sorted|
  {
    if sorted == [] || InOrder(e.key, sorted[0].key, deepestFirst) {
      var r := [e] + sorted;
      forall j | 0 <= j < |r| ensures InOrder(b, r[j].key, deepestFirst) {
        if j > 0 {
          assert r[j] == sorted[j - 1];
        }
      }
    } else {
      InsertByDepthBound(e, sorted[1..], deepestFirst, b);
      var rest := InsertByDepth(e, sorted[1..], deepestFirst);
      var r := [sorted[0]] + rest;
      forall j | 0 <= j < |r| ensures InOrder(b, r[j].key, deepestFirst) {
        if j > 0 {
          assert r[j] == rest[j - 1];
        }
      }
    }
  }

  lemma {:induction false} InsertByDepthSorted<V>(e: Entry<Path, V>, sorted: seq<Entry<Path, V>>, deepestFirst: bool)
    requires SortedByDepth(sorted, deepestFirst)
    ensures SortedByDepth(InsertByDepth(e, sorted, deepestFirst), deepestFirst)
    decreases |sorted|
  {
    if sorted == [] || InOrder(e.key, sorted[0].key, deepestFirst) {
      ConsSorted(e, sorted, deepestFirst);
    } else {
      var rest := InsertByDepth(e, sorted[1..], deepestFirst);
      InsertByDepthSorted(e, sorted[1..], deepestFirst);
      assert InOrder(sorted[0].key, e.key, deepestFirst);
      assert forall j :: 0 <= j < |sorted[1..]| ==> sorted[1..][j] == sorted[j + 1];
      InsertByDepthBound(e, sorted[1..], deepestFirst, sorted[0].key);
      ConsSorted(sorted[0], rest, deepestFirst);
    }
  }

  lemma {:induction false} InsertByDepthPermutes<V>(e: Entry<Path, V>, sorted: seq<Entry<Path, V>>, deepestFirst: bool)
    ensures multiset(InsertByDepth(e, sorted, deepestFirst)) == multiset{e} + multiset(sorted)
    decreases |sorted|
  {
    if sorted == [] || InOrder(e.key, sorted[0].key, deepestFirst) {
    } else {
      InsertByDepthPermutes(e, sorted[1..], deepestFirst);
      assert sorted == [sorted[0]] + sorted[1..];
    }
  }

  /** Inserting moves `e` only past entries whose paths have another length, hence another key. */
  lemma {:induction false} InsertByDepthKeepsValues<V>(
    e: Entry<Path, V>, sorted: seq<Entry<Path, V>>, deepestFirst: bool, k: Path)
    ensures ValuesAt(InsertByDepth(e, sorted, deepestFirst), k) == ValuesAt([e] + sorted, k)
    decreases |sorted|
  {
    if sorted == [] || InOrder(e.key, sorted[0].key, deepestFirst) {
    } else {
      var rest := InsertByDepth(e, sorted[1..], deepestFirst);
      InsertByDepthKeepsValues(e, sorted[1..], deepestFirst, k);
      assert sorted == [sorted[0]] + sorted[1..];
      ValuesAtCons(sorted[0], rest, k);
      ValuesAtCons(e, sorted[1..], k);
      ValuesAtCons(e, sorted, k);
      ValuesAtCons(sorted[0], sorted[1..], k);
      assert sorted[0].key != e.key;
    }
  }

  /** A stable sort of the entries by path length. */
  function SortByDepth<V>(m: seq<Entry<Path, V>>, deepestFirst: bool): (r: seq<Entry<Path, V>>)
    ensures SortedByDepth(r, deepestFirst)
    ensures multiset(r) == multiset(m)
  {
    if m == [] then []
    else
      var rest := SortByDepth(m[1..], deepestFirst);
      InsertByDepthSorted(m[0], rest, deepestFirst);
      InsertByDepthPermutes(m[0], rest, deepestFirst);
      assert m == [m[0]] + m[1..];
      InsertByDepth(m[0], rest, deepestFirst)
  }

  /** Sorting keeps, for every path, the values stored under it (in their order). */
  lemma {:induction false} SortByDepthKeepsValues<V>(m: seq<Entry<Path, V>>, deepestFirst: bool, k: Path)
    ensures ValuesAt(SortByDepth(m, deepestFirst), k) == ValuesAt(m, k)
    decreases |m|
  {
    if m != [] {
      var rest := SortByDepth(m[1..], deepestFirst);
      SortByDepthKeepsValues(m[1..], deepestFirst, k);
      InsertByDepthKeepsValues(m[0], rest, deepestFirst, k);
      ValuesAtCons(m[0], rest, k);
      ValuesAtCons(m[0], m[1..], k);
      assert m == [m[0]] + m[1..];
    }
  }
}
