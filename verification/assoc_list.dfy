/**
  Association lists: the engine's hash maps, kept as a sequence of entries in
  the order their keys were first seen. `AppendAt` is the `merge` the engine
  performs on a map of lists: append to the list under a key, creating the
  entry on first use.
 */
module AssocList {

  datatype Entry<K, V> = Entry(key: K, value: V)

  /** The values stored under `k`, in list order; at most one when keys are unique. */
  function ValuesAt<K(==, !new), V>(m: seq<Entry<K, V>>, k: K): (vs: seq<V>)
    ensures |vs| <= |m|
  {
    if m == [] then []
    else (if m[0].key == k then [m[0].value] else []) + ValuesAt(m[1..], k)
  }

  lemma ValuesAtCons<K(!new), V>(e: Entry<K, V>, m: seq<Entry<K, V>>, k: K)
    ensures ValuesAt([e] + m, k) == (if e.key == k then [e.value] else []) + ValuesAt(m, k)
  {
    assert ([e] + m)[1..] == m;
  }

  ghost predicate UniqueKeys<K(!new), V>(m: seq<Entry<K, V>>) {
    forall k :: |ValuesAt(m, k)| <= 1
  }

  /** The list stored under `k`, or the empty list when `k` is absent (a map lookup). */
  function Get<K(==, !new), T>(m: seq<Entry<K, seq<T>>>, k: K): (l: seq<T>)
    ensures ValuesAt(m, k) == [] ==> l == []
    ensures ValuesAt(m, k) != [] ==> l == ValuesAt(m, k)[0]
  {
    if m == [] then []
    else if m[0].key == k then m[0].value
    else Get(m[1..], k)
  }

  /** The values of all entries, concatenated in entry order. */
  function ConcatValues<K, T>(m: seq<Entry<K, seq<T>>>): seq<T> {
    if m == [] then [] else m[0].value + ConcatValues(m[1..])
  }

  /**
    Appends `x` to the list under `k`; a key seen for the first time gets the
    new entry `k -> [x]` at the end. No other list changes and no key moves.
   */
  function AppendAt<K(==, !new), T>(m: seq<Entry<K, seq<T>>>, k: K, x: T): (r: seq<Entry<K, seq<T>>>)
    ensures |r| == |m| + (if ValuesAt(m, k) == [] then 1 else 0)
    ensures forall i :: 0 <= i < |m| ==>
              && r[i].key == m[i].key
              && (r[i].value == m[i].value || (m[i].key == k && r[i].value == m[i].value + [x]))
    ensures |r| > |m| ==> r[|m|] == Entry(k, [x])
    ensures Get(r, k) == Get(m, k) + [x]
    ensures forall k' :: k' != k ==> ValuesAt(r, k') == ValuesAt(m, k')
    ensures |ValuesAt(r, k)| == if ValuesAt(m, k) == [] then 1 else |ValuesAt(m, k)|
  {
    if m == [] then [Entry(k, [x])]
    else if m[0].key == k then [Entry(k, m[0].value + [x])] + m[1..]
    else [m[0]] + AppendAt(m[1..], k, x)
  }

  lemma AppendAtKeepsUniqueKeys<K(!new), T>(m: seq<Entry<K, seq<T>>>, k: K, x: T)
    requires UniqueKeys(m)
    ensures UniqueKeys(AppendAt(m, k, x))
  {
    var r := AppendAt(m, k, x);
    forall k' ensures |ValuesAt(r, k')| <= 1 {
      if k' != k {
        assert ValuesAt(r, k') == ValuesAt(m, k');
      }
    }
  }

  lemma AppendAtKeepsOtherLists<K(!new), T>(m: seq<Entry<K, seq<T>>>, k: K, x: T, k': K)
    requires k' != k
    ensures Get(AppendAt(m, k, x), k') == Get(m, k')
  {
    assert ValuesAt(AppendAt(m, k, x), k') == ValuesAt(m, k');
  }

  /** With unique keys, the entries other than `k` contribute nothing under `k`. */
  lemma {:induction false} UniqueKeysTail<K(!new), V>(m: seq<Entry<K, V>>)
    requires m != [] && UniqueKeys(m)
    ensures UniqueKeys(m[1..])
    ensures ValuesAt(m[1..], m[0].key) == []
  {
    assert |ValuesAt(m, m[0].key)| == 1 + |ValuesAt(m[1..], m[0].key)|;
    forall k ensures |ValuesAt(m[1..], k)| <= 1 {
      assert |ValuesAt(m[1..], k)| <= |ValuesAt(m, k)|;
    }
  }
}
