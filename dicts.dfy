/**
 * Python's insertion-ordered `dict`, as a sequence of key/value pairs.
 * `Put` is `d.update({k: v})`: an existing key keeps its position and
 * takes the new value, a new key goes to the end.
 */
module Dicts {
  import opened Wrappers

  type Dict<K, V> = seq<(K, V)>

  function Keys<K, V>(d: Dict<K, V>): (ks: seq<K>)
    ensures |ks| == |d|
    ensures forall i :: 0 <= i < |d| ==> ks[i] == d[i].0
  {
    if d == [] then [] else Keys(d[..|d| - 1]) + [d[|d| - 1].0]
  }

  function Values<K, V>(d: Dict<K, V>): (vs: seq<V>)
    ensures |vs| == |d|
    ensures forall i :: 0 <= i < |d| ==> vs[i] == d[i].1
  {
    if d == [] then [] else Values(d[..|d| - 1]) + [d[|d| - 1].1]
  }

  /** No key occurs twice: what every Python dict satisfies. */
  predicate Distinct<K(==), V>(d: Dict<K, V>) {
    forall i, j :: 0 <= i < j < |d| ==> d[i].0 != d[j].0
  }

  /** The position of `k` in `d`, if `k` is a key of `d` (its first position). */
  function IndexOf<K(==), V>(d: Dict<K, V>, k: K): (r: Option<nat>)
    ensures r.Some? ==> r.value < |d| && d[r.value].0 == k
    ensures r.Some? ==> forall i :: 0 <= i < r.value ==> d[i].0 != k
    ensures r.None? <==> forall i :: 0 <= i < |d| ==> d[i].0 != k
  {
    if d == [] then None
    else if d[0].0 == k then Some(0)
    else match IndexOf(d[1..], k)
      case None => None
      case Some(i) => Some(i + 1)
  }

  predicate HasKey<K(==), V>(d: Dict<K, V>, k: K) {
    IndexOf(d, k).Some?
  }

  /** `d.get(k)`. */
  function Get<K(==), V>(d: Dict<K, V>, k: K): Option<V> {
    match IndexOf(d, k)
    case None => None
    case Some(i) => Some(d[i].1)
  }

  /** `d.update({k: v})`. */
  function Put<K(==), V>(d: Dict<K, V>, k: K, v: V): Dict<K, V> {
    match IndexOf(d, k)
    case None => d + [(k, v)]
    case Some(i) => d[i := (k, v)]
  }

  lemma PutGet<K, V>(d: Dict<K, V>, k: K, v: V, k': K)
    ensures Get(Put(d, k, v), k') == if k' == k then Some(v) else Get(d, k')
  {
    var d' := Put(d, k, v);
    var at := IndexOf(d, k);
    // the position `k` has in d'
    var p: nat := if at.Some? then at.value else |d|;
    assert p < |d'| && d'[p] == (k, v);
    assert forall j :: 0 <= j < |d'| && j != p ==> j < |d| && d'[j] == d[j];
    assert forall j :: 0 <= j < p ==> d'[j].0 != k;
    var r := IndexOf(d', k');
    if k' == k {
      assert r == Some(p);
    } else {
      match IndexOf(d, k')
      case None =>
        assert r.None?;
      case Some(j) =>
        assert d'[j] == d[j];
        assert r == Some(j);
    }
  }

  /** A new key is appended; an existing one keeps its place. */
  lemma PutKeys<K, V>(d: Dict<K, V>, k: K, v: V)
    ensures Keys(Put(d, k, v)) == if HasKey(d, k) then Keys(d) else Keys(d) + [k]
  {
  }

  lemma PutDistinct<K, V>(d: Dict<K, V>, k: K, v: V)
    requires Distinct(d)
    ensures Distinct(Put(d, k, v))
  {
  }

  /** Every value stored under a key of `d`, written `d[k]` in the source. */
  lemma GetAt<K, V>(d: Dict<K, V>, i: nat)
    requires Distinct(d) && i < |d|
    ensures Get(d, d[i].0) == Some(d[i].1)
  {
    match IndexOf(d, d[i].0)
    case Some(j) =>
      assert j == i;
  }

  /** Looking a key up in two dicts laid end to end finds it in the first that has it. */
  lemma GetConcat<K, V>(a: Dict<K, V>, b: Dict<K, V>, k: K)
    ensures HasKey(a + b, k) <==> HasKey(a, k) || HasKey(b, k)
    ensures Get(a + b, k) == if HasKey(a, k) then Get(a, k) else Get(b, k)
  {
    var ab := a + b;
    if HasKey(a, k) {
      var i := IndexOf(a, k).value;
      assert ab[i] == a[i];
    } else if HasKey(b, k) {
      var j := IndexOf(b, k).value;
      assert ab[|a| + j] == b[j];
      assert forall p :: 0 <= p < |a| ==> ab[p] == a[p];
    } else {
      assert forall p :: 0 <= p < |ab| ==> ab[p] == (if p < |a| then a[p] else b[p - |a|]);
    }
  }

  /** `update` with a key the dict lacks appends the pair. */
  lemma PutFresh<K, V>(d: Dict<K, V>, k: K, v: V)
    requires forall i :: 0 <= i < |d| ==> d[i].0 != k
    ensures Put(d, k, v) == d + [(k, v)]
  {
  }

  /** A dict of two entries with different keys. */
  lemma GetPair<K, V>(a: K, x: V, b: K, y: V, k: K)
    requires a != b
    ensures HasKey([(a, x), (b, y)], k) <==> k == a || k == b
    ensures Get([(a, x), (b, y)], k) == if k == a then Some(x) else if k == b then Some(y) else None
  {
    var d := [(a, x), (b, y)];
    assert d[1..] == [(b, y)];
    assert d[0].0 == a && d[1].0 == b;
  }

  /** Every key of `d` is one of `ks`. */
  predicate KeysIn<K(==), V>(d: Dict<K, V>, ks: seq<K>) {
    forall i :: 0 <= i < |d| ==> d[i].0 in ks
  }

  /** `update` with a key outside those of `d` appends the pair. */
  lemma PutNew<K, V>(d: Dict<K, V>, ks: seq<K>, k: K, v: V)
    requires KeysIn(d, ks) && k !in ks
    ensures Put(d, k, v) == d + [(k, v)]
    ensures KeysIn(d + [(k, v)], ks + [k])
  {
  }
}
