/**
 * Insertion-ordered dictionaries, the way a Python `dict` behaves: iteration
 * follows first insertion, assigning to an existing key keeps its position,
 * assigning to a new key appends it, and `del` closes the gap.
 */
module OrderedMaps {
  import opened Common

  type OMap<K, V> = seq<(K, V)>

  /** The keys in iteration order. */
  function Keys<K, V>(m: OMap<K, V>): (ks: seq<K>)
    ensures |ks| == |m|
    ensures forall i :: 0 <= i < |m| ==> ks[i] == m[i].0
  {
    seq(|m|, i requires 0 <= i < |m| => m[i].0)
  }

  /** No key occurs twice: the representation invariant of a dictionary. */
  ghost predicate DistinctKeys<K, V>(m: OMap<K, V>) {
    forall i, j :: 0 <= i < j < |m| ==> m[i].0 != m[j].0
  }

  /** Position of the first occurrence of `k` (also Python's `list.index`). */
  function IndexOf<K(==)>(ks: seq<K>, k: K): (i: nat)
    requires k in ks
    ensures i < |ks| && ks[i] == k
    ensures forall j :: 0 <= j < i ==> ks[j] != k
  {
    if ks[0] == k then 0 else 1 + IndexOf(ks[1..], k)
  }

  /** The first-occurrence property determines the position. */
  lemma IndexOfUnique<K>(ks: seq<K>, k: K, i: nat)
    requires i < |ks| && ks[i] == k
    requires forall j :: 0 <= j < i ==> ks[j] != k
    ensures IndexOf(ks, k) == i
  {
  }

  /** `d.get(k)`. */
  function Get<K(==), V>(m: OMap<K, V>, k: K): (r: Option<V>)
    ensures r.Some? <==> k in Keys(m)
  {
    if k in Keys(m) then Some(m[IndexOf(Keys(m), k)].1) else None
  }

  lemma GetAt<K, V>(m: OMap<K, V>, i: nat)
    requires DistinctKeys(m) && i < |m|
    ensures Get(m, m[i].0) == Some(m[i].1)
  {
    var ks := Keys(m);
    assert ks[i] == m[i].0;
    IndexOfUnique(ks, m[i].0, i);
  }

  /** `d[k] = v`. */
  function Put<K(==,!new), V>(m: OMap<K, V>, k: K, v: V): (r: OMap<K, V>)
    ensures Keys(r) == if k in Keys(m) then Keys(m) else Keys(m) + [k]
    ensures k in Keys(m) ==> |r| == |m|
    ensures k !in Keys(m) ==> |r| == |m| + 1 && r[|m|] == (k, v)
    ensures forall i :: 0 <= i < |r| ==> r[i] == (k, v) || (i < |m| && r[i] == m[i])
    ensures DistinctKeys(m) ==> DistinctKeys(r)
    ensures forall k' :: Get(r, k') == if k' == k then Some(v) else Get(m, k')
  {
    if k in Keys(m) then
      var i := IndexOf(Keys(m), k);
      var r := m[i := (k, v)];
      assert Keys(r) == Keys(m);
      forall k' ensures Get(r, k') == if k' == k then Some(v) else Get(m, k') {
        if k' in Keys(m) && k' != k {
          assert IndexOf(Keys(m), k') != i;
        }
      }
      r
    else
      var r := m + [(k, v)];
      assert Keys(r) == Keys(m) + [k];
      forall k' ensures Get(r, k') == if k' == k then Some(v) else Get(m, k') {
        if k' == k {
          IndexOfUnique(Keys(r), k, |m|);
        } else if k' in Keys(m) {
          IndexOfUnique(Keys(r), k', IndexOf(Keys(m), k'));
        }
      }
      r
  }

  /** `del d[k]` where `k` is present; nothing happens otherwise. */
  function Remove<K(==,!new), V>(m: OMap<K, V>, k: K): (r: OMap<K, V>)
    ensures |r| == if k in Keys(m) then |m| - 1 else |m|
    ensures k !in Keys(m) ==> r == m
    ensures forall i :: 0 <= i < |r| ==> r[i] == m[i] || (i + 1 < |m| && r[i] == m[i + 1])
    ensures DistinctKeys(m) ==> DistinctKeys(r)
    ensures DistinctKeys(m) ==> forall k' :: Get(r, k') == if k' == k then None else Get(m, k')
  {
    if k in Keys(m) then
      var i := IndexOf(Keys(m), k);
      var r := m[..i] + m[i + 1..];
      assert forall j :: 0 <= j < |r| ==> r[j] == if j < i then m[j] else m[j + 1];
      RemoveGet(m, k, i, r);
      r
    else
      m
  }

  lemma RemoveGet<K, V>(m: OMap<K, V>, k: K, i: nat, r: OMap<K, V>)
    requires i < |m| && m[i].0 == k
    requires r == m[..i] + m[i + 1..]
    ensures DistinctKeys(m) ==> DistinctKeys(r)
    ensures DistinctKeys(m) ==> forall k' :: Get(r, k') == if k' == k then None else Get(m, k')
  {
    if !DistinctKeys(m) { return; }
    assert forall j :: 0 <= j < |r| ==> r[j] == if j < i then m[j] else m[j + 1];
    forall k' ensures Get(r, k') == if k' == k then None else Get(m, k') {
      if k' in Keys(m) && k' != k {
        var j := IndexOf(Keys(m), k');
        var j' := if j < i then j else j - 1;
        assert r[j'] == m[j];
        GetAt(r, j');
        GetAt(m, j);
      }
    }
  }

  /** Assigning twice to the same key is assigning the second value once. */
  lemma PutPut<K(!new), V>(m: OMap<K, V>, k: K, v1: V, v2: V)
    ensures Put(Put(m, k, v1), k, v2) == Put(m, k, v2)
  {
    if k !in Keys(m) {
      var m1 := Put(m, k, v1);
      IndexOfUnique(Keys(m1), k, |m|);
    }
  }
}
