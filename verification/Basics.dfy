/**
 What several modules share: options, bytes, maps and the lists they are written as, and sizes of sets.
 */
module Basics {

  datatype Option<+T> = None | Some(value: T)

  type Byte = b: int | 0 <= b < 256

  predicate Distinct<T(==)>(s: seq<T>) {
    forall i, j :: 0 <= i < j < |s| ==> s[i] != s[j]
  }

  lemma SubsetSize<T>(a: set<T>, b: set<T>)
    requires a <= b
    ensures |a| <= |b| && (|a| == |b| ==> a == b)
  {
    assert b == a + (b - a);
  }

  lemma Overwrite<K, V>(m: map<K, V>, k: K, v: V)
    ensures (m - {k})[k := v] == m[k := v]
  {
  }

  // ---- Maps and lists ----

  /** A map built from a list of entries; a later entry wins. */
  function MapOf<K, V>(es: seq<(K, V)>): map<K, V>
    decreases |es|
  {
    if es == [] then map[] else MapOf(es[..|es| - 1])[es[|es| - 1].0 := es[|es| - 1].1]
  }

  ghost predicate Lists<K(!new), V>(es: seq<(K, V)>, m: map<K, V>) {
    && (forall i :: 0 <= i < |es| ==> es[i].0 in m && m[es[i].0] == es[i].1)
    && (forall k :: k in m ==> (k, m[k]) in es)
  }

  /** A list of a map's values, without their keys. */
  ghost predicate Values<K(!new), V>(vs: seq<V>, m: map<K, V>) {
    && (forall i :: 0 <= i < |vs| ==> vs[i] in m.Values)
    && (forall k :: k in m ==> m[k] in vs)
  }

  lemma {:induction false} MapOfSound<K, V>(es: seq<(K, V)>, m: map<K, V>)
    requires forall i :: 0 <= i < |es| ==> es[i].0 in m && m[es[i].0] == es[i].1
    ensures forall k :: k in MapOf(es) ==> k in m && MapOf(es)[k] == m[k]
    ensures forall i :: 0 <= i < |es| ==> es[i].0 in MapOf(es)
    decreases |es|
  {
    if es != [] {
      MapOfSound(es[..|es| - 1], m);
    }
  }

  lemma MapOfLists<K(!new), V>(es: seq<(K, V)>, m: map<K, V>)
    requires Lists(es, m)
    ensures MapOf(es) == m
  {
    MapOfSound(es, m);
    forall k | k in m ensures k in MapOf(es) {
      assert (k, m[k]) in es;
    }
  }

  /** The entries of a map, one by one. */
  method EntriesOf<K(!new), V>(m: map<K, V>) returns (es: seq<(K, V)>)
    ensures Lists(es, m) && |es| == |m|
  {
    es := [];
    var todo := m.Keys;
    while todo != {}
      invariant todo <= m.Keys && |es| + |todo| == |m|
      invariant forall i :: 0 <= i < |es| ==> es[i].0 in m && m[es[i].0] == es[i].1
      invariant forall k :: k in m && k !in todo ==> (k, m[k]) in es
      decreases todo
    {
      var k :| k in todo;
      ghost var before := es;
      es := es + [(k, m[k])];
      assert es[|before|] == (k, m[k]);
      assert forall e :: e in before ==> e in es;
      todo := todo - {k};
    }
  }

  method ValuesOf<K(!new), V>(m: map<K, V>) returns (vs: seq<V>)
    ensures Values(vs, m) && |vs| == |m|
  {
    var es := EntriesOf(m);
    vs := [];
    while |vs| < |es|
      invariant |vs| <= |es| && forall i :: 0 <= i < |vs| ==> vs[i] == es[i].1
    {
      vs := vs + [es[|vs|].1];
    }
    forall k | k in m ensures m[k] in vs {
      var i :| 0 <= i < |es| && es[i] == (k, m[k]);
      assert vs[i] == m[k];
    }
  }
}
