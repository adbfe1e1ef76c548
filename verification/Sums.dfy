/** Sums over sequences, and over the values of a map in any order. */
module Sums {

  function Sum(s: seq<int>): int {
    if s == [] then 0 else Sum(s[..|s| - 1]) + s[|s| - 1]
  }

  ghost function SumOf<K, V>(m: map<K, V>, f: V -> nat): nat {
    if m == map[] then 0 else
      var k :| k in m;
      f(m[k]) + SumOf(m - {k}, f)
  }

  /** Any key may be summed first. */
  lemma {:induction false} SumRemove<K, V>(m: map<K, V>, f: V -> nat, k: K)
    requires k in m
    ensures SumOf(m, f) == f(m[k]) + SumOf(m - {k}, f)
    decreases |m|
  {
    var j :| j in m && SumOf(m, f) == f(m[j]) + SumOf(m - {j}, f);
    if j != k {
      SumRemove(m - {j}, f, k);
      SumRemove(m - {k}, f, j);
      assert m - {j} - {k} == m - {k} - {j};
    }
  }

  lemma SumInsert<K, V>(m: map<K, V>, f: V -> nat, k: K, v: V)
    requires k !in m
    ensures SumOf(m[k := v], f) == SumOf(m, f) + f(v)
  {
    SumRemove(m[k := v], f, k);
    assert m[k := v] - {k} == m;
  }

  lemma {:induction false} SumCongruence<K, V>(m: map<K, V>, m': map<K, V>, f: V -> nat, g: V -> nat)
    requires m.Keys == m'.Keys && forall k :: k in m ==> f(m[k]) == g(m'[k])
    ensures SumOf(m, f) == SumOf(m', g)
    decreases |m|
  {
    if m == map[] {
      assert m' == map[];
    } else {
      var k :| k in m;
      SumRemove(m, f, k);
      SumRemove(m', g, k);
      SumCongruence(m - {k}, m' - {k}, f, g);
    }
  }

  lemma {:induction false} SumAdds<K, V>(m: map<K, V>, f: V -> nat, g: V -> nat, h: V -> nat)
    requires forall k :: k in m ==> h(m[k]) == f(m[k]) + g(m[k])
    ensures SumOf(m, h) == SumOf(m, f) + SumOf(m, g)
    decreases |m|
  {
    if m == map[] {
    } else {
      var k :| k in m;
      SumRemove(m, f, k);
      SumRemove(m, g, k);
      SumRemove(m, h, k);
      SumAdds(m - {k}, f, g, h);
    }
  }

  /** `s` lists the values of `m`, each key once. */
  ghost predicate Lists<K, V>(s: seq<V>, keys: seq<K>, m: map<K, V>) {
    && |s| == |keys|
    && (forall i, j :: 0 <= i < j < |keys| ==> keys[i] != keys[j])
    && (forall i :: 0 <= i < |keys| ==> keys[i] in m && m[keys[i]] == s[i])
    && (forall k :: k in m ==> k in keys)
  }

  function SumSeq<V>(s: seq<V>, f: V -> nat): nat {
    if s == [] then 0 else SumSeq(s[..|s| - 1], f) + f(s[|s| - 1])
  }

  lemma {:induction false} SumListed<K, V>(s: seq<V>, keys: seq<K>, m: map<K, V>, f: V -> nat)
    requires Lists(s, keys, m)
    ensures SumSeq(s, f) == SumOf(m, f)
  {
    if s == [] {
      assert forall k :: k in m ==> k in keys;
      assert m == map[];
    } else {
      var k := keys[|s| - 1];
      var m' := m - {k};
      forall k' | k' in m' ensures k' in keys[..|s| - 1] {
        var i :| 0 <= i < |keys| && keys[i] == k';
      }
      SumListed(s[..|s| - 1], keys[..|s| - 1], m', f);
      SumRemove(m, f, k);
    }
  }
}
