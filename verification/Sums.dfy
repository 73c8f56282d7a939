/** The total of the values of a finite map. */
module Sums {

  function Get<K(==)>(m: map<K, int>, k: K): int {
    if k in m then m[k] else 0
  }

  ghost function Total<K>(m: map<K, int>): int
    decreases |m.Keys|
  {
    if m == map[] then
      0
    else
      var k :| k in m;
      assert (m - {k}).Keys == m.Keys - {k};
      m[k] + Total(m - {k})
  }

  /** The total does not depend on the order in which the keys are taken. */
  lemma {:induction false} TotalRemove<K>(m: map<K, int>, k: K)
    requires k in m
    ensures Total(m) == m[k] + Total(m - {k})
    decreases |m.Keys|
  {
    var j :| j in m && Total(m) == m[j] + Total(m - {j});
    if j != k {
      assert (m - {j}).Keys == m.Keys - {j};
      assert (m - {k}).Keys == m.Keys - {k};
      TotalRemove(m - {j}, k);
      TotalRemove(m - {k}, j);
      assert m - {j} - {k} == m - {k} - {j};
    }
  }

  lemma TotalPut<K>(m: map<K, int>, k: K, v: int)
    ensures Total(m[k := v]) == Total(m) - Get(m, k) + v
  {
    TotalRemove(m[k := v], k);
    assert m[k := v] - {k} == m - {k};
    if k in m {
      TotalRemove(m, k);
    } else {
      assert m - {k} == m;
    }
  }

  lemma {:induction false} TotalBounds<K>(m: map<K, int>, k: K)
    requires forall j | j in m :: 0 <= m[j]
    ensures 0 <= Get(m, k) <= Total(m)
    decreases |m.Keys|
  {
    if m != map[] {
      var j := if k in m then k else var i :| i in m; i;
      assert (m - {j}).Keys == m.Keys - {j};
      TotalRemove(m, j);
      TotalBounds(m - {j}, k);
    }
  }

  /** Maps whose entries correspond one-to-one have the same total. */
  lemma {:induction false} TotalMatched<J, K>(m: map<J, int>, n: map<K, int>, f: map<J, K>)
    requires f.Keys == m.Keys
    requires forall i, j | i in f && j in f && f[i] == f[j] :: i == j
    requires forall j | j in f :: f[j] in n && n[f[j]] == m[j]
    requires forall k | k in n :: exists j :: j in f && f[j] == k
    ensures Total(m) == Total(n)
    decreases |m.Keys|
  {
    if m == map[] {
      assert n == map[];
    } else {
      var j :| j in m;
      TotalRemove(m, j);
      TotalRemove(n, f[j]);
      assert (m - {j}).Keys == m.Keys - {j};
      var g := f - {j};
      forall k | k in n - {f[j]} ensures exists i :: i in g && g[i] == k {
        var i :| i in f && f[i] == k;
        assert i in g && g[i] == k;
      }
      TotalMatched(m - {j}, n - {f[j]}, g);
    }
  }
}
