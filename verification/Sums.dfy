/** Finite sums: what SUM computes over the rows of a query, keyed by row. */
module Sums {

  /** The sum of m over the keys ks. */
  ghost function SumOn<K(!new)>(m: map<K, int>, ks: set<K>): int
    requires ks <= m.Keys
  {
    if ks == {} then 0 else
      var k :| k in ks;
      m[k] + SumOn(m, ks - {k})
  }

  ghost function Sum<K(!new)>(m: map<K, int>): int {
    SumOn(m, m.Keys)
  }

  /** The order in which the rows are picked does not matter. */
  lemma {:induction false} SumRemove<K(!new)>(m: map<K, int>, ks: set<K>, k: K)
    requires ks <= m.Keys && k in ks
    ensures SumOn(m, ks) == m[k] + SumOn(m, ks - {k})
    decreases |ks|
  {
    var j :| j in ks && SumOn(m, ks) == m[j] + SumOn(m, ks - {j});
    if j != k {
      SumRemove(m, ks - {j}, k);
      SumRemove(m, ks - {k}, j);
      assert ks - {j} - {k} == ks - {k} - {j};
    }
  }

  /** Only the summed rows matter. */
  lemma {:induction false} SumSame<K(!new)>(m: map<K, int>, m': map<K, int>, ks: set<K>)
    requires ks <= m.Keys && ks <= m'.Keys
    requires forall k :: k in ks ==> m[k] == m'[k]
    ensures SumOn(m, ks) == SumOn(m', ks)
    decreases |ks|
  {
    if ks != {} {
      var k :| k in ks;
      SumSame(m, m', ks - {k});
      SumRemove(m, ks, k);
      SumRemove(m', ks, k);
    }
  }

  lemma {:induction false} SumOnSplit<K(!new)>(m: map<K, int>, a: set<K>, b: set<K>)
    requires a !! b && a + b <= m.Keys
    ensures SumOn(m, a + b) == SumOn(m, a) + SumOn(m, b)
    decreases |b|
  {
    if b == {} {
      assert a + b == a;
    } else {
      var k :| k in b;
      SumOnSplit(m, a, b - {k});
      SumRemove(m, b, k);
      SumRemove(m, a + b, k);
      assert a + b - {k} == a + (b - {k});
    }
  }

  /** A sum over rows splits along any split of the rows. */
  lemma SumSplit<K(!new)>(m: map<K, int>, a: map<K, int>, b: map<K, int>)
    requires a.Keys !! b.Keys && m.Keys == a.Keys + b.Keys
    requires forall k :: k in a ==> m[k] == a[k]
    requires forall k :: k in b ==> m[k] == b[k]
    ensures Sum(m) == Sum(a) + Sum(b)
  {
    SumOnSplit(m, a.Keys, b.Keys);
    SumSame(m, a, a.Keys);
    SumSame(m, b, b.Keys);
  }

  lemma SumAdd<K(!new)>(m: map<K, int>, k: K, v: int)
    requires k !in m
    ensures Sum(m[k := v]) == Sum(m) + v
  {
    var n := m[k := v];
    SumRemove(n, n.Keys, k);
    assert n.Keys - {k} == m.Keys;
    SumSame(n, m, m.Keys);
  }

  lemma {:induction false} SumNonNegative<K(!new)>(m: map<K, int>, ks: set<K>)
    requires ks <= m.Keys && forall k :: k in ks ==> 0 <= m[k]
    ensures 0 <= SumOn(m, ks)
    decreases |ks|
  {
    if ks != {} {
      var k :| k in ks;
      SumNonNegative(m, ks - {k});
      SumRemove(m, ks, k);
    }
  }

  ghost predicate Injective<K(!new), L(!new)>(f: map<K, L>) {
    forall k, k' :: k in f && k' in f && f[k] == f[k'] ==> k == k'
  }

  ghost predicate Onto<K(!new), L(!new)>(f: map<K, L>, n: map<L, int>) {
    forall l :: l in n ==> exists k :: k in f && f[k] == l
  }

  /** f takes the rows of m one to one onto the rows of n, keeping the amounts. */
  ghost predicate Renames<K(!new), L(!new)>(m: map<K, int>, n: map<L, int>, f: map<K, L>) {
    && f.Keys == m.Keys
    && (forall k :: k in m ==> f[k] in n && n[f[k]] == m[k])
    && Injective(f) && Onto(f, n)
  }

  lemma {:induction false} SumRenamed<K(!new), L(!new)>(m: map<K, int>, n: map<L, int>, f: map<K, L>, ks: set<K>, ls: set<L>)
    requires Renames(m, n, f) && ks <= m.Keys && ls <= n.Keys
    requires forall k :: k in ks ==> f[k] in ls
    requires forall l :: l in ls ==> exists k :: k in ks && f[k] == l
    ensures SumOn(m, ks) == SumOn(n, ls)
    decreases |ks|
  {
    if ks == {} {
      assert ls == {};
    } else {
      var k :| k in ks;
      forall l | l in ls - {f[k]} ensures exists k' :: k' in ks - {k} && f[k'] == l {
        var k' :| k' in ks && f[k'] == l;
        assert k' in ks - {k};
      }
      SumRenamed(m, n, f, ks - {k}, ls - {f[k]});
      SumRemove(m, ks, k);
      SumRemove(n, ls, f[k]);
    }
  }

  lemma RenamedSums<K(!new), L(!new)>(m: map<K, int>, n: map<L, int>, f: map<K, L>)
    requires Renames(m, n, f)
    ensures Sum(m) == Sum(n)
  {
    SumRenamed(m, n, f, m.Keys, n.Keys);
  }
}
