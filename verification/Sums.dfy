/** Sums over finite maps and multisets. */
module Sums {
  ghost function MapSum<K>(m: map<K, int>): int
    decreases |m|
  {
    if m == map[] then 0
    else
      var k :| k in m;
      m[k] + MapSum(m - {k})
  }

  /** The sum does not depend on the key that is taken out first. */
  lemma {:induction false} MapSumTake<K>(m: map<K, int>, k: K)
    requires k in m
    ensures MapSum(m) == m[k] + MapSum(m - {k})
    decreases |m|
  {
    var j :| j in m && MapSum(m) == m[j] + MapSum(m - {j});
    if j != k {
      MapSumTake(m - {j}, k);
      MapSumTake(m - {k}, j);
      assert m - {j} - {k} == m - {k} - {j};
    }
  }

  lemma MapSumPut<K>(m: map<K, int>, k: K, v: int)
    ensures MapSum(m[k := v]) == MapSum(m) + v - (if k in m then m[k] else 0)
  {
    MapSumTake(m[k := v], k);
    if k in m {
      MapSumTake(m, k);
      assert m[k := v] - {k} == m - {k};
    } else {
      assert m[k := v] - {k} == m;
    }
  }

  /** Pointwise larger maps over more keys have larger sums. */
  lemma {:induction false} MapSumGrows<K>(m: map<K, int>, n: map<K, int>)
    requires forall k | k in m :: k in n && m[k] <= n[k]
    requires forall k | k in n :: 0 <= n[k]
    ensures MapSum(m) <= MapSum(n)
    decreases |n|
  {
    if n == map[] {
      assert m == map[];
    } else {
      var k :| k in n;
      MapSumTake(n, k);
      if k in m {
        MapSumTake(m, k);
        MapSumGrows(m - {k}, n - {k});
      } else {
        MapSumGrows(m, n - {k});
      }
    }
  }

  ghost function BagSum(m: multiset<nat>): nat
    decreases |m|
  {
    if m == multiset{} then 0
    else
      var n :| n in m;
      n + BagSum(m - multiset{n})
  }

  lemma {:induction false} BagSumTake(m: multiset<nat>, n: nat)
    requires n in m
    ensures BagSum(m) == n + BagSum(m - multiset{n})
    decreases |m|
  {
    var k :| k in m && BagSum(m) == k + BagSum(m - multiset{k});
    if k != n {
      BagSumTake(m - multiset{k}, n);
      BagSumTake(m - multiset{n}, k);
      assert m - multiset{k} - multiset{n} == m - multiset{n} - multiset{k};
    }
  }

  lemma BagSumPut(m: multiset<nat>, n: nat)
    ensures BagSum(m + multiset{n}) == BagSum(m) + n
  {
    BagSumTake(m + multiset{n}, n);
    assert m + multiset{n} - multiset{n} == m;
  }
}
