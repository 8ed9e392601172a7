/** The sum of a map's values, and how one write changes it. */
module Sums {
  import opened Wrappers

  ghost function Sum<K>(m: map<K, int>): int
    decreases |m|
  {
    if m == map[] then 0
    else
      var k :| k in m;
      m[k] + Sum(m - {k})
  }

  /** The choice made by Sum does not matter: any key may be split off. */
  lemma {:induction false} SumSplit<K>(m: map<K, int>, k: K)
    requires k in m
    ensures Sum(m) == m[k] + Sum(m - {k})
    decreases |m|
  {
    var j :| j in m && Sum(m) == m[j] + Sum(m - {j});
    if j != k {
      SumSplit(m - {j}, k);
      SumSplit(m - {k}, j);
      assert m - {j} - {k} == m - {k} - {j};
    }
  }

  lemma SumWrite<K>(m: map<K, int>, k: K, v: int)
    ensures Sum(m[k := v]) == Sum(m) - GetOrZero(m, k) + v
  {
    SumSplit(m[k := v], k);
    if k in m {
      SumSplit(m, k);
      assert m[k := v] - {k} == m - {k};
    } else {
      assert m[k := v] - {k} == m;
    }
  }

  lemma {:induction false} SumBoundsPart<K>(m: map<K, int>, part: set<K>)
    requires forall k :: k in m ==> m[k] >= 0
    requires part <= m.Keys
    ensures 0 <= Sum(map k | k in part :: m[k]) <= Sum(m)
    decreases |m|
  {
    if m == map[] {
      assert (map k | k in part :: m[k]) == map[];
    } else {
      var j :| j in m;
      var sub := map k | k in part :: m[k];
      SumSplit(m, j);
      SumBoundsPart(m - {j}, part - {j});
      var rest := map k | k in part - {j} :: (m - {j})[k];
      if j in part {
        SumSplit(sub, j);
        assert sub - {j} == rest;
      } else {
        assert sub == rest;
      }
    }
  }

  /** Two different holders together hold no more than everybody does. */
  lemma SumBoundsPair<K>(m: map<K, int>, a: K, b: K)
    requires forall k :: k in m ==> m[k] >= 0
    requires a != b
    ensures 0 <= GetOrZero(m, a) + GetOrZero(m, b) <= Sum(m)
  {
    var part := {a, b} * m.Keys;
    var sub := map k | k in part :: m[k];
    SumBoundsPart(m, part);
    if a in m {
      SumSplit(sub, a);
    }
    var left := sub - {a};
    if b in m {
      SumSplit(left, b);
      assert left - {b} == map[];
    } else {
      assert left == map[];
    }
  }
}
