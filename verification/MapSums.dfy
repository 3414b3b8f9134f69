/** Sums over finite maps, independent of the order in which the entries are visited. */
module MapSums {

  ghost function Sum<K(!new)>(m: map<K, int>): int {
    if m == map[] then 0
    else
      var k :| k in m;
      m[k] + Sum(m - {k})
  }

  /** Any entry can be taken out first: the sum does not depend on the choice made in Sum. */
  lemma {:induction false} SumSplit<K(!new)>(m: map<K, int>, k: K)
    requires k in m
    ensures Sum(m) == m[k] + Sum(m - {k})
    decreases |m|
  {
    var first :| first in m && Sum(m) == m[first] + Sum(m - {first});
    if first != k {
      SumSplit(m - {first}, k);
      SumSplit(m - {k}, first);
      assert m - {first} - {k} == m - {k} - {first};
    }
  }

  lemma SumInsert<K(!new)>(m: map<K, int>, k: K, v: int)
    requires k !in m
    ensures Sum(m[k := v]) == Sum(m) + v
  {
    SumSplit(m[k := v], k);
    assert m[k := v] - {k} == m;
  }

  lemma SumUpdate<K(!new)>(m: map<K, int>, k: K, v: int)
    requires k in m
    ensures Sum(m[k := v]) == Sum(m) - m[k] + v
  {
    SumSplit(m, k);
    SumSplit(m[k := v], k);
    assert m[k := v] - {k} == m - {k};
  }

  lemma {:induction false} SumNonNegative<K(!new)>(m: map<K, int>)
    requires forall k :: k in m ==> 0 <= m[k]
    ensures 0 <= Sum(m)
    ensures Sum(m) == 0 <==> forall k :: k in m ==> m[k] == 0
    decreases |m|
  {
    if m != map[] {
      var k :| k in m && Sum(m) == m[k] + Sum(m - {k});
      SumNonNegative(m - {k});
      assert forall j :: j in m ==> j == k || j in m - {k};
    }
  }

  /** The entries of one map are those of another under other names. */
  ghost predicate Renames<K(!new), L(!new)>(m: map<K, int>, n: map<L, int>, name: map<K, L>) {
    && name.Keys == m.Keys && (forall k :: k in m ==> name[k] in n && n[name[k]] == m[k])
    && (forall k, k' :: k in m && k' in m && name[k] == name[k'] ==> k == k')
    && (forall l :: l in n ==> exists k :: k in m && name[k] == l)
  }

  lemma RenamesWithout<K(!new), L(!new)>(m: map<K, int>, n: map<L, int>, name: map<K, L>, k: K)
    requires Renames(m, n, name) && k in m
    ensures Renames(m - {k}, n - {name[k]}, name - {k})
  {
    var m', n', name' := m - {k}, n - {name[k]}, name - {k};
    forall l | l in n'
      ensures exists j :: j in m' && name'[j] == l
    {
      var j :| j in m && name[j] == l;
      assert j in m' && name'[j] == l;
    }
  }

  /** Sums over maps that differ only in the names of their keys. */
  lemma {:induction false} SumRenamed<K(!new), L(!new)>(m: map<K, int>, n: map<L, int>, name: map<K, L>)
    requires Renames(m, n, name)
    ensures Sum(m) == Sum(n)
    decreases |m|
  {
    if m == map[] {
      assert n == map[];
    } else {
      var k :| k in m;
      SumSplit(m, k);
      SumSplit(n, name[k]);
      RenamesWithout(m, n, name, k);
      SumRenamed(m - {k}, n - {name[k]}, name - {k});
    }
  }

  lemma {:induction false} SumOfPart<K(!new)>(m: map<K, int>, part: map<K, int>)
    requires forall k :: k in part ==> k in m && m[k] == part[k]
    requires forall k :: k in m ==> 0 <= m[k]
    ensures Sum(part) <= Sum(m)
    decreases |m|
  {
    if k :| k in m && k !in part {
      SumSplit(m, k);
      SumOfPart(m - {k}, part);
    } else {
      assert part == m;
    }
  }
}
