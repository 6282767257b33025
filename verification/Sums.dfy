/** Totals over the values of a map, whatever order its keys are visited in. */
module Sums {
  ghost function Sum<K(!new)>(m: map<K, nat>): nat
    decreases |m|
  {
    if m == map[] then 0
    else
      var k :| k in m;
      m[k] + Sum(m - {k})
  }

  lemma {:induction false} SumByAny<K(!new)>(m: map<K, nat>, k: K)
    requires k in m
    ensures Sum(m) == m[k] + Sum(m - {k})
    decreases |m|
  {
    var first :| first in m && Sum(m) == m[first] + Sum(m - {first});
    if first != k {
      SumByAny(m - {first}, k);
      SumByAny(m - {k}, first);
      assert m - {first} - {k} == m - {k} - {first};
    }
  }

  /** Each of `keys` paired with each member of its set. */
  ghost function PairsIn<K(!new), C(!new)>(lists: map<K, set<C>>, keys: set<K>): set<(K, C)> {
    set k, c | k in keys && k in lists && c in lists[k] :: (k, c)
  }

  ghost function Paired<K(!new), C(!new)>(k: K, members: set<C>): set<(K, C)> {
    set c | c in members :: (k, c)
  }

  lemma {:induction false} PairedCount<K(!new), C(!new)>(k: K, members: set<C>)
    ensures |Paired(k, members)| == |members|
    decreases members
  {
    if members == {} {
      assert Paired(k, members) == {};
    } else {
      var c :| c in members;
      PairedCount(k, members - {c});
      assert Paired(k, members) == Paired(k, members - {c}) + {(k, c)};
    }
  }

  lemma PairsInGrow<K(!new), C(!new)>(lists: map<K, set<C>>, keys: set<K>, k: K)
    requires k in lists && k !in keys
    ensures |PairsIn(lists, keys + {k})| == |PairsIn(lists, keys)| + |lists[k]|
  {
    PairedCount(k, lists[k]);
    assert PairsIn(lists, keys + {k}) == PairsIn(lists, keys) + Paired(k, lists[k]);
    assert PairsIn(lists, keys) !! Paired(k, lists[k]);
  }

  /** All pairs, added up list by list. */
  lemma {:induction false} SumOfLists<K(!new), C(!new)>(lists: map<K, set<C>>, keys: set<K>)
    requires keys <= lists.Keys
    ensures |PairsIn(lists, keys)| == Sum(map k | k in keys :: |lists[k]|)
    decreases keys
  {
    var sizes := map k | k in keys :: |lists[k]|;
    if keys == {} {
      assert PairsIn(lists, keys) == {} && sizes == map[];
    } else {
      var k :| k in keys;
      SumOfLists(lists, keys - {k});
      PairsInGrow(lists, keys - {k}, k);
      SumByAny(sizes, k);
      assert keys - {k} + {k} == keys;
      assert sizes - {k} == map j | j in keys - {k} :: |lists[j]|;
    }
  }

  lemma {:induction false} SubsetSize<T(!new)>(a: set<T>, b: set<T>)
    requires a <= b
    ensures |a| <= |b|
  {
    assert b == a + (b - a);
  }
}
