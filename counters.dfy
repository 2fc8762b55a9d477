/** Python's `collections.Counter` (and a defaultdict of int) as a map from key to count;
    a key that is absent counts 0. */
module Counters {

  function Get<K(!new)>(c: map<K, int>, k: K): int {
    if k in c then c[k] else 0
  }

  /** `c[k] += n`. */
  function Add<K(!new)>(c: map<K, int>, k: K, n: int): (r: map<K, int>)
    ensures r.Keys == c.Keys + {k}
    ensures Get(r, k) == Get(c, k) + n
    ensures forall j :: j != k ==> Get(r, j) == Get(c, j)
  {
    c[k := Get(c, k) + n]
  }

  /** The sum of the counts of the keys in `keys`. */
  ghost function TotalOn<K(!new)>(c: map<K, int>, keys: set<K>): int
    requires keys <= c.Keys
    decreases keys
  {
    if keys == {} then 0
    else
      var k :| k in keys;
      c[k] + TotalOn(c, keys - {k})
  }

  /** `sum(c.values())`. */
  ghost function Total<K(!new)>(c: map<K, int>): int {
    TotalOn(c, c.Keys)
  }

  lemma {:induction false} TotalOnRemove<K(!new)>(c: map<K, int>, keys: set<K>, k: K)
    requires keys <= c.Keys && k in keys
    ensures TotalOn(c, keys) == c[k] + TotalOn(c, keys - {k})
    decreases keys
  {
    var j :| j in keys && TotalOn(c, keys) == c[j] + TotalOn(c, keys - {j});
    if j != k {
      TotalOnRemove(c, keys - {j}, k);
      TotalOnRemove(c, keys - {k}, j);
      assert keys - {j} - {k} == keys - {k} - {j};
    }
  }

  lemma {:induction false} TotalOnAgree<K(!new)>(c: map<K, int>, d: map<K, int>, keys: set<K>)
    requires keys <= c.Keys && keys <= d.Keys
    requires forall k :: k in keys ==> c[k] == d[k]
    ensures TotalOn(c, keys) == TotalOn(d, keys)
    decreases keys
  {
    if keys != {} {
      var k :| k in keys && TotalOn(c, keys) == c[k] + TotalOn(c, keys - {k});
      TotalOnRemove(d, keys, k);
      TotalOnAgree(c, d, keys - {k});
    }
  }

  lemma TotalAdd<K(!new)>(c: map<K, int>, k: K, n: int)
    ensures Total(Add(c, k, n)) == Total(c) + n
  {
    var r := Add(c, k, n);
    TotalOnRemove(r, r.Keys, k);
    TotalOnAgree(r, c, c.Keys - {k});
    assert r.Keys - {k} == c.Keys - {k};
    if k in c {
      TotalOnRemove(c, c.Keys, k);
    } else {
      assert c.Keys - {k} == c.Keys;
    }
  }

  lemma {:induction false} TotalOnZero<K(!new)>(c: map<K, int>, keys: set<K>)
    requires keys <= c.Keys && forall k :: k in keys ==> c[k] == 0
    ensures TotalOn(c, keys) == 0
    decreases keys
  {
    if keys != {} {
      var k :| k in keys && TotalOn(c, keys) == c[k] + TotalOn(c, keys - {k});
      TotalOnZero(c, keys - {k});
    }
  }

  /** A counter that counts the elements of a multiset sums to its size. */
  lemma {:induction false} TotalOfMultiset<K(!new)>(c: map<K, int>, m: multiset<K>)
    requires forall k :: Get(c, k) == m[k]
    ensures Total(c) == |m|
    decreases |m|
  {
    if |m| == 0 {
      forall k | k in c ensures c[k] == 0 {
        assert Get(c, k) == m[k];
      }
      TotalOnZero(c, c.Keys);
    } else {
      var k :| k in m;
      assert k in c by { assert Get(c, k) == m[k]; }
      var m' := m - multiset{k};
      var c' := c[k := c[k] - 1];
      forall j ensures Get(c', j) == m'[j] {
        assert Get(c, j) == m[j];
      }
      TotalOfMultiset(c', m');
      TotalAdd(c', k, 1);
      assert Add(c', k, 1) == c;
      assert |m| == |m'| + 1 by { assert m == m' + multiset{k}; }
    }
  }
}
