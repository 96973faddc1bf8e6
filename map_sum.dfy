/** The sum of the values of a finite map, used to state supply conservation. */
module MapSum {

  ghost function Sum<K>(m: map<K, int>): int
    decreases |m|, 1
  {
    if |m| == 0 then 0 else SumFrom(m)
  }

  /** The sum of a non-empty map: one key's value plus the sum of the rest. */
  ghost function SumFrom<K>(m: map<K, int>): int
    requires |m| > 0
    decreases |m|, 0
  {
    var k := Pick(m.Keys); m[k] + Sum(m - {k})
  }

  /** Some element of a non-empty set; which one is left open. */
  ghost function Pick<K>(s: set<K>): (k: K)
    requires s != {}
    ensures k in s
  {
    var k :| k in s; k
  }

  /** The value under a key, 0 when the key is absent. */
  function Get<K>(m: map<K, int>, k: K): int {
    if k in m then m[k] else 0
  }

  /** Any key can be taken out first, whichever one `Sum` picks. */
  lemma {:induction false} SumRemove<K>(m: map<K, int>, k: K)
    requires k in m
    ensures Sum(m) == m[k] + Sum(m - {k})
    decreases |m|
  {
    var j := Pick(m.Keys);
    assert Sum(m) == m[j] + Sum(m - {j});
    if j != k {
      assert |m - {j}| == |m| - 1;
      SumRemove(m - {j}, k);
      assert |m - {k}| == |m| - 1;
      SumRemove(m - {k}, j);
      assert m - {j} - {k} == m - {k} - {j};
    }
  }

  /** Overwriting one key changes the sum by the difference at that key. */
  lemma SumUpdate<K>(m: map<K, int>, k: K, v: int)
    ensures Sum(m[k := v]) == Sum(m) - Get(m, k) + v
  {
    var m' := m[k := v];
    SumRemove(m', k);
    assert m' - {k} == m - {k};
    if k in m {
      SumRemove(m, k);
    } else {
      assert m - {k} == m;
    }
  }

  /** Deleting one key removes its value from the sum. */
  lemma SumDelete<K>(m: map<K, int>, k: K)
    ensures Sum(m - {k}) == Sum(m) - Get(m, k)
  {
    if k in m {
      SumRemove(m, k);
    } else {
      assert m - {k} == m;
    }
  }

  /** Taking `x` off one key and adding it to another (possibly the same) keeps the sum. */
  lemma SumMove<K>(m: map<K, int>, a: K, b: K, x: int)
    ensures var m1 := m[a := Get(m, a) - x];
      Sum(m1[b := Get(m1, b) + x]) == Sum(m)
  {
    var m1 := m[a := Get(m, a) - x];
    SumUpdate(m, a, Get(m, a) - x);
    SumUpdate(m1, b, Get(m1, b) + x);
  }
}
