/**
 * Totals of the durations held in a dictionary, and how a total moves when
 * one entry is increased the way `dict[key, default: 0] += d` increases it.
 */
module Sums {

  /** `m[k]`, or 0 when `k` is not a key: Swift's `dict[k, default: 0]`. */
  function Get<K>(m: map<K, nat>, k: K): (v: nat)
    ensures k in m ==> v == m[k]
    ensures k !in m ==> v == 0
  {
    if k in m then m[k] else 0
  }

  /** Some key of a non-empty map; fixing the choice lets proofs name it. */
  ghost function Pick<K>(m: map<K, nat>): (k: K)
    requires m != map[]
    ensures k in m
  {
    var k :| k in m; k
  }

  /** The sum of all values of `m`. */
  ghost function Sum<K>(m: map<K, nat>): nat
    decreases |m|
  {
    if m == map[] then 0
    else
      var k := Pick(m);
      assert |(m - {k}).Keys| < |m.Keys| by {
        assert (m - {k}).Keys == m.Keys - {k};
      }
      m[k] + Sum(m - {k})
  }

  /** Any key may be taken out first: the total does not depend on the order. */
  lemma {:induction false} SumRemove<K>(m: map<K, nat>, k: K)
    requires k in m
    ensures Sum(m) == m[k] + Sum(m - {k})
    decreases |m|
  {
    var j := Pick(m);
    if j != k {
      assert |(m - {j}).Keys| < |m.Keys| by {
        assert (m - {j}).Keys == m.Keys - {j};
      }
      assert |(m - {k}).Keys| < |m.Keys| by {
        assert (m - {k}).Keys == m.Keys - {k};
      }
      SumRemove(m - {j}, k);
      SumRemove(m - {k}, j);
      assert m - {j} - {k} == m - {k} - {j};
    }
  }

  /** `m[k, default: 0] += d` raises the total by exactly `d`. */
  lemma SumAdd<K>(m: map<K, nat>, k: K, d: nat)
    ensures Sum(m[k := Get(m, k) + d]) == Sum(m) + d
  {
    var m' := m[k := Get(m, k) + d];
    SumRemove(m', k);
    if k in m {
      SumRemove(m, k);
      assert m' - {k} == m - {k};
    } else {
      assert m' - {k} == m;
    }
  }
}
