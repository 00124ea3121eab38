/** Per-key counters, as built by `d[k] = d.get(k, 0) + 1` and by
    `d[k]['count'] += 1` after a first `d[k] = {... 'count': 0 ...}`, and the
    sum of all the counts such a dictionary holds. */
module Tallies {

  /** One more occurrence of `k`; a key seen for the first time starts at 1. */
  function Bump<K>(m: map<K, nat>, k: K): map<K, nat> {
    m[k := (if k in m then m[k] else 0) + 1]
  }

  /** The sum of the counts held in `m`, over all its keys. */
  ghost function SumOver<K>(m: map<K, nat>): nat
    decreases |m|
  {
    if m == map[] then 0
    else
      var k :| k in m;
      assert |(m - {k}).Keys| == |m.Keys - {k}| == |m.Keys| - 1;
      m[k] + SumOver(m - {k})
  }

  /** The sum does not depend on which key is taken out first. */
  lemma {:induction false} SumOverRemove<K>(m: map<K, nat>, k: K)
    requires k in m
    ensures SumOver(m) == m[k] + SumOver(m - {k})
    decreases |m|
  {
    var j :| j in m && SumOver(m) == m[j] + SumOver(m - {j});
    if j != k {
      assert |(m - {j}).Keys| == |m.Keys - {j}| == |m.Keys| - 1;
      assert |(m - {k}).Keys| == |m.Keys - {k}| == |m.Keys| - 1;
      SumOverRemove(m - {j}, k);
      SumOverRemove(m - {k}, j);
      assert m - {j} - {k} == m - {k} - {j};
    }
  }

  /** Counting one more occurrence adds one to the sum of the counts. */
  lemma {:induction false} SumOverBump<K>(m: map<K, nat>, k: K)
    ensures SumOver(Bump(m, k)) == SumOver(m) + 1
  {
    var b := Bump(m, k);
    SumOverRemove(b, k);
    if k in m {
      SumOverRemove(m, k);
      assert b - {k} == m - {k};
    } else {
      assert b - {k} == m;
    }
  }
}
