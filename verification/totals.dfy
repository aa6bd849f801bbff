/**
 * The sum of the quantities in an inventory mapping (Python's
 * `sum(items.values())`) and the facts about it that the container proofs use.
 */
module Totals {

  /** Sum of all values of `m`. A map has no order, so the summand is picked by choice. */
  ghost function Total(m: map<string, int>): int
    decreases |m|
  {
    if m == map[] then 0
    else
      var k :| k in m;
      m[k] + Total(m - {k})
  }

  /** Whichever key is taken out first, the sum is the same. */
  lemma {:induction false} TotalRemove(m: map<string, int>, k: string)
    requires k in m
    ensures Total(m) == m[k] + Total(m - {k})
    decreases |m|
  {
    var j :| j in m && Total(m) == m[j] + Total(m - {j});
    if j != k {
      assert m - {j} - {k} == m - {k} - {j};
      TotalRemove(m - {j}, k);
      TotalRemove(m - {k}, j);
    }
  }

  /** Setting one key to `v` replaces that key's share of the sum by `v`. */
  lemma TotalUpdate(m: map<string, int>, k: string, v: int)
    ensures Total(m[k := v]) == Total(m - {k}) + v
  {
    TotalRemove(m[k := v], k);
    assert m[k := v] - {k} == m - {k};
  }

  /** When every value is positive, the sum is at least the number of keys. */
  lemma {:induction false} TotalAtLeastSize(m: map<string, int>)
    ensures (forall k :: k in m ==> m[k] > 0) ==> Total(m) >= |m|
    decreases |m|
  {
    if m != map[] && forall k :: k in m ==> m[k] > 0 {
      var k :| k in m;
      TotalRemove(m, k);
      TotalAtLeastSize(m - {k});
    }
  }

  /**
   * Executable `sum(items.values())`: visits the keys one at a time in an
   * unspecified order and accumulates their quantities.
   */
  method SumValues(m: map<string, int>) returns (sum: int)
    ensures sum == Total(m)
  {
    sum := 0;
    var rest := m;
    while rest != map[]
      invariant sum + Total(rest) == Total(m)
      decreases |rest|
    {
      var k :| k in rest;
      TotalRemove(rest, k);
      sum := sum + rest[k];
      rest := rest - {k};
    }
  }
}
