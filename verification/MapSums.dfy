/** Sums over finite maps and falling budgets, for termination measures. */
module MapSums {
  import opened Words

  ghost function Sum(m: map<u16, nat>): nat
    decreases |m|
  {
    if m == map[] then 0 else
    var k: u16 :| k in m;
    m[k] + Sum(m - {k})
  }

  lemma {:induction false} SumAt(m: map<u16, nat>, k: u16)
    requires k in m
    ensures Sum(m) == m[k] + Sum(m - {k})
    decreases |m|
  {
    var j: u16 :| j in m && Sum(m) == m[j] + Sum(m - {j});
    if j != k {
      SumAt(m - {j}, k);
      SumAt(m - {k}, j);
      assert m - {j} - {k} == m - {k} - {j};
    }
  }

  /** Fewer keys and smaller values make a smaller sum. */
  lemma {:induction false} SumMonotone(m: map<u16, nat>, m': map<u16, nat>)
    requires forall k: u16 :: k in m' ==> k in m && m'[k] <= m[k]
    ensures Sum(m') <= Sum(m)
    decreases |m|
  {
    if m' != map[] {
      var k: u16 :| k in m';
      SumAt(m, k);
      SumAt(m', k);
      SumMonotone(m - {k}, m' - {k});
    }
  }

  /** Strictly smaller when some key strictly drops or disappears. */
  lemma {:induction false} SumDrops(m: map<u16, nat>, m': map<u16, nat>, k: u16)
    requires forall j: u16 :: j in m' ==> j in m && m'[j] <= m[j]
    requires k in m && (if k in m' then m'[k] < m[k] else 0 < m[k])
    ensures Sum(m') < Sum(m)
  {
    SumAt(m, k);
    SumMonotone(m - {k}, m' - {k});
    if k in m' { SumAt(m', k); } else { assert m' - {k} == m'; }
  }

  lemma {:induction false} OneFewer(m: map<u16, nat>, k: u16)
    requires k in m
    ensures |m - {k}| < |m|
  {
    assert (m - {k}).Keys == m.Keys - {k};
    assert |(m - {k}).Keys| == |m - {k}| && |m.Keys| == |m|;
  }

  lemma {:induction false} SumAtMost(m: map<u16, nat>, each: nat)
    requires forall k: u16 :: k in m ==> m[k] <= each
    ensures Sum(m) <= each * |m|
    decreases |m|
  {
    if m != map[] {
      var k: u16 :| k in m && Sum(m) == m[k] + Sum(m - {k});
      SumAtMost(m - {k}, each);
      OneFewer(m, k);
      Gap(each, |m - {k}|, |m|);
    }
  }

  /** What falls at every step lasts no longer than it is large. */
  lemma {:induction false} FallingEnds(budgets: seq<nat>, n: nat)
    requires n < |budgets| && forall i :: 0 <= i < |budgets| - 1 ==> budgets[i + 1] < budgets[i]
    ensures n + budgets[n] <= budgets[0]
  {
    if n > 0 {
      FallingEnds(budgets, n - 1);
      assert budgets[n - 1 + 1] < budgets[n - 1];
    }
  }
}
