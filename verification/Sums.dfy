/** Sums of amounts kept per key. */
module Sums {

  ghost function Sum(m: map<string, real>): real {
    if m == map[] then 0.0
    else
      var k :| k in m;
      m[k] + Sum(m - {k})
  }

  lemma SumOfNothing()
    ensures Sum(map[]) == 0.0
  {
  }

  function At(m: map<string, real>, k: string): real {
    if k in m then m[k] else 0.0
  }

  /** Any key may be taken out first. */
  lemma {:induction false} SumWithout(m: map<string, real>, k: string)
    ensures Sum(m) == At(m, k) + Sum(m - {k})
    decreases |m|
  {
    if m == map[] || k !in m {
      assert m - {k} == m;
    } else {
      var j :| j in m && Sum(m) == m[j] + Sum(m - {j});
      if j != k {
        assert |m - {j}| < |m| && |m - {k}| < |m| by {
          assert (m - {j}).Keys == m.Keys - {j} && (m - {k}).Keys == m.Keys - {k};
        }
        SumWithout(m - {j}, k);
        SumWithout(m - {k}, j);
        assert m - {j} - {k} == m - {k} - {j};
      }
    }
  }

  /** Adding to one key adds to the sum. */
  lemma SumAfter(m: map<string, real>, k: string, v: real)
    ensures Sum(m[k := v]) == Sum(m) - At(m, k) + v
  {
    SumWithout(m, k);
    SumWithout(m[k := v], k);
    assert m[k := v] - {k} == m - {k};
  }
}
