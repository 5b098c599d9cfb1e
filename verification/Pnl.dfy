/** Profit and R-multiple arithmetic of one closing leg, over exact reals. */
module Pnl {
  import opened Wrappers

  function FractionOfOriginal(closed: real, intended: real): real
    requires intended > 0.0
  {
    closed / intended
  }

  /** A fee in the R units of the price-return term. */
  function FeeInR(fee: real, entry: real, closed: real, stopD: real): real {
    if entry <= 0.0 || closed <= 0.0 || stopD <= 0.0 || entry * closed <= 0.0 then 0.0
    else fee / (entry * closed) / stopD
  }

  function LegR(entry: real, exit: real, stopD: real, fraction: real, fee: real, closed: real): real
    requires entry > 0.0 && stopD > 0.0
  {
    (exit / entry - 1.0) / stopD * fraction - FeeInR(fee, entry, closed, stopD)
  }

  function LegPct(entry: real, exit: real, fraction: real): real
    requires entry > 0.0
  {
    (exit / entry - 1.0) * 100.0 * fraction
  }

  function LegPnl(entry: real, exit: real, closed: real, fee: real): real {
    (exit - entry) * closed - fee
  }

  predicate AverageDefined(avg: Option<real>, quantity: real, more: real) {
    avg.None? || quantity == 0.0 || quantity + more != 0.0
  }

  function WeightedAverage(avg: Option<real>, quantity: real, price: real, more: real): real
    requires AverageDefined(avg, quantity, more)
  {
    if avg.None? || quantity == 0.0 then price
    else (avg.value * quantity + price * more) / (quantity + more)
  }

  /** The new average carries the notional of both parts, and stays between the two prices. */
  lemma AverageCarriesNotional(avg: Option<real>, quantity: real, price: real, more: real)
    requires quantity >= 0.0 && more > 0.0 && (quantity > 0.0 ==> avg.Some?)
    ensures AverageDefined(avg, quantity, more)
    ensures WeightedAverage(avg, quantity, price, more) * (quantity + more)
         == (if quantity == 0.0 then 0.0 else avg.value * quantity) + price * more
  {
    var total := quantity + more;
    if quantity > 0.0 {
      var sum := avg.value * quantity + price * more;
      assert sum / total * total == sum;
    }
  }

  lemma AverageStaysBetween(avg: real, quantity: real, price: real, more: real, low: real, high: real)
    requires quantity > 0.0 && more > 0.0
    requires low <= avg <= high && low <= price <= high
    ensures low <= WeightedAverage(Some(avg), quantity, price, more) <= high
  {
    var total := quantity + more;
    var sum := avg * quantity + price * more;
    SumIsBetween(avg, quantity, price, more, low, high);
    Unscale(low, sum, total);
    Unscale(-high, -sum, total);
    assert -sum / total == -(sum / total);
  }

  /** A product that the arithmetic below leaves alone. */
  function Times(a: real, k: real): real {
    a * k
  }

  lemma TimesGrows(a: real, b: real, k: real)
    requires a <= b && k >= 0.0
    ensures Times(a, k) <= Times(b, k)
  {
    assert (b - a) * k >= 0.0;
  }

  lemma TimesSpreads(a: real, k: real, more: real)
    ensures Times(a, k + more) == Times(a, k) + Times(a, more)
  {
  }

  lemma SumIsBetween(avg: real, quantity: real, price: real, more: real, low: real, high: real)
    requires quantity > 0.0 && more > 0.0
    requires low <= avg <= high && low <= price <= high
    ensures Times(low, quantity + more) <= Times(avg, quantity) + Times(price, more) <= Times(high, quantity + more)
  {
    hide Times;
    TimesGrows(low, avg, quantity);
    TimesGrows(low, price, more);
    TimesGrows(avg, high, quantity);
    TimesGrows(price, high, more);
    TimesSpreads(low, quantity, more);
    TimesSpreads(high, quantity, more);
  }

  lemma Unscale(a: real, sum: real, k: real)
    requires k > 0.0 && a * k <= sum
    ensures a <= sum / k
  {
    var rest := sum - a * k;
    assert rest / k >= 0.0;
    assert sum / k == a + rest / k;
  }
}
