/** The streaming formula `min(floor(elapsed * price / period), deposited)` and the laws of its floor division. */
module StreamMath {
  import opened Integers

  /** Base units a stream has earned after `elapsed` seconds, before the cap. */
  function Accrued(elapsed: nat, price: nat, period: nat): nat
    requires period > 0
  {
    elapsed * price / period
  }

  /** What the merchant is entitled to after `elapsed` seconds. */
  function Unlocked(elapsed: nat, price: nat, period: nat, deposited: nat): nat
    requires period > 0
  {
    Min(Accrued(elapsed, price, period), deposited)
  }

  /**
   * The adjunction behind every floor in the program: a quotient reaches `q` exactly when the dividend reaches `q
   * * d`.
   */
  lemma FloorReaches(n: nat, d: nat, q: int)
    requires d > 0
    ensures n / d >= q <==> n >= q * d
  {
    var r := n % d;
    assert n == n / d * d + r;
    if n / d >= q {
      MulMonotone(q, n / d, d);
    } else {
      MulMonotone(n / d + 1, q, d);
      assert (n / d + 1) * d == n / d * d + d;
    }
  }

  lemma AccruedReaches(elapsed: nat, price: nat, period: nat, q: int)
    requires period > 0
    ensures Accrued(elapsed, price, period) >= q <==> elapsed * price >= q * period
  {
    FloorReaches(elapsed * price, period, q);
  }

  lemma AccruedMonotone(e: nat, e': nat, price: nat, period: nat)
    requires period > 0 && e <= e'
    ensures Accrued(e, price, period) <= Accrued(e', price, period)
  {
    var q := Accrued(e, price, period);
    AccruedReaches(e, price, period, q);
    MulMonotone(e, e', price);
    AccruedReaches(e', price, period, q);
  }

  lemma UnlockedMonotone(e: nat, e': nat, price: nat, period: nat, d: nat, d': nat)
    requires period > 0 && e <= e' && d <= d'
    ensures Unlocked(e, price, period, d) <= Unlocked(e', price, period, d')
  {
    AccruedMonotone(e, e', price, period);
  }

  /** With `price >= period` (the subscribe guard) every second earns at least one base unit. */
  lemma AccruedProgress(e: nat, price: nat, period: nat)
    requires 0 < period <= price
    ensures Accrued(e + 1, price, period) >= Accrued(e, price, period) + 1
  {
    var q := Accrued(e, price, period);
    AccruedReaches(e, price, period, q);
    assert (e + 1) * price == e * price + price;
    assert (q + 1) * period == q * period + period;
    AccruedReaches(e + 1, price, period, q + 1);
  }
}
