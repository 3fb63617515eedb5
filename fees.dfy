/** Kalshi's trading fee, rounded up to whole cents, and the round-trip
    transaction cost of a cross-venue trade. Prices are reals in dollars. */
module Fees {

  /** `math.ceil` over reals: the least integer not below `x`. */
  function Ceil(x: real): (n: int)
    ensures n as real >= x && (n - 1) as real < x
  {
    -((-x).Floor)
  }

  /** Fee per contract at `price`: 7% of price*(1-price), rounded up to a cent. */
  function KalshiFee(price: real): real {
    Ceil(0.07 * price * (1.0 - price) * 100.0) as real / 100.0
  }

  /** The fee is always a whole number of cents. */
  lemma KalshiFeeWholeCents(price: real)
    ensures var cents := KalshiFee(price) * 100.0; cents == cents.Floor as real
  {
    var n := Ceil(0.07 * price * (1.0 - price) * 100.0);
    assert KalshiFee(price) * 100.0 == n as real;
  }

  /** On a price in [0, 1] the fee lies between 0 and 2 cents; strictly
      inside (0, 1) it is at least one cent, and it vanishes at 0 and 1. */
  lemma KalshiFeeBounds(price: real)
    requires 0.0 <= price <= 1.0
    ensures 0.0 <= KalshiFee(price) <= 0.02
    ensures 0.0 < price < 1.0 ==> KalshiFee(price) >= 0.01
    ensures price == 0.0 || price == 1.0 ==> KalshiFee(price) == 0.0
  {
    var q := price * (1.0 - price);
    assert 0.0 <= q;
    assert q <= 0.25 by {
      assert 0.25 - q == (price - 0.5) * (price - 0.5);
    }
    var x := 0.07 * price * (1.0 - price) * 100.0;
    assert x == 7.0 * q;
    var n := Ceil(x);
    assert 0 <= n <= 2;
    if 0.0 < price < 1.0 {
      assert q > 0.0;
      assert n >= 1;
    }
  }

  /** Buying YES at p costs the same fee as buying NO at 1 - p. */
  lemma KalshiFeeSymmetric(price: real)
    ensures KalshiFee(price) == KalshiFee(1.0 - price)
  {
    assert 0.07 * price * (1.0 - price) * 100.0
        == 0.07 * (1.0 - price) * (1.0 - (1.0 - price)) * 100.0;
  }

  /** Two Kalshi fees, the Polymarket bid/ask gap, and gas paid twice. */
  function TotalCost(kalshiPrice: real, polyBid: real, polyAsk: real, gasFee: real): real {
    KalshiFee(kalshiPrice) * 2.0 + (polyAsk - polyBid) + gasFee * 2.0
  }

  /** With an uncrossed Polymarket book and non-negative gas, the cost is at
      least the gas paid twice, hence never negative. */
  lemma TotalCostAtLeastGas(kalshiPrice: real, polyBid: real, polyAsk: real, gasFee: real)
    requires 0.0 <= kalshiPrice <= 1.0
    requires polyBid <= polyAsk && gasFee >= 0.0
    ensures TotalCost(kalshiPrice, polyBid, polyAsk, gasFee) >= 2.0 * gasFee >= 0.0
  {
    KalshiFeeBounds(kalshiPrice);
  }
}
