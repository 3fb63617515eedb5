/** The two directional net spreads of a Kalshi/Polymarket pair. */
module Spreads {

  /** `kToP`: sell on Kalshi at its bid, buy on Polymarket at its ask;
      `pToK`: sell on Polymarket at its bid, buy on Kalshi at its ask. */
  datatype Spread = Spread(kToP: real, pToK: real)

  function CalcSpreads(kalshiBid: real, kalshiAsk: real, polyBid: real, polyAsk: real,
                       totalCost: real): Spread
  {
    Spread(kalshiBid - polyAsk - totalCost, polyBid - kalshiAsk - totalCost)
  }

  /** Each spread is the bid received minus the ask paid, less the whole cost. */
  lemma SpreadsAreBidMinusAskMinusCost(kb: real, ka: real, pb: real, pa: real, cost: real)
    ensures CalcSpreads(kb, ka, pb, pa, cost).kToP + cost + pa == kb
    ensures CalcSpreads(kb, ka, pb, pa, cost).pToK + cost + ka == pb
  {
  }

  /** Raising the cost by `d` lowers both spreads by exactly `d`. */
  lemma CostShiftsBothSpreads(kb: real, ka: real, pb: real, pa: real, cost: real, d: real)
    ensures CalcSpreads(kb, ka, pb, pa, cost + d).kToP == CalcSpreads(kb, ka, pb, pa, cost).kToP - d
    ensures CalcSpreads(kb, ka, pb, pa, cost + d).pToK == CalcSpreads(kb, ka, pb, pa, cost).pToK - d
  {
  }

  /** With uncrossed books on both venues and a non-negative cost, the two
      spreads sum to at most -2*cost, so at most one direction is positive. */
  lemma AtMostOneDirectionPositive(kb: real, ka: real, pb: real, pa: real, cost: real)
    requires kb <= ka && pb <= pa && cost >= 0.0
    ensures var s := CalcSpreads(kb, ka, pb, pa, cost); s.kToP + s.pToK <= -2.0 * cost
    ensures var s := CalcSpreads(kb, ka, pb, pa, cost); !(s.kToP > 0.0 && s.pToK > 0.0)
  {
  }
}
