// The objective functions the optimisers maximise over the price: the
// expected net profit (ExpectedProfitForMaximization) and the expected gross
// profit (ExpectedGrossProfitForMaximization) of an offer between two
// neighbouring offers. Both are cut to 0 where the expected demand falls
// below the minimum the firms accept.
module ProfitObjectives {
  import opened Wrappers
  import opened Values
  import Rounding

  /**
   * Consumers.getExpectedQuantityWExpecDistrib(offer, lo, hi), which is not
   * part of this model.
   */
  type Quantity = (OfferVal, Option<OfferVal>, Option<OfferVal>) -> real

  /**
   * What an objective captures when it is built: the offer's quality and
   * unit cost, the share of consumers who know the firm, the fixed cost
   * (0 for the gross objective), the neighbours' offers, the minimum
   * expected demand, the quantity function, and how an offer at a price p
   * is formed (new Offer(p, q), built by NewObjective).
   */
  datatype Objective = Objective(q: real, cost: real, knownByPerc: real, fixedCost: real,
                                 loOffer: Option<OfferVal>, hiOffer: Option<OfferVal>, minExpDemand: real,
                                 quantity: Quantity, offerAt: real -> OfferVal)

  /**
   * The objective's constructor: new Offer(p, q) of firms.Offer rounds the
   * price HALF_DOWN to the price scale and the quality HALF_UP to the
   * quality scale, so the offer's price is on the price grid within half a
   * unit of p, and its quality does not depend on p.
   */
  function NewObjective(q: real, cost: real, knownByPerc: real, fixedCost: real,
                        loOffer: Option<OfferVal>, hiOffer: Option<OfferVal>, minExpDemand: real,
                        quantity: Quantity, priceScale: nat, qualityScale: nat): (o: Objective)
    ensures o.q == q && o.cost == cost && o.knownByPerc == knownByPerc && o.fixedCost == fixedCost
    ensures o.loOffer == loOffer && o.hiOffer == hiOffer && o.minExpDemand == minExpDemand && o.quantity == quantity
    ensures forall p :: o.offerAt(p) == OfferVal(Rounding.HalfDown(p, priceScale), Rounding.HalfUp(q, qualityScale))
    ensures forall p :: Rounding.OnGrid(o.offerAt(p).price, priceScale)
    ensures forall p :: p - Rounding.Unit(priceScale) / 2.0 <= o.offerAt(p).price <= p + Rounding.Unit(priceScale) / 2.0
    ensures forall p, p' :: o.offerAt(p).quality == o.offerAt(p').quality
  {
    Objective(q, cost, knownByPerc, fixedCost, loOffer, hiOffer, minExpDemand, quantity,
              (p: real) => OfferVal(Rounding.HalfDown(p, priceScale), Rounding.HalfUp(q, qualityScale)))
  }

  /** new Offer(p, q): the offer the objective evaluates at price p. */
  function OfferAt(o: Objective, p: real): OfferVal
  {
    o.offerAt(p)
  }

  /** The expected quantity of the offer at p, scaled by the share who know the firm. */
  function ExpectedDemand(o: Objective, p: real): real
  {
    o.quantity(OfferAt(o, p), o.loOffer, o.hiOffer) * o.knownByPerc
  }

  /** ExpectedGrossProfitForMaximization.value. */
  function GrossValue(o: Objective, p: real): (r: real)
    ensures ExpectedDemand(o, p) < o.minExpDemand ==> r == 0.0
    ensures p == o.cost ==> r == 0.0
    ensures ExpectedDemand(o, p) >= 0.0 && p >= o.cost ==> r >= 0.0
    ensures r > 0.0 ==> ExpectedDemand(o, p) >= o.minExpDemand
  {
    var d := ExpectedDemand(o, p);
    ProductSign(p - o.cost, d);
    CutProfit(d, o.minExpDemand, p - o.cost)
  }

  /** ExpectedProfitForMaximization.value. */
  function NetValue(o: Objective, p: real): (r: real)
    ensures ExpectedDemand(o, p) < o.minExpDemand ==> r == 0.0
  {
    var d := ExpectedDemand(o, p);
    if d < o.minExpDemand then 0.0 else CutProfit(d, o.minExpDemand, p - o.cost) - o.fixedCost
  }

  /** The margin earned on demand d, cut to 0 below the minimum demand. */
  function CutProfit(d: real, minExpDemand: real, unitMargin: real): real
  {
    if d < minExpDemand then 0.0 else unitMargin * d
  }

  lemma ProductSign(a: real, b: real)
    ensures a >= 0.0 && b >= 0.0 ==> a * b >= 0.0
  {
  }

  /**
   * The two objectives differ by the fixed cost wherever the demand reaches
   * the minimum, and agree (at 0) below it.
   */
  lemma NetIsGrossLessFixedCost(o: Objective, p: real)
    ensures ExpectedDemand(o, p) >= o.minExpDemand ==> NetValue(o, p) == GrossValue(o, p) - o.fixedCost
    ensures ExpectedDemand(o, p) < o.minExpDemand ==> NetValue(o, p) == GrossValue(o, p) == 0.0
  {
  }

  /**
   * Raising the price by dp at an unchanged demand d adds dp * d to the
   * gross objective: it is linear in the price above the cut-off.
   */
  lemma {:induction false} GrossValueIsLinearInPrice(o: Objective, p: real, p': real)
    requires ExpectedDemand(o, p) == ExpectedDemand(o, p')
    requires ExpectedDemand(o, p) >= o.minExpDemand
    ensures GrossValue(o, p') - GrossValue(o, p) == (p' - p) * ExpectedDemand(o, p)
  {
    var d := ExpectedDemand(o, p);
    CutProfitIsLinear(d, o.minExpDemand, p - o.cost, p' - o.cost);
    assert (p' - o.cost) - (p - o.cost) == p' - p;
  }

  /** The same holds for the net objective, whose fixed cost cancels. */
  lemma {:induction false} NetValueIsLinearInPrice(o: Objective, p: real, p': real)
    requires ExpectedDemand(o, p) == ExpectedDemand(o, p')
    requires ExpectedDemand(o, p) >= o.minExpDemand
    ensures NetValue(o, p') - NetValue(o, p) == (p' - p) * ExpectedDemand(o, p)
  {
    GrossValueIsLinearInPrice(o, p, p');
    NetIsGrossLessFixedCost(o, p);
    NetIsGrossLessFixedCost(o, p');
  }

  lemma CutProfitIsLinear(d: real, minExpDemand: real, m: real, m': real)
    requires d >= minExpDemand
    ensures CutProfit(d, minExpDemand, m') - CutProfit(d, minExpDemand, m) == (m' - m) * d
  {
  }

  /**
   * With a non-negative demand, the gross objective is positive only above
   * the cost and then at least the margin on the minimum demand.
   */
  lemma {:induction false} GrossValuePositiveMeansAboveCost(o: Objective, p: real)
    requires ExpectedDemand(o, p) >= 0.0 && o.minExpDemand >= 0.0
    ensures GrossValue(o, p) > 0.0 ==> p > o.cost && GrossValue(o, p) >= (p - o.cost) * o.minExpDemand
  {
    CutProfitPositive(ExpectedDemand(o, p), o.minExpDemand, p - o.cost);
  }

  lemma CutProfitPositive(d: real, minExpDemand: real, m: real)
    requires d >= 0.0 && minExpDemand >= 0.0
    ensures CutProfit(d, minExpDemand, m) > 0.0 ==> m > 0.0 && CutProfit(d, minExpDemand, m) >= m * minExpDemand
  {
    ProductSign(-m, d);
    if CutProfit(d, minExpDemand, m) > 0.0 {
      ProductSign(m, d - minExpDemand);
    }
  }
}
