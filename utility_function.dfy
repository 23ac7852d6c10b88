// The consumers' utility function (welfare parameter times quality, minus
// price) and the price and welfare thresholds firms derive from it.
module UtilityFunction {
  import opened Wrappers
  import opened Values
  import Rounding

  /**
   * Utility a consumer expects from an offer; qualityFactor discounts the
   * quality of a firm the consumer has not tried yet.
   */
  function ExpectedUtility(welfareParam: real, o: OfferVal, qualityFactor: real): real
  {
    welfareParam * o.quality * qualityFactor - o.price
  }

  /** Utility once the firm is tried: the expected utility with factor 1. */
  function RealUtility(welfareParam: real, o: OfferVal): (u: real)
    ensures u == ExpectedUtility(welfareParam, o, 1.0)
  {
    welfareParam * o.quality - o.price
  }

  /**
   * The welfare parameter of the consumer indifferent between the two
   * offers (price difference over quality difference).
   */
  function CalculateRawLimit(loP: real, loQ: real, hiP: real, hiQ: real): (r: real)
    requires loQ != hiQ
    ensures r * (hiQ - loQ) == hiP - loP
  {
    (hiP - loP) / (hiQ - loQ)
  }

  /**
   * Single crossing: a consumer strictly prefers the higher-quality offer
   * exactly when its welfare parameter is above the raw limit, and is
   * indifferent exactly at the limit.
   */
  lemma {:induction false} PreferenceFlipsAtRawLimit(lo: OfferVal, hi: OfferVal, w: real)
    requires lo.quality < hi.quality
    ensures RealUtility(w, hi) > RealUtility(w, lo) <==>
            w > CalculateRawLimit(lo.price, lo.quality, hi.price, hi.quality)
    ensures RealUtility(w, hi) == RealUtility(w, lo) <==>
            w == CalculateRawLimit(lo.price, lo.quality, hi.price, hi.quality)
  {
    var l := CalculateRawLimit(lo.price, lo.quality, hi.price, hi.quality);
    var d := hi.quality - lo.quality;
    assert RealUtility(w, hi) - RealUtility(w, lo) == (w - l) * d;
    SignOfProduct(w - l, d);
  }

  lemma SignOfProduct(a: real, d: real)
    requires d > 0.0
    ensures a * d > 0.0 <==> a > 0.0
    ensures a * d == 0.0 <==> a == 0.0
  {
    if a > 0.0 {
      assert a * d > 0.0;
    } else if a < 0.0 {
      assert (-a) * d > 0.0;
    }
  }

  lemma SignOfProductNonNeg(a: real, d: real)
    requires a >= 0.0 && d >= 0.0
    ensures a * d >= 0.0
  {
  }

  /**
   * calculateLimit: the limit between two offers, never below the minimum
   * welfare parameter firms perceive. Its assert (loQ < hiQ and loP < hiP)
   * is not enforced; only equal qualities, a division by zero, are
   * excluded. A lower offer priced at or above the higher one gives the
   * minimum.
   */
  function CalculateLimit(loP: real, loQ: real, hiP: real, hiQ: real, minWelfare: real): (r: real)
    requires loQ != hiQ
    ensures r >= minWelfare && r >= CalculateRawLimit(loP, loQ, hiP, hiQ)
    ensures r == minWelfare || r == CalculateRawLimit(loP, loQ, hiP, hiQ)
    ensures loQ < hiQ && hiP <= loP && minWelfare >= 0.0 ==> r == minWelfare
  {
    RawLimitNotPositive(loP, loQ, hiP, hiQ);
    MaxReal(CalculateRawLimit(loP, loQ, hiP, hiQ), minWelfare)
  }

  /** A lower offer priced at or above the higher one has a raw limit of at most 0. */
  lemma RawLimitNotPositive(loP: real, loQ: real, hiP: real, hiQ: real)
    requires loQ != hiQ
    ensures loQ < hiQ && hiP <= loP ==> CalculateRawLimit(loP, loQ, hiP, hiQ) <= 0.0
  {
    var r := CalculateRawLimit(loP, loQ, hiP, hiQ);
    if loQ < hiQ && hiP <= loP {
      assert r * (hiQ - loQ) <= 0.0;
    }
  }

  /** Price of the lower reference firm: its price, or 0 when absent. */
  function LowerRefPrice(loF: Option<FirmView>): real
  {
    if loF.Some? then loF.value.price else 0.0
  }

  /** Quality of the lower reference firm: its perceived quality, or 0. */
  function LowerRefQuality(loF: Option<FirmView>): real
  {
    if loF.Some? then loF.value.perceivedQ else 0.0
  }

  /**
   * The price on the line through (loQ, loP) and (hiQ, hiP) at quality q.
   */
  function EntryLine(loP: real, loQ: real, hiP: real, hiQ: real, q: real): real
    requires loQ < hiQ
  {
    (hiP * (q - loQ) + loP * (hiQ - q)) / (hiQ - loQ)
  }

  /**
   * The entry line goes through both reference offers, and the consumer
   * indifferent between them is also indifferent to an entrant priced on
   * the line: above that price the entrant would take no consumer.
   */
  lemma {:induction false} EntryLineKeepsMarginalConsumerIndifferent(loP: real, loQ: real, hiP: real, hiQ: real, q: real)
    requires loQ < hiQ
    ensures EntryLine(loP, loQ, hiP, hiQ, loQ) == loP
    ensures EntryLine(loP, loQ, hiP, hiQ, hiQ) == hiP
    ensures var l := CalculateRawLimit(loP, loQ, hiP, hiQ);
      RealUtility(l, OfferVal(EntryLine(loP, loQ, hiP, hiQ, q), q)) == RealUtility(l, OfferVal(loP, loQ))
  {
    var d := hiQ - loQ;
    var l := CalculateRawLimit(loP, loQ, hiP, hiQ);
    var e := EntryLine(loP, loQ, hiP, hiQ, q);
    assert e * d == hiP * (q - loQ) + loP * (hiQ - q);
    assert l * d == hiP - loP;
    assert (l * q - e) * d == (l * loQ - loP) * d by {
      assert (l * q - e) * d == l * d * q - e * d;
      assert (l * loQ - loP) * d == l * d * loQ - loP * d;
    }
    CancelPositive(l * q - e, l * loQ - loP, d);
  }

  lemma CancelPositive(a: real, b: real, d: real)
    requires d > 0.0 && a * d == b * d
    ensures a == b
  {
    assert (a - b) * d == 0.0;
    SignOfProduct(a - b, d);
  }

  /**
   * getMaxPriceToEnter: the highest price at which an offer of perceived
   * quality q between loF and hiF still attracts consumers, rounded FLOOR.
   * The higher firm is read at its real quality, the lower one at its
   * perceived quality.
   */
  function MaxPriceToEnter(perceivedQ: real, loF: Option<FirmView>, hiF: Option<FirmView>,
                           maxPrice: real, priceScale: nat): (r: real)
    ensures hiF.None? ==> r == maxPrice
    ensures hiF.Some? && hiF.value.quality <= LowerRefQuality(loF) ==> r == 0.0
    ensures hiF.Some? && hiF.value.quality > LowerRefQuality(loF) ==>
      var line := EntryLine(LowerRefPrice(loF), LowerRefQuality(loF), hiF.value.price, hiF.value.quality, perceivedQ);
      r <= line < r + Rounding.Unit(priceScale) && Rounding.OnGrid(r, priceScale)
  {
    if hiF.None? then maxPrice
    else
      var hiP, hiQ := hiF.value.price, hiF.value.quality;
      var loP, loQ := LowerRefPrice(loF), LowerRefQuality(loF);
      if hiQ <= loQ then 0.0
      else Rounding.Floor(EntryLine(loP, loQ, hiP, hiQ, perceivedQ), priceScale)
  }

  /**
   * priceToExpelFromAbove: f's lower limit is +infinity (any price expels
   * f) gives null, modelled as None; otherwise the price below which an
   * offer at quality q expels f.
   */
  function PriceToExpelFromAbove(q: real, f: FirmView, fLowLimit: Limit): (r: Option<real>)
    ensures r.None? <==> fLowLimit == Infinity
  {
    match fLowLimit
    case Infinity => None
    case At(l) => Some(f.price + l * (q - f.perceivedQ))
  }

  /**
   * Coming from above f, a price is below the threshold exactly when the
   * limit between f and the entrant drops below f's own lower limit, so
   * f keeps no consumer.
   */
  lemma {:induction false} ExpelFromAboveMeaning(q: real, f: FirmView, l: real, p: real)
    requires q > f.perceivedQ
    ensures p < PriceToExpelFromAbove(q, f, At(l)).value <==>
            CalculateRawLimit(f.price, f.perceivedQ, p, q) < l
    ensures p <= PriceToExpelFromAbove(q, f, At(l)).value <==>
            CalculateRawLimit(f.price, f.perceivedQ, p, q) <= l
  {
    var d := q - f.perceivedQ;
    var lim := CalculateRawLimit(f.price, f.perceivedQ, p, q);
    assert PriceToExpelFromAbove(q, f, At(l)).value - p == (l - lim) * d;
    SignOfProduct(l - lim, d);
  }

  /**
   * priceToExpelFromBelow: f's higher limit is +infinity (no price expels
   * f) gives 0; otherwise the price at or below which an offer at quality
   * q expels f.
   */
  function PriceToExpelFromBelow(q: real, f: FirmView, fHighLimit: Limit): (r: real)
    ensures fHighLimit == Infinity ==> r == 0.0
  {
    match fHighLimit
    case Infinity => 0.0
    case At(l) => f.price - l * (f.perceivedQ - q)
  }

  /**
   * Coming from below f, a price at or below the threshold moves the limit
   * between the entrant and f up to f's own higher limit, so f keeps no
   * consumer.
   */
  lemma {:induction false} ExpelFromBelowMeaning(q: real, f: FirmView, l: real, p: real)
    requires q < f.perceivedQ
    ensures p <= PriceToExpelFromBelow(q, f, At(l)) <==>
            CalculateRawLimit(p, q, f.price, f.perceivedQ) >= l
    ensures p < PriceToExpelFromBelow(q, f, At(l)) <==>
            CalculateRawLimit(p, q, f.price, f.perceivedQ) > l
  {
    var d := f.perceivedQ - q;
    var lim := CalculateRawLimit(p, q, f.price, f.perceivedQ);
    assert PriceToExpelFromBelow(q, f, At(l)) - p == (lim - l) * d;
    SignOfProduct(lim - l, d);
  }

  /**
   * getMinWelfareParamAceptingOfferPerceivedByFirms: the lowest welfare
   * parameter, not below the perceived minimum, of a consumer willing to
   * pay the offer's price.
   */
  function MinWelfareParamAcceptingOffer(o: OfferVal, minWelfare: real): (r: real)
    requires o.quality > 0.0
    ensures r >= minWelfare
    ensures RealUtility(r, o) >= 0.0
    ensures r == minWelfare || RealUtility(r, o) == 0.0
  {
    var pDivQ := o.price / o.quality;
    assert RealUtility(pDivQ, o) == 0.0;
    if pDivQ >= minWelfare then pDivQ
    else
      AcceptanceIsMonotone(o, pDivQ, minWelfare);
      minWelfare
  }

  lemma AcceptanceIsMonotone(o: OfferVal, w1: real, w2: real)
    requires o.quality > 0.0 && w1 <= w2
    ensures RealUtility(w1, o) <= RealUtility(w2, o)
  {
    assert RealUtility(w2, o) - RealUtility(w1, o) == (w2 - w1) * o.quality;
  }

  /**
   * Among consumers at or above the perceived minimum, exactly those at or
   * above the threshold accept the offer.
   */
  lemma {:induction false} AcceptingThresholdIsExact(o: OfferVal, minWelfare: real, w: real)
    requires o.quality > 0.0 && w >= minWelfare
    ensures RealUtility(w, o) >= 0.0 <==> w >= MinWelfareParamAcceptingOffer(o, minWelfare)
  {
    var r := MinWelfareParamAcceptingOffer(o, minWelfare);
    if w >= r {
      AcceptanceIsMonotone(o, r, w);
    } else {
      assert RealUtility(r, o) == 0.0;
      assert RealUtility(w, o) == -((r - w) * o.quality);
      SignOfProduct(r - w, o.quality);
    }
  }

  /**
   * getMaxPriceForPoorestConsumer: quality times the perceived minimum
   * welfare parameter, rounded FLOOR to the price scale.
   */
  function MaxPriceForPoorestConsumer(quality: real, minWelfare: real, priceScale: nat): (r: real)
    ensures r <= quality * minWelfare < r + Rounding.Unit(priceScale)
    ensures Rounding.OnGrid(r, priceScale)
    ensures RealUtility(minWelfare, OfferVal(r, quality)) >= 0.0
  {
    Rounding.Floor(quality * minWelfare, priceScale)
  }
}
