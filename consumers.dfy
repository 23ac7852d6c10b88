// The consumer population as firms see it: how many consumers lie above a
// welfare threshold (Pareto tail), the limiting welfare parameter between
// two offers, the minimum price of an offer, and the search for a free
// quality on the quality grid.
module Consumers {
  import opened Wrappers
  import opened Values
  import Rounding
  import UtilityFunction
  import RecessionsHandler

  /**
   * The parameters of the welfare distribution: market size, the raw
   * minimum welfare parameter and the Pareto shape lambda.
   */
  datatype Population = Population(mktSize: nat, rawMinWelfare: real, lambda: real)

  /** The Pareto shape derived from the Gini coefficient. */
  function LambdaOfGini(gini: real): (lambda: real)
    requires gini != 0.0
    ensures 0.0 < gini < 1.0 ==> lambda > 1.0
    ensures lambda * (2.0 * gini) == 1.0 + gini
  {
    (1.0 + gini) / (2.0 * gini)
  }

  /**
   * What `pow(·, lambda)` must satisfy on [0, 1] for the Pareto tail: it
   * stays in [0, 1] and is monotone. The power function itself is foreign
   * numerics and enters as a parameter.
   */
  ghost predicate ParetoTail(pow: (real, real) -> real, lambda: real)
  {
    (forall x :: 0.0 <= x <= 1.0 ==> 0.0 <= pow(x, lambda) <= 1.0) &&
    (forall x, y :: 0.0 <= x <= y <= 1.0 ==> pow(x, lambda) <= pow(y, lambda))
  }

  /**
   * getExpectedConsumersAboveRawWelfareParam: everybody at or below the
   * minimum, nobody above +infinity, the Pareto tail in between.
   */
  function ExpectedConsumersAbove(pop: Population, threshold: Limit, pow: (real, real) -> real): (r: real)
    requires pop.rawMinWelfare > 0.0
    ensures threshold.At? && threshold.w <= pop.rawMinWelfare ==> r == pop.mktSize as real
    ensures threshold == Infinity ==> r == 0.0
  {
    match threshold
    case At(w) =>
      if w <= pop.rawMinWelfare then pop.mktSize as real
      else pop.mktSize as real * pow(pop.rawMinWelfare / w, pop.lambda)
    case Infinity => 0.0
  }

  /** Between nobody and everybody, whatever the threshold. */
  lemma {:induction false} ConsumersAboveBounds(pop: Population, threshold: Limit, pow: (real, real) -> real)
    requires pop.rawMinWelfare > 0.0 && ParetoTail(pow, pop.lambda)
    ensures 0.0 <= ExpectedConsumersAbove(pop, threshold, pow) <= pop.mktSize as real
  {
    if threshold.At? && threshold.w > pop.rawMinWelfare {
      var x := pop.rawMinWelfare / threshold.w;
      RatioInUnit(pop.rawMinWelfare, threshold.w);
      assert 0.0 <= pow(x, pop.lambda) <= 1.0;
      ScaleUnit(pop.mktSize as real, pow(x, pop.lambda));
    }
  }

  lemma RatioInUnit(a: real, w: real)
    requires 0.0 < a < w
    ensures 0.0 <= a / w <= 1.0
  {
    assert a / w * w == a;
  }

  lemma ScaleUnit(n: real, x: real)
    requires n >= 0.0 && 0.0 <= x <= 1.0
    ensures 0.0 <= n * x <= n
  {
    assert n - n * x == n * (1.0 - x);
  }

  lemma RatioAntitone(a: real, v: real, w: real)
    requires 0.0 < a < v <= w
    ensures a / w <= a / v
  {
    var x := a / v;
    assert x * v == a;
    assert x * w - x * v == x * (w - v);
    UtilityFunction.SignOfProductNonNeg(x, w - v);
    Rounding.DivMono(x * v, x * w, w);
    assert x * w / w == x;
  }

  /** "At or below" on limits. */
  predicate AtMost(a: Limit, b: Limit)
  {
    a == b || a.Below(b)
  }

  /**
   * A higher threshold never has more consumers above it.
   */
  lemma {:induction false} ConsumersAboveAntitone(pop: Population, a: Limit, b: Limit, pow: (real, real) -> real)
    requires pop.rawMinWelfare > 0.0 && ParetoTail(pow, pop.lambda)
    requires AtMost(a, b)
    ensures ExpectedConsumersAbove(pop, b, pow) <= ExpectedConsumersAbove(pop, a, pow)
  {
    ConsumersAboveBounds(pop, a, pow);
    ConsumersAboveBounds(pop, b, pow);
    if a.At? && b.At? && a.w > pop.rawMinWelfare {
      RatioAntitone(pop.rawMinWelfare, a.w, b.w);
      RatioInUnit(pop.rawMinWelfare, a.w);
      RatioInUnit(pop.rawMinWelfare, b.w);
      var xa, xb := pop.rawMinWelfare / a.w, pop.rawMinWelfare / b.w;
      var pa, pb := pow(xa, pop.lambda), pow(xb, pop.lambda);
      assert pb <= pa;
      assert ExpectedConsumersAbove(pop, a, pow) == pop.mktSize as real * pa;
      assert ExpectedConsumersAbove(pop, b, pow) == pop.mktSize as real * pb;
      UtilityFunction.SignOfProductNonNeg(pop.mktSize as real, pa - pb);
      assert pop.mktSize as real * pa - pop.mktSize as real * pb == pop.mktSize as real * (pa - pb);
    }
  }

  /**
   * limitingWelfareParamPerceivedByFirms on two present offers: the
   * recession-scaled minimum when nobody would buy the lower offer, +infinity
   * when nobody would buy the higher one, else the scaled larger of the raw
   * minimum and the raw limit.
   */
  function LimitBetween(pop: Population, magnitude: real, lo: OfferVal, hi: OfferVal): (r: Limit)
    ensures lo.price >= hi.price ==> r == At(RecessionsHandler.Scaled(pop.rawMinWelfare, magnitude))
    ensures lo.price < hi.price && lo.quality == hi.quality ==> r == Infinity
    ensures lo.price < hi.price && lo.quality != hi.quality ==>
      r.At? && r.w == RecessionsHandler.Scaled(
        MaxReal(pop.rawMinWelfare, UtilityFunction.CalculateRawLimit(lo.price, lo.quality, hi.price, hi.quality)),
        magnitude)
    ensures 0.0 <= magnitude < 1.0 && r.At? ==> r.w >= RecessionsHandler.Scaled(pop.rawMinWelfare, magnitude)
  {
    var minWP := RecessionsHandler.Scaled(pop.rawMinWelfare, magnitude);
    if lo.price >= hi.price then At(minWP)
    else if lo.quality == hi.quality then Infinity
    else
      var rawWP := MaxReal(pop.rawMinWelfare,
        UtilityFunction.CalculateRawLimit(lo.price, lo.quality, hi.price, hi.quality));
      RecessionsHandler.ScaledKeepsOrder(pop.rawMinWelfare, rawWP, magnitude);
      At(RecessionsHandler.Scaled(rawWP, magnitude))
  }

  /**
   * Without a recession the limit sorts every consumer at or above the
   * minimum: a lower offer priced at least as high is never strictly
   * preferred; at equal quality the cheaper lower offer is always preferred;
   * otherwise consumers above the limit prefer the higher offer and those
   * below it the lower one.
   */
  lemma {:induction false} LimitBetweenSeparatesChoices(pop: Population, lo: OfferVal, hi: OfferVal, w: real)
    requires lo.quality <= hi.quality && w >= 0.0
    ensures lo.price >= hi.price ==>
      UtilityFunction.RealUtility(w, hi) >= UtilityFunction.RealUtility(w, lo)
    ensures lo.price < hi.price && lo.quality == hi.quality ==>
      LimitBetween(pop, 0.0, lo, hi) == Infinity &&
      UtilityFunction.RealUtility(w, lo) > UtilityFunction.RealUtility(w, hi)
    ensures lo.price < hi.price && lo.quality < hi.quality && w >= pop.rawMinWelfare ==>
      (w > LimitBetween(pop, 0.0, lo, hi).w ==> UtilityFunction.RealUtility(w, hi) > UtilityFunction.RealUtility(w, lo)) &&
      (w < LimitBetween(pop, 0.0, lo, hi).w ==> UtilityFunction.RealUtility(w, lo) > UtilityFunction.RealUtility(w, hi))
  {
    var uHi, uLo := UtilityFunction.RealUtility(w, hi), UtilityFunction.RealUtility(w, lo);
    assert uHi - uLo == w * (hi.quality - lo.quality) - (hi.price - lo.price);
    UtilityFunction.SignOfProductNonNeg(w, hi.quality - lo.quality);
    if lo.price < hi.price && lo.quality < hi.quality {
      UtilityFunction.PreferenceFlipsAtRawLimit(lo, hi, w);
    }
  }

  /**
   * Without a recession the two-offer limit is the one calculateLimit
   * computes from the same offers.
   */
  lemma LimitBetweenIsCalculateLimit(pop: Population, lo: OfferVal, hi: OfferVal)
    requires lo.quality < hi.quality && lo.price < hi.price
    ensures LimitBetween(pop, 0.0, lo, hi)
         == At(UtilityFunction.CalculateLimit(lo.price, lo.quality, hi.price, hi.quality, pop.rawMinWelfare))
  {
  }

  /** The offers on both sides of a limit are well formed for the division. */
  predicate LimitDefined(lo: Option<OfferVal>, hi: Option<OfferVal>)
  {
    hi.None? || lo.Some? || hi.value.quality > 0.0
  }

  /**
   * limitingWelfareParamPerceivedByFirms on optional offers: +infinity
   * without a higher offer, the minimum welfare parameter accepting the
   * higher offer without a lower one, the two-offer limit otherwise.
   */
  function LimitingWelfareParam(pop: Population, magnitude: real,
                                lo: Option<OfferVal>, hi: Option<OfferVal>): (r: Limit)
    requires LimitDefined(lo, hi)
    ensures hi.None? ==> r == Infinity
    ensures hi.Some? && lo.None? ==>
      r == At(UtilityFunction.MinWelfareParamAcceptingOffer(hi.value, RecessionsHandler.Scaled(pop.rawMinWelfare, magnitude)))
    ensures hi.Some? && lo.Some? ==> r == LimitBetween(pop, magnitude, lo.value, hi.value)
    ensures 0.0 <= magnitude < 1.0 && r.At? ==> r.w >= RecessionsHandler.Scaled(pop.rawMinWelfare, magnitude)
  {
    if hi.None? then Infinity
    else if lo.None? then
      At(UtilityFunction.MinWelfareParamAcceptingOffer(hi.value, RecessionsHandler.Scaled(pop.rawMinWelfare, magnitude)))
    else LimitBetween(pop, magnitude, lo.value, hi.value)
  }

  /**
   * getExpectedQuantity: consumers above the offer's lower limit minus those
   * above its upper limit, or 0 when that difference is not positive.
   */
  function ExpectedQuantity(pop: Population, magnitude: real, seg: OfferVal,
                            lo: Option<OfferVal>, hi: Option<OfferVal>,
                            pow: (real, real) -> real): (r: real)
    requires pop.rawMinWelfare > 0.0
    requires LimitDefined(lo, Some(seg)) && LimitDefined(Some(seg), hi)
    ensures r >= 0.0
    ensures var above := ExpectedConsumersAbove(pop, LimitingWelfareParam(pop, magnitude, lo, Some(seg)), pow);
            var beyond := ExpectedConsumersAbove(pop, LimitingWelfareParam(pop, magnitude, Some(seg), hi), pow);
            (r > 0.0 <==> above > beyond) && (r > 0.0 ==> r + beyond == above)
  {
    var above := ExpectedConsumersAbove(pop, LimitingWelfareParam(pop, magnitude, lo, Some(seg)), pow);
    var beyond := ExpectedConsumersAbove(pop, LimitingWelfareParam(pop, magnitude, Some(seg), hi), pow);
    if above > beyond then above - beyond else 0.0
  }

  /** No offer expects more consumers than the market has. */
  lemma {:induction false} ExpectedQuantityBounded(pop: Population, magnitude: real, seg: OfferVal,
                                                   lo: Option<OfferVal>, hi: Option<OfferVal>,
                                                   pow: (real, real) -> real)
    requires LimitDefined(lo, Some(seg)) && LimitDefined(Some(seg), hi)
    requires pop.rawMinWelfare > 0.0 && ParetoTail(pow, pop.lambda)
    ensures ExpectedQuantity(pop, magnitude, seg, lo, hi, pow) <= pop.mktSize as real
  {
    ConsumersAboveBounds(pop, LimitingWelfareParam(pop, magnitude, lo, Some(seg)), pow);
    ConsumersAboveBounds(pop, LimitingWelfareParam(pop, magnitude, Some(seg), hi), pow);
  }

  /**
   * An offer whose upper limit is not above its lower limit is squeezed
   * out: it expects no demand.
   */
  lemma {:induction false} SqueezedOfferHasNoDemand(pop: Population, magnitude: real, seg: OfferVal,
                                                    lo: Option<OfferVal>, hi: Option<OfferVal>,
                                                    pow: (real, real) -> real)
    requires LimitDefined(lo, Some(seg)) && LimitDefined(Some(seg), hi)
    requires pop.rawMinWelfare > 0.0 && ParetoTail(pow, pop.lambda)
    requires AtMost(LimitingWelfareParam(pop, magnitude, Some(seg), hi), LimitingWelfareParam(pop, magnitude, lo, Some(seg)))
    ensures ExpectedQuantity(pop, magnitude, seg, lo, hi, pow) == 0.0
  {
    ConsumersAboveAntitone(pop, LimitingWelfareParam(pop, magnitude, Some(seg), hi),
                           LimitingWelfareParam(pop, magnitude, lo, Some(seg)), pow);
  }

  /**
   * getMinPrice: above the unit cost by at least one price unit, not below
   * what the poorest consumer pays, rounded CEILING to the price scale. The
   * poorest consumer's price (getMaxPriceForPoorestConsumer) is quality
   * times the recession-scaled minimum, rounded FLOOR.
   */
  function MinPrice(pop: Population, magnitude: real, cost: real, perceivedQ: real, priceScale: nat): (r: real)
    ensures r >= cost + Rounding.Unit(priceScale)
    ensures r >= UtilityFunction.MaxPriceForPoorestConsumer(perceivedQ, RecessionsHandler.Scaled(pop.rawMinWelfare, magnitude), priceScale)
    ensures Rounding.OnGrid(r, priceScale)
  {
    var costPlus := cost + Rounding.Unit(priceScale);
    var pricePoorest := UtilityFunction.MaxPriceForPoorestConsumer(perceivedQ, RecessionsHandler.Scaled(pop.rawMinWelfare, magnitude), priceScale);
    Rounding.Ceiling(MaxReal(costPlus, pricePoorest), priceScale)
  }

  /**
   * The minimum price is the least grid price meeting both floors.
   */
  lemma {:induction false} MinPriceIsLeast(pop: Population, magnitude: real, cost: real, perceivedQ: real,
                                          priceScale: nat, p: real)
    requires Rounding.OnGrid(p, priceScale)
    requires p >= cost + Rounding.Unit(priceScale)
    requires p >= UtilityFunction.MaxPriceForPoorestConsumer(perceivedQ, RecessionsHandler.Scaled(pop.rawMinWelfare, magnitude), priceScale)
    ensures MinPrice(pop, magnitude, cost, perceivedQ, priceScale) <= p
  {
    var costPlus := cost + Rounding.Unit(priceScale);
    var pricePoorest := UtilityFunction.MaxPriceForPoorestConsumer(perceivedQ, RecessionsHandler.Scaled(pop.rawMinWelfare, magnitude), priceScale);
    Rounding.CeilingIsLeast(MaxReal(costPlus, pricePoorest), p, priceScale);
  }

  /** The k-th quality visited from q moving down by delta each time. */
  function DownRung(q: real, k: nat, delta: real): real
  {
    q - k as real * delta
  }

  /** The k-th quality visited from q moving up by delta each time. */
  function UpRung(q: real, k: nat, delta: real): real
  {
    q + k as real * delta
  }

  lemma RungNext(q: real, k: nat, delta: real)
    ensures DownRung(q, k + 1, delta) == DownRung(q - delta, k, delta) == DownRung(q, k, delta) - delta
    ensures UpRung(q, k + 1, delta) == UpRung(q + delta, k, delta) == UpRung(q, k, delta) + delta
  {
  }

  /** The occupied qualities at or below q. */
  function AtOrBelow(occupied: set<real>, q: real): set<real>
  {
    set o | o in occupied && o <= q
  }

  /** The occupied qualities at or above q. */
  function AtOrAbove(occupied: set<real>, q: real): set<real>
  {
    set o | o in occupied && o >= q
  }

  lemma AtOrBelowShrinks(occupied: set<real>, q: real, q': real)
    requires q in occupied && q' < q
    ensures AtOrBelow(occupied, q') < AtOrBelow(occupied, q)
  {
    assert q in AtOrBelow(occupied, q) && q !in AtOrBelow(occupied, q');
  }

  lemma AtOrAboveShrinks(occupied: set<real>, q: real, q': real)
    requires q in occupied && q < q'
    ensures AtOrAbove(occupied, q') < AtOrAbove(occupied, q)
  {
    assert q in AtOrAbove(occupied, q) && q !in AtOrAbove(occupied, q');
  }

  /**
   * The number of steps the downward search takes: it walks down one
   * quality unit at a time while the quality is occupied and above the
   * minimum.
   */
  function DownSteps(occupied: set<real>, q: real, delta: real, minQ: real): (k: nat)
    requires delta > 0.0
    ensures forall j :: 0 <= j < k ==> DownRung(q, j, delta) in occupied && DownRung(q, j, delta) > minQ
    ensures !(DownRung(q, k, delta) in occupied && DownRung(q, k, delta) > minQ)
    decreases AtOrBelow(occupied, q)
  {
    if q in occupied && q > minQ then
      AtOrBelowShrinks(occupied, q, q - delta);
      var k := DownSteps(occupied, q - delta, delta, minQ);
      DownStepsShift(occupied, q, delta, minQ, k, q - delta);
      k + 1
    else 0
  }

  lemma DownStepsShift(occupied: set<real>, q: real, delta: real, minQ: real, k: nat, next: real)
    requires next == q - delta
    requires q in occupied && q > minQ
    requires forall j :: 0 <= j < k ==> DownRung(next, j, delta) in occupied && DownRung(next, j, delta) > minQ
    requires !(DownRung(next, k, delta) in occupied && DownRung(next, k, delta) > minQ)
    ensures forall j :: 0 <= j < k + 1 ==> DownRung(q, j, delta) in occupied && DownRung(q, j, delta) > minQ
    ensures !(DownRung(q, k + 1, delta) in occupied && DownRung(q, k + 1, delta) > minQ)
  {
    forall j | 0 <= j < k + 1
      ensures DownRung(q, j, delta) in occupied && DownRung(q, j, delta) > minQ
    {
      if j > 0 {
        RungNext(q, j - 1, delta);
        assert DownRung(q, j, delta) == DownRung(next, j - 1, delta);
      } else {
        assert DownRung(q, j, delta) == q;
      }
    }
    RungNext(q, k, delta);
    assert DownRung(q, k + 1, delta) == DownRung(next, k, delta);
  }

  /**
   * The number of steps the upward search takes: it walks up one quality
   * unit at a time while the quality is occupied and, when there is a
   * bound, below it.
   */
  function UpSteps(occupied: set<real>, q: real, delta: real, maxQ: Option<real>): (k: nat)
    requires delta > 0.0
    ensures forall j :: 0 <= j < k ==> UpRung(q, j, delta) in occupied && BelowBound(UpRung(q, j, delta), maxQ)
    ensures !(UpRung(q, k, delta) in occupied && BelowBound(UpRung(q, k, delta), maxQ))
    decreases AtOrAbove(occupied, q)
  {
    if q in occupied && BelowBound(q, maxQ) then
      AtOrAboveShrinks(occupied, q, q + delta);
      var k := UpSteps(occupied, q + delta, delta, maxQ);
      UpStepsShift(occupied, q, delta, maxQ, k, q + delta);
      k + 1
    else 0
  }

  /** Below the optional upper bound of a search (always, without one). */
  predicate BelowBound(q: real, maxQ: Option<real>)
  {
    maxQ.None? || q < maxQ.value
  }

  lemma UpStepsShift(occupied: set<real>, q: real, delta: real, maxQ: Option<real>, k: nat, next: real)
    requires next == q + delta
    requires q in occupied && BelowBound(q, maxQ)
    requires forall j :: 0 <= j < k ==> UpRung(next, j, delta) in occupied && BelowBound(UpRung(next, j, delta), maxQ)
    requires !(UpRung(next, k, delta) in occupied && BelowBound(UpRung(next, k, delta), maxQ))
    ensures forall j :: 0 <= j < k + 1 ==> UpRung(q, j, delta) in occupied && BelowBound(UpRung(q, j, delta), maxQ)
    ensures !(UpRung(q, k + 1, delta) in occupied && BelowBound(UpRung(q, k + 1, delta), maxQ))
  {
    forall j | 0 <= j < k + 1
      ensures UpRung(q, j, delta) in occupied && BelowBound(UpRung(q, j, delta), maxQ)
    {
      if j > 0 {
        RungNext(q, j - 1, delta);
        assert UpRung(q, j, delta) == UpRung(next, j - 1, delta);
      } else {
        assert UpRung(q, j, delta) == q;
      }
    }
    RungNext(q, k, delta);
    assert UpRung(q, k + 1, delta) == UpRung(next, k, delta);
  }

  /** Where the downward search stops. */
  function DownStop(occupied: set<real>, q: real, qualityScale: nat): real
  {
    DownRung(q, DownSteps(occupied, q, Rounding.Unit(qualityScale), Rounding.Unit(qualityScale)), Rounding.Unit(qualityScale))
  }

  /** Where the unbounded upward search stops. */
  function UpStop(occupied: set<real>, q: real, qualityScale: nat): real
  {
    UpRung(q, UpSteps(occupied, q, Rounding.Unit(qualityScale), None), Rounding.Unit(qualityScale))
  }

  /**
   * getDownWardClosestAvailableQuality: walk down from q while occupied and
   * above the minimum quality (one quality unit); empty if the stop is
   * still occupied, else the stop rounded HALF_UP.
   */
  method DownwardClosestAvailableQuality(occupied: set<real>, q0: real, qualityScale: nat)
    returns (r: Option<real>)
    ensures r == if DownStop(occupied, q0, qualityScale) in occupied then None
                 else Some(Rounding.HalfUp(DownStop(occupied, q0, qualityScale), qualityScale))
  {
    var minQ := Rounding.Unit(qualityScale);
    var delta := Rounding.Unit(qualityScale);
    var q := q0;
    ghost var k: nat := 0;
    while q in occupied && q > minQ
      invariant q == DownRung(q0, k, delta)
      invariant DownSteps(occupied, q0, delta, minQ) == k + DownSteps(occupied, q, delta, minQ)
      decreases AtOrBelow(occupied, q)
    {
      AtOrBelowShrinks(occupied, q, q - delta);
      RungNext(q0, k, delta);
      q := q - delta;
      k := k + 1;
    }
    if q in occupied {
      r := None;
    } else {
      r := Some(Rounding.HalfUp(q, qualityScale));
    }
  }

  /**
   * getUpWardClosestAvailableQuality: walk up from q while occupied; the
   * stop, rounded HALF_UP, is always returned.
   */
  method UpwardClosestAvailableQuality(occupied: set<real>, q0: real, qualityScale: nat)
    returns (r: Option<real>)
    ensures r == Some(Rounding.HalfUp(UpStop(occupied, q0, qualityScale), qualityScale))
  {
    var delta := Rounding.Unit(qualityScale);
    var q := q0;
    ghost var k: nat := 0;
    while q in occupied
      invariant q == UpRung(q0, k, delta)
      invariant UpSteps(occupied, q0, delta, None) == k + UpSteps(occupied, q, delta, None)
      decreases AtOrAbove(occupied, q)
    {
      AtOrAboveShrinks(occupied, q, q + delta);
      RungNext(q0, k, delta);
      q := q + delta;
      k := k + 1;
    }
    r := Some(Rounding.HalfUp(q, qualityScale));
  }

  /** Rungs from a grid quality, one quality unit apart, stay on the grid. */
  lemma RungOnGrid(q: real, k: nat, scale: nat)
    requires Rounding.OnGrid(q, scale)
    ensures Rounding.OnGrid(UpRung(q, k, Rounding.Unit(scale)), scale)
    ensures Rounding.OnGrid(DownRung(q, k, Rounding.Unit(scale)), scale)
    ensures DownRung(q, k, Rounding.Unit(scale)) <= q <= UpRung(q, k, Rounding.Unit(scale))
  {
    UpRungOnGrid(q, k, scale);
    DownRungOnGrid(q, k, scale);
  }

  lemma UpRungOnGrid(q: real, k: nat, scale: nat)
    requires Rounding.OnGrid(q, scale)
    ensures Rounding.OnGrid(UpRung(q, k, Rounding.Unit(scale)), scale)
    ensures q <= UpRung(q, k, Rounding.Unit(scale))
  {
    Rounding.OnGridShift(q, k, scale);
    StepNonNegative(k, Rounding.Unit(scale));
  }

  lemma DownRungOnGrid(q: real, k: nat, scale: nat)
    requires Rounding.OnGrid(q, scale)
    ensures Rounding.OnGrid(DownRung(q, k, Rounding.Unit(scale)), scale)
    ensures DownRung(q, k, Rounding.Unit(scale)) <= q
  {
    Rounding.OnGridShiftDown(q, k, scale);
    StepNonNegative(k, Rounding.Unit(scale));
  }

  lemma StepNonNegative(k: nat, u: real)
    requires u > 0.0
    ensures k as real * u >= 0.0
  {
  }

  /**
   * From a start on the quality grid, the downward search yields a free
   * quality at or below the start, at least the minimum quality when the
   * start is; and it is empty only when every quality from the start down
   * to where it stopped, at or below the minimum, is occupied.
   */
  lemma {:induction false} DownwardSearchMeaning(occupied: set<real>, q0: real, qualityScale: nat)
    requires Rounding.OnGrid(q0, qualityScale)
    ensures var stop := DownStop(occupied, q0, qualityScale);
      stop <= q0 &&
      (q0 >= Rounding.Unit(qualityScale) ==> stop >= Rounding.Unit(qualityScale)) &&
      (stop !in occupied ==> Rounding.HalfUp(stop, qualityScale) == stop) &&
      (stop in occupied ==> stop <= Rounding.Unit(qualityScale))
  {
    var u := Rounding.Unit(qualityScale);
    var k := DownSteps(occupied, q0, u, u);
    RungOnGrid(q0, k, qualityScale);
    if k > 0 && q0 >= u {
      DownLastStepAboveMinimum(occupied, q0, qualityScale);
    }
    if DownStop(occupied, q0, qualityScale) !in occupied {
      Rounding.HalfUpOnGrid(DownStop(occupied, q0, qualityScale), qualityScale);
    }
  }

  lemma DownLastStepAboveMinimum(occupied: set<real>, q0: real, qualityScale: nat)
    requires Rounding.OnGrid(q0, qualityScale)
    requires DownSteps(occupied, q0, Rounding.Unit(qualityScale), Rounding.Unit(qualityScale)) > 0
    ensures DownStop(occupied, q0, qualityScale) >= Rounding.Unit(qualityScale)
  {
    var u := Rounding.Unit(qualityScale);
    var k := DownSteps(occupied, q0, u, u);
    var prev := DownRung(q0, k - 1, u);
    assert prev > u;
    RungNext(q0, k - 1, u);
    RungOnGrid(q0, k - 1, qualityScale);
    Rounding.UnitOnGrid(qualityScale);
    Rounding.GridGap(u, prev, qualityScale);
  }

  /**
   * From a start on the quality grid, the upward search always yields a
   * free quality at or above the start.
   */
  lemma {:induction false} UpwardSearchMeaning(occupied: set<real>, q0: real, qualityScale: nat)
    requires Rounding.OnGrid(q0, qualityScale)
    ensures var stop := UpStop(occupied, q0, qualityScale);
      stop !in occupied && stop >= q0 && Rounding.HalfUp(stop, qualityScale) == stop
  {
    var k := UpSteps(occupied, q0, Rounding.Unit(qualityScale), None);
    RungOnGrid(q0, k, qualityScale);
    Rounding.HalfUpOnGrid(UpStop(occupied, q0, qualityScale), qualityScale);
  }
}
