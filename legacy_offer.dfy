// The older offer class: both setters round HALF_DOWN, `limit` returns the
// welfare parameter dividing the consumers of two offers (with errors for
// inconsistent arguments), `minus` gives the delta between two offers, and
// the free-quality searches are bounded on both sides and return the
// quality unrounded.
module LegacyOffer {
  import opened Wrappers
  import opened Values
  import Rounding
  import Consumers
  import FirmsOffer
  import DeltaOffer

  /** An error raised by `limit` (java.lang.Error). */
  datatype LimitError = OffersShouldBeDifferent | QualityOrder | InconsistentLow | InconsistentHigh

  datatype Result<T> = Ok(value: T) | Fail(error: LimitError)

  class Offer {
    const priceScale: nat
    const qualityScale: nat
    var quality: real
    var price: real

    function Value(): OfferVal
      reads this
    {
      OfferVal(price, quality)
    }

    /** Offer(p, q): both values go through the HALF_DOWN setters. */
    constructor (p: real, q: real, priceScale: nat, qualityScale: nat)
      ensures this.priceScale == priceScale && this.qualityScale == qualityScale
      ensures Value() == Rounded(OfferVal(p, q), priceScale, qualityScale)
    {
      this.priceScale := priceScale;
      this.qualityScale := qualityScale;
      quality := Rounding.HalfDown(q, qualityScale);
      price := Rounding.HalfDown(p, priceScale);
    }

    /** Offer(offer): a copy through the setters. */
    constructor Copy(other: Offer)
      ensures priceScale == other.priceScale && qualityScale == other.qualityScale
      ensures Value() == Rounded(other.Value(), other.priceScale, other.qualityScale)
    {
      priceScale := other.priceScale;
      qualityScale := other.qualityScale;
      quality := Rounding.HalfDown(other.quality, other.qualityScale);
      price := Rounding.HalfDown(other.price, other.priceScale);
    }

    /** setQuality: rounds HALF_DOWN to the quality scale. */
    method SetQuality(q: real)
      modifies this
      ensures quality == Rounding.HalfDown(q, qualityScale) && price == old(price)
    {
      quality := Rounding.HalfDown(q, qualityScale);
    }

    /** setPrice: rounds HALF_DOWN to the price scale. */
    method SetPrice(p: real)
      modifies this
      ensures price == Rounding.HalfDown(p, priceScale) && quality == old(quality)
    {
      price := Rounding.HalfDown(p, priceScale);
    }
  }

  /** What the setters store for an offer: both components HALF_DOWN. */
  function Rounded(o: OfferVal, priceScale: nat, qualityScale: nat): (r: OfferVal)
    ensures Rounding.OnGrid(r.price, priceScale) && Rounding.OnGrid(r.quality, qualityScale)
    ensures Rounding.OnGrid(o.price, priceScale) && Rounding.OnGrid(o.quality, qualityScale) ==> r == o
  {
    Rounding.HalfDownOnGridIfOnGrid(o.price, priceScale);
    Rounding.HalfDownOnGridIfOnGrid(o.quality, qualityScale);
    OfferVal(Rounding.HalfDown(o.price, priceScale), Rounding.HalfDown(o.quality, qualityScale))
  }

  /**
   * limit on two optional offers. minMargUtil is the minimum marginal
   * utility of quality and minAccepting the minimum one accepting an offer;
   * both come from the consumers and enter as parameters.
   */
  function Limit(lo: Option<OfferVal>, hi: Option<OfferVal>, minMargUtil: real,
                 minAccepting: OfferVal -> real): (r: Result<Values.Limit>)
    ensures r.Fail? <==> lo == hi || (lo.Some? && hi.Some? && lo.value.quality > hi.value.quality)
    ensures r.Ok? && lo.None? ==> r.value == At(minAccepting(hi.value))
    ensures r.Ok? && hi.None? ==> r.value == Infinity
    ensures r.Ok? && lo.Some? && hi.Some? && r.value.At? ==>
      r.value.w >= minMargUtil && (r.value.w == minMargUtil || hi.value.price > lo.value.price)
  {
    if FirmsOffer.EquivalentOffers(lo, hi) then Fail(OffersShouldBeDifferent)
    else if lo.None? then Ok(At(minAccepting(hi.value)))
    else if hi.None? then Ok(Infinity)
    else
      var loQ, hiQ := lo.value.quality, hi.value.quality;
      var loP, hiP := lo.value.price, hi.value.price;
      if loQ > hiQ then Fail(QualityOrder)
      else if loP >= hiP then Ok(At(minMargUtil))
      else if loQ == hiQ then Ok(Infinity)
      else Ok(At(MaxReal((hiP - loP) / (hiQ - loQ), minMargUtil)))
  }

  /**
   * On two distinct, correctly ordered offers the legacy limit is the
   * consumers' limit without a recession, with the minimum marginal utility
   * being the raw minimum welfare parameter.
   */
  lemma {:induction false} LimitAgreesWithConsumers(pop: Consumers.Population, lo: OfferVal, hi: OfferVal,
                                                   minAccepting: OfferVal -> real)
    requires lo != hi && lo.quality <= hi.quality
    ensures Limit(Some(lo), Some(hi), pop.rawMinWelfare, minAccepting)
         == Ok(Consumers.LimitBetween(pop, 0.0, lo, hi))
  {
    if lo.price < hi.price && lo.quality < hi.quality {
      assert Consumers.LimitBetween(pop, 0.0, lo, hi).w
          == MaxReal(pop.rawMinWelfare, (hi.price - lo.price) / (hi.quality - lo.quality));
    }
  }

  /**
   * limit on boxed doubles, each of which may be null (None), with its first
   * test read as equality of the values, as its message intends (Finding 7;
   * LimitDAsWritten is the reference comparison the source makes).
   */
  function LimitD(loP: Option<real>, loQ: Option<real>, hiP: Option<real>, hiQ: Option<real>,
                  minMargUtil: real, minAccepting: OfferVal -> real,
                  priceScale: nat, qualityScale: nat): (r: Result<Values.Limit>)
    ensures r == Fail(OffersShouldBeDifferent) <==> loP == hiP && loQ == hiQ
    ensures !(loP == hiP && loQ == hiQ) && loP.None? != loQ.None? ==> r == Fail(InconsistentLow)
  {
    if loP == hiP && loQ == hiQ then Fail(OffersShouldBeDifferent)
    else LimitDChecked(loP, loQ, hiP, hiQ, minMargUtil, minAccepting, priceScale, qualityScale)
  }

  /**
   * Everything limit on boxed doubles does after its first test. Its test
   * loQ == hiQ compares references too, but two distinct boxes of one
   * quality fall through to (hiP - loP) / 0.0 with loP < hiP, which is +∞
   * in IEEE arithmetic: the same Infinity as the test's branch.
   */
  function LimitDChecked(loP: Option<real>, loQ: Option<real>, hiP: Option<real>, hiQ: Option<real>,
                         minMargUtil: real, minAccepting: OfferVal -> real,
                         priceScale: nat, qualityScale: nat): (r: Result<Values.Limit>)
    requires !(loP.None? && loQ.None? && hiP.None? && hiQ.None?)
    ensures r != Fail(OffersShouldBeDifferent)
  {
    if loP.None? != loQ.None? then Fail(InconsistentLow)
    else if hiP.None? != hiQ.None? then Fail(InconsistentHigh)
    else if loP.None? then
      Ok(At(minAccepting(Rounded(OfferVal(hiP.value, hiQ.value), priceScale, qualityScale))))
    else if hiP.None? then Ok(Infinity)
    else
      var lp, lq, hp, hq := loP.value, loQ.value, hiP.value, hiQ.value;
      if lq > hq then Fail(QualityOrder)
      else if lp >= hp then Ok(At(minMargUtil))
      else if lq == hq then Ok(Infinity)
      else Ok(At(MaxReal((hp - lp) / (hq - lq), minMargUtil)))
  }

  /**
   * Java's `==` on two boxed Doubles: true when both are null; otherwise
   * true only when they are one object (same), whatever their values.
   */
  predicate SameBox(a: Option<real>, b: Option<real>, same: bool)
  {
    if a.None? || b.None? then a.None? && b.None? else same
  }

  /** One object holds one value: boxes that are the same object are equal and not null. */
  predicate BoxesOk(a: Option<real>, b: Option<real>, same: bool)
  {
    same ==> a.Some? && a == b
  }

  /**
   * limit on boxed doubles as written: its first test compares the boxes
   * by reference, so two equal offers held in distinct boxes pass it.
   * samePrice and sameQuality say whether the two prices, and the two
   * qualities, are one object.
   */
  function LimitDAsWritten(loP: Option<real>, loQ: Option<real>, hiP: Option<real>, hiQ: Option<real>,
                           samePrice: bool, sameQuality: bool,
                           minMargUtil: real, minAccepting: OfferVal -> real,
                           priceScale: nat, qualityScale: nat): (r: Result<Values.Limit>)
    requires BoxesOk(loP, hiP, samePrice) && BoxesOk(loQ, hiQ, sameQuality)
    ensures r == Fail(OffersShouldBeDifferent) <==> SameBox(loP, hiP, samePrice) && SameBox(loQ, hiQ, sameQuality)
    ensures (SameBox(loP, hiP, samePrice) && SameBox(loQ, hiQ, sameQuality)) == (loP == hiP && loQ == hiQ) ==>
              r == LimitD(loP, loQ, hiP, hiQ, minMargUtil, minAccepting, priceScale, qualityScale)
  {
    if SameBox(loP, hiP, samePrice) && SameBox(loQ, hiQ, sameQuality) then Fail(OffersShouldBeDifferent)
    else LimitDChecked(loP, loQ, hiP, hiQ, minMargUtil, minAccepting, priceScale, qualityScale)
  }

  /**
   * Two equal offers in distinct boxes: as written the limit is the minimum
   * marginal utility, where the value comparison raises "Offers should be
   * different".
   */
  lemma DistinctBoxesOfEqualOffers(p: real, q: real, minMargUtil: real, minAccepting: OfferVal -> real,
                                   priceScale: nat, qualityScale: nat)
    ensures LimitDAsWritten(Some(p), Some(q), Some(p), Some(q), false, false, minMargUtil, minAccepting,
                            priceScale, qualityScale) == Ok(At(minMargUtil))
    ensures LimitD(Some(p), Some(q), Some(p), Some(q), minMargUtil, minAccepting,
                   priceScale, qualityScale) == Fail(OffersShouldBeDifferent)
  {
  }

  /** Splits an optional offer into the optional price and quality. */
  function PriceOf(o: Option<OfferVal>): Option<real>
  {
    if o.Some? then Some(o.value.price) else None
  }

  function QualityOf(o: Option<OfferVal>): Option<real>
  {
    if o.Some? then Some(o.value.quality) else None
  }

  /**
   * Both overloads agree: the double overload on the components of two
   * optional offers gives what the offer overload gives, once the higher
   * offer is on the grids (it is rebuilt through the rounding setters when
   * the lower one is missing).
   */
  lemma {:induction false} LimitOverloadsAgree(lo: Option<OfferVal>, hi: Option<OfferVal>, minMargUtil: real,
                                              minAccepting: OfferVal -> real, priceScale: nat, qualityScale: nat)
    requires hi.Some? ==> Rounding.OnGrid(hi.value.price, priceScale) && Rounding.OnGrid(hi.value.quality, qualityScale)
    ensures LimitD(PriceOf(lo), QualityOf(lo), PriceOf(hi), QualityOf(hi), minMargUtil, minAccepting, priceScale, qualityScale)
         == Limit(lo, hi, minMargUtil, minAccepting)
  {
    if lo.Some? && hi.Some? && lo != hi {
      assert !(PriceOf(lo) == PriceOf(hi) && QualityOf(lo) == QualityOf(hi));
    }
  }

  /** minus(a, b): the delta a - b, as a new DeltaOffer. */
  method Minus(a: Offer, b: Offer) returns (d: DeltaOffer.DeltaOffer)
    ensures fresh(d)
    ensures d.Value() == MinusValue(a.Value(), b.Value())
  {
    d := new DeltaOffer.DeltaOffer(a.price - b.price, a.quality - b.quality);
  }

  /** The delta from b to a: adding it to b gives back a. */
  function MinusValue(a: OfferVal, b: OfferVal): (r: DeltaOffer.Delta)
    ensures OfferVal(b.price + r.dPrice, b.quality + r.dQuality) == a
  {
    DeltaOffer.Delta(a.price - b.price, a.quality - b.quality)
  }

  /**
   * getDownWardClosestAvailableQuality: walk down one quality unit at a
   * time while occupied and above the minimum quality; null (None) if the
   * stop is still occupied, else the stop itself, unrounded.
   */
  method DownwardClosestAvailableQuality(occupied: set<real>, q0: real, qualityScale: nat)
    returns (r: Option<real>)
    ensures r == if Consumers.DownStop(occupied, q0, qualityScale) in occupied then None
                 else Some(Consumers.DownStop(occupied, q0, qualityScale))
  {
    var minQ := Rounding.Unit(qualityScale);
    var delta := Rounding.Unit(qualityScale);
    var q := q0;
    ghost var k: nat := 0;
    while q in occupied && q > minQ
      invariant q == Consumers.DownRung(q0, k, delta)
      invariant Consumers.DownSteps(occupied, q0, delta, minQ) == k + Consumers.DownSteps(occupied, q, delta, minQ)
      decreases Consumers.AtOrBelow(occupied, q)
    {
      Consumers.AtOrBelowShrinks(occupied, q, q - delta);
      Consumers.RungNext(q0, k, delta);
      q := q - delta;
      k := k + 1;
    }
    if q in occupied {
      r := None;
    } else {
      r := Some(q);
    }
  }

  /** Where the upward search bounded by maxQuality stops. */
  function BoundedUpStop(occupied: set<real>, q: real, qualityScale: nat, maxQuality: real): real
  {
    Consumers.UpRung(q, Consumers.UpSteps(occupied, q, Rounding.Unit(qualityScale), Some(maxQuality)), Rounding.Unit(qualityScale))
  }

  /**
   * getUpWardClosestAvailableQuality: walk up one quality unit at a time
   * while occupied and below the maximum quality; null (None) if the stop
   * is still occupied, else the stop.
   */
  method UpwardClosestAvailableQuality(occupied: set<real>, q0: real, qualityScale: nat, maxQuality: real)
    returns (r: Option<real>)
    ensures r == if BoundedUpStop(occupied, q0, qualityScale, maxQuality) in occupied then None
                 else Some(BoundedUpStop(occupied, q0, qualityScale, maxQuality))
  {
    var delta := Rounding.Unit(qualityScale);
    var q := q0;
    ghost var k: nat := 0;
    while q in occupied && q < maxQuality
      invariant q == Consumers.UpRung(q0, k, delta)
      invariant Consumers.UpSteps(occupied, q0, delta, Some(maxQuality)) == k + Consumers.UpSteps(occupied, q, delta, Some(maxQuality))
      decreases Consumers.AtOrAbove(occupied, q)
    {
      Consumers.AtOrAboveShrinks(occupied, q, q + delta);
      Consumers.RungNext(q0, k, delta);
      q := q + delta;
      k := k + 1;
    }
    if q in occupied {
      r := None;
    } else {
      r := Some(q);
    }
  }

  /**
   * The bounded upward search returns null only when it reached the
   * maximum quality still occupied; a returned quality is free, at or above
   * the start and, for a grid start at most the maximum on the grid, at most
   * that maximum.
   */
  lemma {:induction false} UpwardSearchMeaning(occupied: set<real>, q0: real, qualityScale: nat, maxQuality: real)
    requires Rounding.OnGrid(q0, qualityScale)
    ensures var stop := BoundedUpStop(occupied, q0, qualityScale, maxQuality);
      stop >= q0 &&
      (stop in occupied ==> stop >= maxQuality) &&
      (Rounding.OnGrid(maxQuality, qualityScale) && q0 <= maxQuality ==> stop <= maxQuality)
  {
    var u := Rounding.Unit(qualityScale);
    var k := Consumers.UpSteps(occupied, q0, u, Some(maxQuality));
    Consumers.RungOnGrid(q0, k, qualityScale);
    if k > 0 && Rounding.OnGrid(maxQuality, qualityScale) {
      var prev := Consumers.UpRung(q0, k - 1, u);
      assert prev < maxQuality;
      Consumers.RungNext(q0, k - 1, u);
      Consumers.RungOnGrid(q0, k - 1, qualityScale);
      Rounding.GridGap(prev, maxQuality, qualityScale);
    }
  }
}
