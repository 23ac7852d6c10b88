// The offer of a firm (price, quality) with the rounding its setters apply:
// prices HALF_DOWN to the price scale, qualities HALF_UP to the quality
// scale. The minimum price and the free-quality searches of this class are
// the ones in module Consumers.
module FirmsOffer {
  import opened Wrappers
  import opened Values
  import Rounding

  /** The smallest price and quality steps (minDeltaPrice, minDeltaQuality). */
  function MinDelta(scale: nat): (d: real)
    ensures d > 0.0 && Rounding.OnGrid(d, scale)
    ensures forall a, b :: Rounding.OnGrid(a, scale) && Rounding.OnGrid(b, scale) && a < b ==> a + d <= b
  {
    Rounding.UnitOnGrid(scale);
    forall a, b | Rounding.OnGrid(a, scale) && Rounding.OnGrid(b, scale) && a < b
      ensures a + Rounding.Unit(scale) <= b
    {
      Rounding.GridGap(a, b, scale);
    }
    Rounding.Unit(scale)
  }

  class Offer {
    const priceScale: nat
    const qualityScale: nat
    var quality: real
    var price: real

    /** Both fields on their grids, as every setter leaves them. */
    predicate Valid()
      reads this
    {
      Rounding.OnGrid(price, priceScale) && Rounding.OnGrid(quality, qualityScale)
    }

    function Value(): OfferVal
      reads this
    {
      OfferVal(price, quality)
    }

    /** Offer(): price and quality start at zero. */
    constructor Default(priceScale: nat, qualityScale: nat)
      ensures this.priceScale == priceScale && this.qualityScale == qualityScale
      ensures price == 0.0 && quality == 0.0
      ensures Valid()
    {
      this.priceScale := priceScale;
      this.qualityScale := qualityScale;
      quality := 0.0;
      price := 0.0;
      new;
      Rounding.OnGridOfInt(0, priceScale);
      Rounding.OnGridOfInt(0, qualityScale);
    }

    /** Offer(p, q): both values go through the rounding setters. */
    constructor (p: real, q: real, priceScale: nat, qualityScale: nat)
      ensures this.priceScale == priceScale && this.qualityScale == qualityScale
      ensures quality == Rounding.HalfUp(q, qualityScale)
      ensures price == Rounding.HalfDown(p, priceScale)
      ensures Valid()
    {
      this.priceScale := priceScale;
      this.qualityScale := qualityScale;
      quality := Rounding.HalfUp(q, qualityScale);
      price := Rounding.HalfDown(p, priceScale);
    }

    /** Offer(offer): a copy; a valid offer is copied exactly. */
    constructor Copy(other: Offer)
      ensures priceScale == other.priceScale && qualityScale == other.qualityScale
      ensures quality == Rounding.HalfUp(other.quality, other.qualityScale)
      ensures price == Rounding.HalfDown(other.price, other.priceScale)
      ensures other.Valid() ==> Value() == other.Value()
      ensures Valid()
    {
      priceScale := other.priceScale;
      qualityScale := other.qualityScale;
      quality := Rounding.HalfUp(other.quality, other.qualityScale);
      price := Rounding.HalfDown(other.price, other.priceScale);
      new;
      if other.Valid() {
        Rounding.HalfUpOnGrid(other.quality, other.qualityScale);
        Rounding.HalfDownOnGrid(other.price, other.priceScale);
      }
    }

    /** setQuality: rounds HALF_UP to the quality scale; the price is kept. */
    method SetQuality(q: real)
      modifies this
      ensures quality == Rounding.HalfUp(q, qualityScale) && price == old(price)
      ensures old(Rounding.OnGrid(price, priceScale)) ==> Valid()
    {
      quality := Rounding.HalfUp(q, qualityScale);
    }

    /** setPrice: rounds HALF_DOWN to the price scale; the quality is kept. */
    method SetPrice(p: real)
      modifies this
      ensures price == Rounding.HalfDown(p, priceScale) && quality == old(quality)
      ensures old(Rounding.OnGrid(quality, qualityScale)) ==> Valid()
    {
      price := Rounding.HalfDown(p, priceScale);
    }
  }

  /**
   * Setting a value the setters produced again changes nothing: both
   * roundings are idempotent.
   */
  lemma {:induction false} SetterRoundingIsStable(p: real, q: real, priceScale: nat, qualityScale: nat)
    ensures Rounding.HalfDown(Rounding.HalfDown(p, priceScale), priceScale) == Rounding.HalfDown(p, priceScale)
    ensures Rounding.HalfUp(Rounding.HalfUp(q, qualityScale), qualityScale) == Rounding.HalfUp(q, qualityScale)
  {
    Rounding.HalfDownOnGrid(Rounding.HalfDown(p, priceScale), priceScale);
    Rounding.HalfUpOnGrid(Rounding.HalfUp(q, qualityScale), qualityScale);
  }

  /**
   * equivalentOffers on optional offers: two empties are equivalent, one
   * empty is not, two present offers are when price and quality compare
   * equal.
   */
  function EquivalentOffers(lo: Option<OfferVal>, hi: Option<OfferVal>): (r: bool)
    ensures r <==> lo == hi
  {
    if lo.None? && hi.None? then true
    else if lo.None? || hi.None? then false
    else lo.value.price == hi.value.price && lo.value.quality == hi.value.quality
  }
}
