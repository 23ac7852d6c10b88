// A change of offer (price and quality deltas) and the comparison of the
// directions of two such changes.
module DeltaOffer {
  import opened Wrappers

  /** The two deltas as a value. */
  datatype Delta = Delta(dPrice: real, dQuality: real)

  /** How the directions of two deltas relate. */
  datatype DeltaOfferSignCompare = BothUnequal | UnequalQuality | UnequalPrice | BothEqual

  /** A mutable pair of price and quality deltas. */
  class DeltaOffer {
    var deltaPrice: real
    var deltaQuality: real

    /** DeltaOffer(dP, dQ): stores both deltas through the setters. */
    constructor (dP: real, dQ: real)
      ensures deltaPrice == dP && deltaQuality == dQ
    {
      deltaPrice := dP;
      deltaQuality := dQ;
    }

    /** DeltaOffer(): both deltas zero. */
    constructor Zero()
      ensures deltaPrice == 0.0 && deltaQuality == 0.0
    {
      deltaPrice := 0.0;
      deltaQuality := 0.0;
    }

    function Value(): Delta
      reads this
    {
      Delta(deltaPrice, deltaQuality)
    }

    method SetDeltaPrice(dP: real)
      modifies this
      ensures deltaPrice == dP && deltaQuality == old(deltaQuality)
    {
      deltaPrice := dP;
    }

    method SetDeltaQuality(dQ: real)
      modifies this
      ensures deltaQuality == dQ && deltaPrice == old(deltaPrice)
    {
      deltaQuality := dQ;
    }

    method GetDeltaPrice() returns (dP: real)
      ensures dP == deltaPrice
    {
      dP := deltaPrice;
    }

    method GetDeltaQuality() returns (dQ: real)
      ensures dQ == deltaQuality
    {
      dQ := deltaQuality;
    }
  }

  /**
   * deltaOfferCompare: multiplies the signs of the two price deltas and of
   * the two quality deltas; -1 means the deltas point in opposite
   * directions.
   */
  function DeltaOfferCompare(d1: Delta, d2: Delta): (r: DeltaOfferSignCompare)
    ensures r == BothUnequal <==> d1.dPrice * d2.dPrice < 0.0 && d1.dQuality * d2.dQuality < 0.0
    ensures r == UnequalQuality <==> d1.dPrice * d2.dPrice > 0.0 && d1.dQuality * d2.dQuality < 0.0
    ensures r == UnequalPrice <==> d1.dPrice * d2.dPrice < 0.0 && d1.dQuality * d2.dQuality > 0.0
  {
    var priceSign := Sign(d1.dPrice) * Sign(d2.dPrice);
    var qualitySign := Sign(d1.dQuality) * Sign(d2.dQuality);
    SignOfProduct(d1.dPrice, d2.dPrice);
    SignOfProduct(d1.dQuality, d2.dQuality);
    if priceSign == -1 && qualitySign == -1 then BothUnequal
    else if priceSign == 1 && qualitySign == -1 then UnequalQuality
    else if priceSign == -1 && qualitySign == 1 then UnequalPrice
    else BothEqual
  }

  lemma SignOfProduct(a: real, b: real)
    ensures Sign(a) * Sign(b) == -1 <==> a * b < 0.0
    ensures Sign(a) * Sign(b) == 1 <==> a * b > 0.0
  {
    if a > 0.0 && b < 0.0 {
      assert a * (-b) > 0.0;
    } else if a < 0.0 && b > 0.0 {
      assert (-a) * b > 0.0;
    } else if a < 0.0 && b < 0.0 {
      assert (-a) * (-b) > 0.0;
    } else if a > 0.0 && b > 0.0 {
      assert a * b > 0.0;
    }
  }

  /**
   * The comparison does not depend on the order of its arguments; a zero
   * delta on either side (no change) always gives BOTH_EQUAL.
   */
  lemma {:induction false} DeltaOfferCompareSymmetric(d1: Delta, d2: Delta)
    ensures DeltaOfferCompare(d1, d2) == DeltaOfferCompare(d2, d1)
    ensures d1.dPrice == 0.0 || d2.dPrice == 0.0 ==> DeltaOfferCompare(d1, d2) == BothEqual
  {
    assert d1.dPrice * d2.dPrice == d2.dPrice * d1.dPrice;
    assert d1.dQuality * d2.dQuality == d2.dQuality * d1.dQuality;
  }
}
