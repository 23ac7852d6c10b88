// The comparators that order firms in the engine's sorted sets and queues.
// `f1.equals(f2)` is object identity, read here as equal ids; a firm seen
// twice through one snapshot has one view (SameFirmSameView).
module Comparators {
  import opened Wrappers
  import opened Values

  /** Two views of one firm (same id) are the same view. */
  predicate SameFirmSameView(f1: FirmView, f2: FirmView)
  {
    f1.id == f2.id ==> f1 == f2
  }

  /**
   * firms.CompareByQ: 0 for the same firm or equal quality, otherwise -1
   * or 1 as the first quality is lower or higher.
   */
  function CompareByQ(f1: FirmView, f2: FirmView): (r: int)
    ensures r == 0 <==> f1.id == f2.id || f1.quality == f2.quality
    ensures r == -1 <==> f1.id != f2.id && f1.quality < f2.quality
    ensures r == 1 <==> f1.id != f2.id && f1.quality > f2.quality
  {
    if f1.id == f2.id || f1.quality == f2.quality then 0
    else if f1.quality < f2.quality then -1 else 1
  }

  /** CompareByQ is antisymmetric, and transitive on the quality order. */
  lemma {:induction false} CompareByQIsOrder(a: FirmView, b: FirmView, c: FirmView)
    requires SameFirmSameView(a, b) && SameFirmSameView(b, c) && SameFirmSameView(a, c)
    ensures CompareByQ(a, b) == -CompareByQ(b, a)
    ensures CompareByQ(a, b) <= 0 && CompareByQ(b, c) <= 0 ==> CompareByQ(a, c) <= 0
  {
  }

  /**
   * firms.FirmComparatorByQ: equivalent offers (a firm against itself
   * included) always give -1; otherwise by quality, and by price at equal
   * quality.
   */
  function FirmComparatorByQ(f1: FirmView, f2: FirmView): (r: int)
    ensures r == -1 || r == 1
    ensures f1.RealOffer() == f2.RealOffer() ==> r == -1
    ensures f1.RealOffer() != f2.RealOffer() ==>
      (r == -1 <==> f1.quality < f2.quality || (f1.quality == f2.quality && f1.price < f2.price))
  {
    if f1.price == f2.price && f1.quality == f2.quality then -1
    else if f1.quality != f2.quality then Sign(f1.quality - f2.quality)
    else Sign(f1.price - f2.price)
  }

  /**
   * FirmComparatorByQ is antisymmetric on different offers, and never
   * reports two firms as equal, not even a firm with itself.
   */
  lemma {:induction false} FirmComparatorByQAntisymmetric(f1: FirmView, f2: FirmView)
    ensures f1.RealOffer() != f2.RealOffer() ==> FirmComparatorByQ(f1, f2) == -FirmComparatorByQ(f2, f1)
    ensures FirmComparatorByQ(f1, f1) == -1
  {
    if f1.RealOffer() != f2.RealOffer() {
      assert FirmComparatorByQ(f2, f1) == -1 <==>
        f2.quality < f1.quality || (f2.quality == f1.quality && f2.price < f1.price);
    }
  }

  /**
   * firms.CompareByPerceivedQ: the qualities come from the owner's view of
   * its competitors (`view`); 0 for the same firm, by viewed quality, and
   * by real quality when the viewed qualities are equal.
   */
  function CompareByPerceivedQ(view: FirmView -> OfferVal, f1: FirmView, f2: FirmView): (r: int)
    ensures r == -1 || r == 0 || r == 1
    ensures f1.id == f2.id ==> r == 0
    ensures f1.id != f2.id && view(f1).quality != view(f2).quality ==>
      (r == -1 <==> view(f1).quality < view(f2).quality)
    ensures f1.id != f2.id && view(f1).quality == view(f2).quality ==>
      (r == -1 <==> f1.quality < f2.quality) && (r == 0 <==> f1.quality == f2.quality)
  {
    if f1.id == f2.id then 0
    else
      var pQ1, pQ2 := view(f1).quality, view(f2).quality;
      if pQ1 == pQ2 then Sign(f1.quality - f2.quality)
      else Sign(pQ1 - pQ2)
  }

  /**
   * CompareByPerceivedQ is antisymmetric, and it orders firms
   * lexicographically by (viewed quality, real quality).
   */
  lemma {:induction false} CompareByPerceivedQAntisymmetric(view: FirmView -> OfferVal, f1: FirmView, f2: FirmView)
    requires SameFirmSameView(f1, f2)
    ensures CompareByPerceivedQ(view, f1, f2) == -CompareByPerceivedQ(view, f2, f1)
    ensures f1.id != f2.id ==>
      (CompareByPerceivedQ(view, f1, f2) < 0 <==>
         view(f1).quality < view(f2).quality ||
         (view(f1).quality == view(f2).quality && f1.quality < f2.quality))
  {
    if f1.id != f2.id {
      var pQ1, pQ2 := view(f1).quality, view(f2).quality;
      assert pQ1 != pQ2 ==> Sign(pQ2 - pQ1) == -Sign(pQ1 - pQ2);
      assert Sign(f2.quality - f1.quality) == -Sign(f1.quality - f2.quality);
    }
  }

  /**
   * FirmsPerceivedQSegments.CompareBy: 0 for the same firm or equal
   * perceived quality, otherwise -1 or 1 by perceived quality.
   */
  function PerceivedQSegmentsCompare(f1: FirmView, f2: FirmView): (r: int)
    ensures r == 0 <==> f1.id == f2.id || f1.perceivedQ == f2.perceivedQ
    ensures r == -1 <==> f1.id != f2.id && f1.perceivedQ < f2.perceivedQ
    ensures r == 1 <==> f1.id != f2.id && f1.perceivedQ > f2.perceivedQ
  {
    if f1.id == f2.id || f1.perceivedQ == f2.perceivedQ then 0
    else if f1.perceivedQ < f2.perceivedQ then -1 else 1
  }

  /** Antisymmetric for every pair of firms. */
  lemma {:induction false} PerceivedQSegmentsCompareAntisymmetric(f1: FirmView, f2: FirmView)
    ensures PerceivedQSegmentsCompare(f1, f2) == -PerceivedQSegmentsCompare(f2, f1)
  {
  }

  /**
   * FirmsRealQSegments.CompareBy: 0 only for the same firm, -1 when the
   * first quality is lower, 1 otherwise.
   */
  function RealQSegmentsCompare(f1: FirmView, f2: FirmView): (r: int)
    ensures r == 0 <==> f1.id == f2.id
    ensures r == -1 <==> f1.id != f2.id && f1.quality < f2.quality
    ensures r == 1 <==> f1.id != f2.id && f1.quality >= f2.quality
  {
    if f1.id == f2.id then 0
    else if f1.quality < f2.quality then -1 else 1
  }

  /**
   * Antisymmetric for different qualities; two distinct firms of equal
   * quality each compare above the other.
   */
  lemma {:induction false} RealQSegmentsCompareTies(f1: FirmView, f2: FirmView)
    requires f1.id != f2.id
    ensures f1.quality != f2.quality ==> RealQSegmentsCompare(f1, f2) == -RealQSegmentsCompare(f2, f1)
    ensures f1.quality == f2.quality ==> RealQSegmentsCompare(f1, f2) == 1 == RealQSegmentsCompare(f2, f1)
  {
  }

  /**
   * optimalPrice.CompareByPriceToExpel: higher price-to-expel first; at
   * equal price-to-expel the lower-priced firm first; 0 only for the same
   * firm. The prices to expel (which may be infinite) enter as `pte`.
   */
  function CompareByPriceToExpel(pte: FirmView -> ExtReal, f1: FirmView, f2: FirmView): (r: int)
    ensures r == 0 <==> f1.id == f2.id
    ensures f1.id != f2.id ==>
      (r == -1 <==> pte(f2).Lt(pte(f1)) || (pte(f1) == pte(f2) && f1.price < f2.price))
  {
    if f1.id == f2.id then 0
    else
      var pToE1, pToE2 := pte(f1), pte(f2);
      if pToE1 == pToE2 then (if f1.price < f2.price then -1 else 1)
      else if pToE2.Lt(pToE1) then -1 else 1
  }

  /**
   * Antisymmetric unless two distinct firms tie on both price-to-expel and
   * price, in which case each compares above the other.
   */
  lemma {:induction false} CompareByPriceToExpelAntisymmetric(pte: FirmView -> ExtReal, f1: FirmView, f2: FirmView)
    requires f1.id != f2.id
    ensures !(pte(f1) == pte(f2) && f1.price == f2.price) ==>
      CompareByPriceToExpel(pte, f1, f2) == -CompareByPriceToExpel(pte, f2, f1)
    ensures pte(f1) == pte(f2) && f1.price == f2.price ==>
      CompareByPriceToExpel(pte, f1, f2) == 1 == CompareByPriceToExpel(pte, f2, f1)
  {
    LtIsStrictOrder(pte(f1), pte(f2), pte(f1));
  }

  /**
   * decisionTools.CompareByPriceToExpel: -1 when the first price-to-expel
   * is strictly higher, 1 otherwise (ties included); 0 only for the same
   * firm.
   */
  function CompareByPriceToExpelNoTieBreak(pte: FirmView -> ExtReal, f1: FirmView, f2: FirmView): (r: int)
    ensures r == 0 <==> f1.id == f2.id
    ensures f1.id != f2.id ==> (r == -1 <==> pte(f2).Lt(pte(f1)))
  {
    if f1.id == f2.id then 0
    else if pte(f2).Lt(pte(f1)) then -1 else 1
  }

  /**
   * Antisymmetric for different prices to expel; distinct firms with equal
   * prices to expel each compare above the other.
   */
  lemma {:induction false} CompareByPriceToExpelNoTieBreakTies(pte: FirmView -> ExtReal, f1: FirmView, f2: FirmView)
    requires f1.id != f2.id
    ensures pte(f1) != pte(f2) ==>
      CompareByPriceToExpelNoTieBreak(pte, f1, f2) == -CompareByPriceToExpelNoTieBreak(pte, f2, f1)
    ensures pte(f1) == pte(f2) ==>
      CompareByPriceToExpelNoTieBreak(pte, f1, f2) == 1 == CompareByPriceToExpelNoTieBreak(pte, f2, f1)
  {
    LtIsStrictOrder(pte(f1), pte(f2), pte(f1));
  }
}
