// The decisions of the firms package and their comparator: an empty
// decision ranks lowest, present ones are ordered by expected gross profit.
module FirmsDecision {
  import opened Wrappers
  import opened Values

  /** firms.Decision: the offer, its expected gross profit and its expected demand. */
  datatype Decision = Decision(offer: OfferVal, grossProfit: real, demand: real)

  /**
   * firms.DecisionComparator.compare. An empty first decision gives -1,
   * even against another empty one; a present first against an empty
   * second gives 1; two present ones give the sign of the gross-profit
   * difference.
   */
  function Compare(d1: Option<Decision>, d2: Option<Decision>): (r: int)
    ensures r == -1 || r == 0 || r == 1
    ensures d1.None? ==> r == -1
    ensures d1.Some? && d2.None? ==> r == 1
    ensures d1.Some? && d2.Some? ==>
      (r == 0 <==> d1.value.grossProfit == d2.value.grossProfit) &&
      (r > 0 <==> d1.value.grossProfit > d2.value.grossProfit)
  {
    if d1.None? then -1
    else if d2.None? then 1
    else Sign(d1.value.grossProfit - d2.value.grossProfit)
  }

  /**
   * Compare is antisymmetric on every pair but two empty decisions, where
   * both orders give -1: it is not a consistent comparator there.
   */
  lemma {:induction false} CompareAntisymmetricExceptBothEmpty(d1: Option<Decision>, d2: Option<Decision>)
    ensures Compare(d1, d2) == -Compare(d2, d1) <==> !(d1.None? && d2.None?)
  {
  }

  /** An empty decision ranks below every present one, from either side. */
  lemma {:induction false} EmptyRanksLowest(d: Decision)
    ensures Compare(None, Some(d)) < 0 && Compare(Some(d), None) > 0
  {
  }
}
