// The price window of an offer between two neighbours in the expected
// market: its lower end is the least price that respects the minimum price
// and expels neither neighbour, its upper end the greatest price at which
// the offer still enters (capped by the price to expel the neighbour just
// replaced).
module Neighbors {
  import opened Wrappers
  import opened Values
  import UtilityFunction
  import Rounding
  import ExpectedMarket

  /** An optional firm the expected market can price: absent, or of positive perceived quality. */
  predicate Admits(o: Option<FirmView>)
  {
    o.Some? ==> o.value.perceivedQ > 0.0
  }

  /** x raised to an optional bound: BigDecimal.max with a non-null value. */
  function MaxWith(x: real, o: Option<real>): (r: real)
    ensures r >= x && (o.Some? ==> r >= o.value)
    ensures r == x || (o.Some? && r == o.value)
  {
    if o.Some? then MaxReal(x, o.value) else x
  }

  /** x lowered to an optional bound: BigDecimal.min with a non-null value. */
  function MinWith(x: real, o: Option<real>): (r: real)
    ensures r <= x && (o.Some? ==> r <= o.value)
    ensures r == x || (o.Some? && r == o.value)
  {
    if o.Some? then MinReal(x, o.value) else x
  }

  /**
   * loPriceLimit: the maximum of the minimum price and the non-null prices
   * to expel the two neighbours.
   */
  function LoPriceLimit(st: ExpectedMarket.Setting, s: seq<FirmView>, q: real, minPrice: real,
                        loF: Option<FirmView>, hiF: Option<FirmView>): (r: real)
    requires Admits(loF) && Admits(hiF)
    ensures r >= minPrice
    ensures var t := ExpectedMarket.PriceOrNull(st, s, q, loF); t.Some? ==> r >= t.value
    ensures var t := ExpectedMarket.PriceOrNull(st, s, q, hiF); t.Some? ==> r >= t.value
    ensures r == minPrice ||
            Some(r) == ExpectedMarket.PriceOrNull(st, s, q, loF) ||
            Some(r) == ExpectedMarket.PriceOrNull(st, s, q, hiF)
  {
    MaxWith(MaxWith(minPrice, ExpectedMarket.PriceOrNull(st, s, q, loF)), ExpectedMarket.PriceOrNull(st, s, q, hiF))
  }

  /**
   * hiPriceLimit: the maximum price to enter between the neighbours,
   * lowered to the non-null price to expel the replaced firm prevF.
   */
  function HiPriceLimit(st: ExpectedMarket.Setting, s: seq<FirmView>, q: real, maxPrice: real,
                        loF: Option<FirmView>, hiF: Option<FirmView>, prevF: Option<FirmView>): (r: real)
    requires Admits(prevF)
    ensures r <= UtilityFunction.MaxPriceToEnter(q, loF, hiF, maxPrice, st.priceScale)
    ensures var t := ExpectedMarket.PriceOrNull(st, s, q, prevF); t.Some? ==> r <= t.value
    ensures r == UtilityFunction.MaxPriceToEnter(q, loF, hiF, maxPrice, st.priceScale) ||
            Some(r) == ExpectedMarket.PriceOrNull(st, s, q, prevF)
    ensures prevF.None? ==> r == UtilityFunction.MaxPriceToEnter(q, loF, hiF, maxPrice, st.priceScale)
  {
    MinWith(UtilityFunction.MaxPriceToEnter(q, loF, hiF, maxPrice, st.priceScale),
            ExpectedMarket.PriceOrNull(st, s, q, prevF))
  }

  /** Each end of a window is on the price grid when the configured bound it starts from is. */
  lemma LimitsOnGrid(st: ExpectedMarket.Setting, s: seq<FirmView>, q: real, minPrice: real, maxPrice: real,
                     loF: Option<FirmView>, hiF: Option<FirmView>, prevF: Option<FirmView>)
    requires Admits(loF) && Admits(hiF) && Admits(prevF)
    ensures Rounding.OnGrid(minPrice, st.priceScale) ==>
      Rounding.OnGrid(LoPriceLimit(st, s, q, minPrice, loF, hiF), st.priceScale)
    ensures Rounding.OnGrid(maxPrice, st.priceScale) ==>
      Rounding.OnGrid(HiPriceLimit(st, s, q, maxPrice, loF, hiF, prevF), st.priceScale)
  {
    var e := UtilityFunction.MaxPriceToEnter(q, loF, hiF, maxPrice, st.priceScale);
    if hiF.Some? && hiF.value.quality <= UtilityFunction.LowerRefQuality(loF) {
      assert e == 0.0 && Rounding.IsIntegral(0.0 * Rounding.Pow10(st.priceScale) as real);
    }
    assert Rounding.OnGrid(maxPrice, st.priceScale) ==> Rounding.OnGrid(e, st.priceScale);
  }

  class Neighbors {
    const st: ExpectedMarket.Setting
    /** The members of the expected market the window is read from. */
    const members: seq<FirmView>
    const perceivedQ: real
    const minPrice: real
    /** The configured maximum price, the entry price with no higher firm. */
    const maxPrice: real
    var loF: Option<FirmView>
    var hiF: Option<FirmView>
    var loPriceLimit: real
    var hiPriceLimit: real

    /** The lower end always matches the current neighbours; the upper end never exceeds the entry price. */
    predicate Valid()
      reads this
    {
      Admits(loF) && Admits(hiF) &&
      loPriceLimit == LoPriceLimit(st, members, perceivedQ, minPrice, loF, hiF) &&
      hiPriceLimit <= UtilityFunction.MaxPriceToEnter(perceivedQ, loF, hiF, maxPrice, st.priceScale)
    }

    /** Neighbors(...): the limits with no replaced firm, so no extra ceiling. */
    constructor (st: ExpectedMarket.Setting, members: seq<FirmView>, perceivedQ: real, minPrice: real,
                 maxPrice: real, loF: Option<FirmView>, hiF: Option<FirmView>)
      requires Admits(loF) && Admits(hiF)
      ensures this.st == st && this.members == members && this.perceivedQ == perceivedQ
      ensures this.minPrice == minPrice && this.maxPrice == maxPrice
      ensures this.loF == loF && this.hiF == hiF && Valid()
      ensures hiPriceLimit == UtilityFunction.MaxPriceToEnter(perceivedQ, loF, hiF, maxPrice, st.priceScale)
    {
      this.st := st;
      this.members := members;
      this.perceivedQ := perceivedQ;
      this.minPrice := minPrice;
      this.maxPrice := maxPrice;
      this.loF := loF;
      this.hiF := hiF;
      new;
      SetPriceLimits(None);
    }

    /** setPriceLimits(prevF): recomputes both ends for the current neighbours. */
    method SetPriceLimits(prevF: Option<FirmView>)
      requires Admits(loF) && Admits(hiF) && Admits(prevF)
      modifies this
      ensures loF == old(loF) && hiF == old(hiF) && Valid()
      ensures loPriceLimit == LoPriceLimit(st, members, perceivedQ, minPrice, loF, hiF)
      ensures hiPriceLimit == HiPriceLimit(st, members, perceivedQ, maxPrice, loF, hiF, prevF)
    {
      loPriceLimit := minPrice;
      var loPte := ExpectedMarket.PriceOrNull(st, members, perceivedQ, loF);
      if loF.Some? && loPte.Some? {
        loPriceLimit := MaxReal(loPriceLimit, loPte.value);
      }
      var hiPte := ExpectedMarket.PriceOrNull(st, members, perceivedQ, hiF);
      if hiF.Some? && hiPte.Some? {
        loPriceLimit := MaxReal(loPriceLimit, hiPte.value);
      }
      hiPriceLimit := UtilityFunction.MaxPriceToEnter(perceivedQ, loF, hiF, maxPrice, st.priceScale);
      var prevPte := ExpectedMarket.PriceOrNull(st, members, perceivedQ, prevF);
      if prevF.Some? && prevPte.Some? {
        hiPriceLimit := MinReal(hiPriceLimit, prevPte.value);
      }
    }

    /** setLoF: replaces the lower neighbour; the old one caps the upper end. */
    method SetLoF(newLoF: Option<FirmView>)
      requires Valid() && Admits(newLoF)
      modifies this
      ensures loF == newLoF && hiF == old(hiF) && Valid()
      ensures loPriceLimit == LoPriceLimit(st, members, perceivedQ, minPrice, newLoF, hiF)
      ensures hiPriceLimit == HiPriceLimit(st, members, perceivedQ, maxPrice, newLoF, hiF, old(loF))
    {
      var prevF := loF;
      loF := newLoF;
      SetPriceLimits(prevF);
    }

    /** setHiF: replaces the higher neighbour; the old one caps the upper end. */
    method SetHiF(newHiF: Option<FirmView>)
      requires Valid() && Admits(newHiF)
      modifies this
      ensures hiF == newHiF && loF == old(loF) && Valid()
      ensures loPriceLimit == LoPriceLimit(st, members, perceivedQ, minPrice, loF, newHiF)
      ensures hiPriceLimit == HiPriceLimit(st, members, perceivedQ, maxPrice, loF, newHiF, old(hiF))
    {
      var prevF := hiF;
      hiF := newHiF;
      SetPriceLimits(prevF);
    }
  }
}
