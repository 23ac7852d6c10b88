// A firm's memory of its two quality neighbours: for the firm just below
// and the firm just above its quality, an exponentially smoothed history of
// the offer consumers perceive from it (History, NeighborData,
// OfferHistory).
module NeighbourHistory {
  import opened Wrappers
  import opened Values
  import Rounding
  import QualityMap

  /**
   * Exponential smoothing of one value: the current one weighted by p, the
   * previous one by 1 - p. It moves the previous value towards the current
   * one, leaving the part 1 - p of the gap.
   */
  function Smooth(prev: real, cur: real, p: real): (r: real)
    ensures r - cur == (1.0 - p) * (prev - cur)
  {
    SmoothLeavesGap(prev, cur, p);
    Blend(prev, cur, p, 1.0 - p)
  }

  /** The weighted sum OfferHistory.update writes: cur·pCurr + prev·pPrev. */
  function Blend(prev: real, cur: real, pCurr: real, pPrev: real): real
  {
    cur * pCurr + prev * pPrev
  }

  lemma SmoothLeavesGap(prev: real, cur: real, p: real)
    ensures (cur * p + prev * (1.0 - p)) - cur == (1.0 - p) * (prev - cur)
  {
  }

  /** With a weight in [0, 1], the smoothed value lies between the previous and the current one. */
  lemma {:induction false} SmoothStaysBetween(prev: real, cur: real, p: real)
    requires 0.0 <= p <= 1.0
    ensures MinReal(prev, cur) <= Smooth(prev, cur, p) <= MaxReal(prev, cur)
  {
    var r := Smooth(prev, cur, p);
    assert r - prev == p * (cur - prev);
    NonNegProduct(1.0 - p, if prev <= cur then cur - prev else prev - cur);
    NonNegProduct(p, if prev <= cur then cur - prev else prev - cur);
  }

  lemma NonNegProduct(a: real, b: real)
    requires a >= 0.0 && b >= 0.0
    ensures a * b >= 0.0
  {
  }

  /**
   * What firms.Offer's setters store: the price rounded HALF_DOWN to the
   * price scale, the quality HALF_UP to the quality scale. An offer already
   * on both grids is stored as it is.
   */
  function SetterRounded(o: OfferVal, priceScale: nat, qualityScale: nat): (r: OfferVal)
    ensures Rounding.OnGrid(r.price, priceScale) && Rounding.OnGrid(r.quality, qualityScale)
    ensures Rounding.OnGrid(o.price, priceScale) && Rounding.OnGrid(o.quality, qualityScale) ==> r == o
  {
    Rounding.HalfDownOnGridIfOnGrid(o.price, priceScale);
    var r := OfferVal(Rounding.HalfDown(o.price, priceScale), Rounding.HalfUp(o.quality, qualityScale));
    if Rounding.OnGrid(o.quality, qualityScale) then
      Rounding.HalfUpOnGrid(o.quality, qualityScale);
      r
    else r
  }

  /** firms.Offer.setPrice: HALF_DOWN to the price scale. */
  function SetPrice(x: real, priceScale: nat): real
  {
    Rounding.HalfDown(x, priceScale)
  }

  /** firms.Offer.setQuality: HALF_UP to the quality scale. */
  function SetQuality(x: real, qualityScale: nat): real
  {
    Rounding.HalfUp(x, qualityScale)
  }

  /**
   * One component of an update: the blend written through its setter,
   * HALF_UP for a quality and HALF_DOWN for a price.
   */
  function RoundedSmooth(prev: real, cur: real, p: real, scale: nat, halfUp: bool): (r: real)
    ensures Rounding.OnGrid(r, scale)
  {
    if halfUp then SetQuality(Smooth(prev, cur, p), scale) else SetPrice(Smooth(prev, cur, p), scale)
  }

  /** Both components of an offer smoothed with the same weight and stored through the setters. */
  function SmoothOffer(prev: OfferVal, cur: OfferVal, p: real, priceScale: nat, qualityScale: nat): OfferVal
  {
    OfferVal(RoundedSmooth(prev.price, cur.price, p, priceScale, false),
             RoundedSmooth(prev.quality, cur.quality, p, qualityScale, true))
  }

  /**
   * Between grid values and with a weight in [0, 1], a rounded update lands
   * between the previous and the current value: the rounding never
   * overshoots either of them.
   */
  lemma {:induction false} RoundedSmoothStaysBetween(prev: real, cur: real, p: real, scale: nat, halfUp: bool)
    requires 0.0 <= p <= 1.0
    requires Rounding.OnGrid(prev, scale) && Rounding.OnGrid(cur, scale)
    ensures MinReal(prev, cur) <= RoundedSmooth(prev, cur, p, scale, halfUp) <= MaxReal(prev, cur)
  {
    SmoothStaysBetween(prev, cur, p);
    Rounding.NearestStaysInGridInterval(Smooth(prev, cur, p), RoundedSmooth(prev, cur, p, scale, halfUp),
                                        MinReal(prev, cur), MaxReal(prev, cur), scale);
  }

  /** n updates in a row of one component with the same current value. */
  function SmoothedTimes(prev: real, cur: real, p: real, n: nat, scale: nat, halfUp: bool): real
  {
    if n == 0 then prev else RoundedSmooth(SmoothedTimes(prev, cur, p, n - 1, scale, halfUp), cur, p, scale, halfUp)
  }

  /**
   * Against a neighbour whose offer stays put, the smoothed value never
   * moves away from it: every update lands between the value before it and
   * the neighbour's, so the gap never grows and the value stays between
   * where it started and the neighbour's.
   */
  lemma {:induction false} SmoothingGapNeverGrows(prev: real, cur: real, p: real, n: nat, scale: nat, halfUp: bool)
    requires 0.0 <= p <= 1.0
    requires Rounding.OnGrid(prev, scale) && Rounding.OnGrid(cur, scale)
    ensures MinReal(prev, cur) <= SmoothedTimes(prev, cur, p, n, scale, halfUp) <= MaxReal(prev, cur)
    ensures var x := SmoothedTimes(prev, cur, p, n, scale, halfUp);
      MinReal(x, cur) <= SmoothedTimes(prev, cur, p, n + 1, scale, halfUp) <= MaxReal(x, cur)
  {
    var x := SmoothedTimes(prev, cur, p, n, scale, halfUp);
    if n > 0 {
      SmoothingGapNeverGrows(prev, cur, p, n - 1, scale, halfUp);
    }
    RoundedSmoothStaysBetween(x, cur, p, scale, halfUp);
  }

  /**
   * The rounding can stop the smoothing short of the neighbour's value: at
   * price scale 0 and weight 0.5, a history at 10 against a price of 11
   * blends to 10.5, which HALF_DOWN stores as 10, so the gap of 1 stays
   * for ever.
   */
  lemma {:induction false} SmoothingCanStall(n: nat)
    ensures SmoothedTimes(10.0, 11.0, 0.5, n, 0, false) == 10.0
  {
    if n > 0 {
      SmoothingCanStall(n - 1);
      StallStep();
    }
  }

  /** One update of the stalled history: 10.5 is stored HALF_DOWN as 10. */
  lemma StallStep()
    ensures RoundedSmooth(10.0, 11.0, 0.5, 0, false) == 10.0
  {
    assert Smooth(10.0, 11.0, 0.5) == 10.5;
    assert Rounding.Unit(0) == 1.0;
    assert Rounding.OnGrid(10.0, 0);
    Rounding.CeilingOnGrid(10.0, 0);
  }

  /**
   * OfferHistory: the smoothing weights and the smoothed offer, a firms.Offer
   * held here as its value together with the scales its setters round to.
   */
  class OfferHistory {
    const pCurr: real
    const pPrev: real
    const priceScale: nat
    const qualityScale: nat
    var smoothed: OfferVal

    /** The previous offer's weight is 1 - pCurr. */
    predicate Valid()
    {
      pPrev == 1.0 - pCurr
    }

    /**
     * Weights p and 1 - p; the smoothed offer starts as a copy of the given
     * one, made through the setters.
     */
    constructor(of: OfferVal, p: real, priceScale: nat, qualityScale: nat)
      ensures pCurr == p && pPrev == 1.0 - p
      ensures this.priceScale == priceScale && this.qualityScale == qualityScale
      ensures smoothed == SetterRounded(of, priceScale, qualityScale)
      ensures Valid()
    {
      pCurr := p;
      pPrev := 1.0 - p;
      this.priceScale := priceScale;
      this.qualityScale := qualityScale;
      smoothed := SetterRounded(of, priceScale, qualityScale);
    }

    /**
     * update: the price, then the quality, each set to cur·pCurr + prev·pPrev
     * through its setter, which rounds it to its grid.
     */
    method Update(cur: OfferVal)
      requires Valid()
      modifies this
      ensures smoothed == SmoothOffer(old(smoothed), cur, pCurr, priceScale, qualityScale)
    {
      var price := SetPrice(Blend(smoothed.price, cur.price, pCurr, pPrev), priceScale);
      var quality := SetQuality(Blend(smoothed.quality, cur.quality, pCurr, pPrev), qualityScale);
      smoothed := smoothed.(price := price);
      smoothed := smoothed.(quality := quality);
    }

    /** getOffer (and getPrice, getQuality): the smoothed offer. */
    function Offer(): OfferVal
      reads this
    {
      smoothed
    }
  }

  /** NeighborData: the neighbour it tracks and that neighbour's offer history. */
  class NeighborData {
    var neighbor: nat
    const smoothing: real
    const priceScale: nat
    const qualityScale: nat
    var hist: OfferHistory

    ghost predicate Valid()
      reads this
    {
      hist.Valid() && hist.pCurr == smoothing &&
      hist.priceScale == priceScale && hist.qualityScale == qualityScale
    }

    /** A history that starts at the neighbour's perceived offer. */
    constructor(f: FirmView, p: real, priceScale: nat, qualityScale: nat)
      ensures neighbor == f.id && smoothing == p && fresh(hist)
      ensures this.priceScale == priceScale && this.qualityScale == qualityScale
      ensures hist.Offer() == SetterRounded(f.PerceivedOffer(), priceScale, qualityScale) && Valid()
    {
      neighbor := f.id;
      smoothing := p;
      this.priceScale := priceScale;
      this.qualityScale := qualityScale;
      hist := new OfferHistory(f.PerceivedOffer(), p, priceScale, qualityScale);
    }

    /** getPerceivedOffer: the smoothed offer. */
    function PerceivedOffer(): OfferVal
      reads this, hist
    {
      hist.Offer()
    }

    /**
     * updateOffer as written: the history is smoothed towards f's perceived
     * offer when f is the tracked neighbour; otherwise it restarts at f's
     * offer while the tracked neighbour stays the old one.
     */
    method UpdateOffer(f: FirmView)
      requires Valid()
      modifies this, hist
      ensures Valid() && neighbor == old(neighbor)
      ensures old(neighbor) == f.id ==>
        hist == old(hist) &&
        PerceivedOffer() == SmoothOffer(old(PerceivedOffer()), f.PerceivedOffer(), smoothing, priceScale, qualityScale)
      ensures old(neighbor) != f.id ==>
        fresh(hist) && PerceivedOffer() == SetterRounded(f.PerceivedOffer(), priceScale, qualityScale)
    {
      var of := f.PerceivedOffer();
      if neighbor == f.id {
        hist.Update(of);
      } else {
        hist := new OfferHistory(of, smoothing, priceScale, qualityScale);
      }
    }

    /**
     * updateOffer as evidently intended: as written, but a new neighbour
     * also becomes the tracked one, so the history always belongs to the
     * neighbour recorded with it.
     */
    method UpdateOfferTracking(f: FirmView)
      requires Valid()
      modifies this, hist
      ensures Valid() && neighbor == f.id
      ensures old(neighbor) == f.id ==>
        hist == old(hist) &&
        PerceivedOffer() == SmoothOffer(old(PerceivedOffer()), f.PerceivedOffer(), smoothing, priceScale, qualityScale)
      ensures old(neighbor) != f.id ==>
        fresh(hist) && PerceivedOffer() == SetterRounded(f.PerceivedOffer(), priceScale, qualityScale)
    {
      var of := f.PerceivedOffer();
      if neighbor == f.id {
        hist.Update(of);
      } else {
        hist := new OfferHistory(of, smoothing, priceScale, qualityScale);
        neighbor := f.id;
      }
    }
  }

  /**
   * NeighborData.updateNeighborData as written: empty for no firm; fresh
   * data for a firm with no data yet; otherwise the data is updated in place
   * and returned.
   */
  method UpdateNeighborData(optND: Option<NeighborData>, optF: Option<FirmView>, p: real, priceScale: nat, qualityScale: nat)
    returns (r: Option<NeighborData>)
    requires optND.Some? ==> optND.value.Valid() && optND.value.smoothing == p
    requires optND.Some? ==> optND.value.priceScale == priceScale && optND.value.qualityScale == qualityScale
    modifies if optND.Some? then {optND.value, optND.value.hist} else {}
    ensures optF.None? ==> r.None?
    ensures optF.None? && optND.Some? ==> unchanged(optND.value) && unchanged(old(optND.value.hist))
    ensures optF.Some? && optND.None? ==>
      r.Some? && fresh(r.value) && fresh(r.value.hist) && r.value.Valid() && r.value.smoothing == p &&
      r.value.priceScale == priceScale && r.value.qualityScale == qualityScale &&
      r.value.neighbor == optF.value.id &&
      r.value.PerceivedOffer() == SetterRounded(optF.value.PerceivedOffer(), priceScale, qualityScale)
    ensures optF.Some? && optND.Some? ==>
      r == optND && r.value.Valid() && r.value.neighbor == old(optND.value.neighbor) &&
      (old(optND.value.neighbor) == optF.value.id ==>
         r.value.hist == old(optND.value.hist) &&
         r.value.PerceivedOffer() ==
           SmoothOffer(old(optND.value.PerceivedOffer()), optF.value.PerceivedOffer(), p, priceScale, qualityScale)) &&
      (old(optND.value.neighbor) != optF.value.id ==>
         fresh(r.value.hist) &&
         r.value.PerceivedOffer() == SetterRounded(optF.value.PerceivedOffer(), priceScale, qualityScale))
  {
    if optF.None? {
      r := None;
    } else if optND.None? {
      var nd := new NeighborData(optF.value, p, priceScale, qualityScale);
      r := Some(nd);
    } else {
      optND.value.UpdateOffer(optF.value);
      r := optND;
    }
  }

  /** updateNeighborData with the tracking update: the data always tracks the given firm. */
  method UpdateNeighborDataTracking(optND: Option<NeighborData>, optF: Option<FirmView>, p: real, priceScale: nat, qualityScale: nat)
    returns (r: Option<NeighborData>)
    requires optND.Some? ==> optND.value.Valid() && optND.value.smoothing == p
    requires optND.Some? ==> optND.value.priceScale == priceScale && optND.value.qualityScale == qualityScale
    modifies if optND.Some? then {optND.value, optND.value.hist} else {}
    ensures optF.None? ==> r.None?
    ensures optF.Some? ==> r.Some? && r.value.Valid() && r.value.smoothing == p && r.value.neighbor == optF.value.id
    ensures optF.Some? ==> r.value.priceScale == priceScale && r.value.qualityScale == qualityScale
    ensures optF.Some? && optND.None? ==>
      fresh(r.value) && fresh(r.value.hist) &&
      r.value.PerceivedOffer() == SetterRounded(optF.value.PerceivedOffer(), priceScale, qualityScale)
    ensures optF.Some? && optND.Some? ==>
      r == optND &&
      (old(optND.value.neighbor) == optF.value.id ==>
         r.value.hist == old(optND.value.hist) &&
         r.value.PerceivedOffer() ==
           SmoothOffer(old(optND.value.PerceivedOffer()), optF.value.PerceivedOffer(), p, priceScale, qualityScale)) &&
      (old(optND.value.neighbor) != optF.value.id ==>
         fresh(r.value.hist) &&
         r.value.PerceivedOffer() == SetterRounded(optF.value.PerceivedOffer(), priceScale, qualityScale))
  {
    if optF.None? {
      r := None;
    } else if optND.None? {
      var nd := new NeighborData(optF.value, p, priceScale, qualityScale);
      r := Some(nd);
    } else {
      optND.value.UpdateOfferTracking(optF.value);
      r := optND;
    }
  }

  /** Whether the data is present and tracks f. */
  predicate Tracks(nd: Option<NeighborData>, f: FirmView)
    reads if nd.Some? then {nd.value} else {}
  {
    nd.Some? && nd.value.neighbor == f.id
  }

  /** History: the data kept on the lower and the higher neighbour. */
  class History {
    var lowerNeighbor: Option<NeighborData>
    var higherNeighbor: Option<NeighborData>
    const smoothing: real
    const priceScale: nat
    const qualityScale: nat
    ghost var Repr: set<object>

    ghost predicate Valid()
      reads this, Repr
    {
      this in Repr &&
      (lowerNeighbor.Some? ==>
         lowerNeighbor.value in Repr && lowerNeighbor.value.hist in Repr &&
         lowerNeighbor.value.Valid() && lowerNeighbor.value.smoothing == smoothing &&
         lowerNeighbor.value.priceScale == priceScale && lowerNeighbor.value.qualityScale == qualityScale) &&
      (higherNeighbor.Some? ==>
         higherNeighbor.value in Repr && higherNeighbor.value.hist in Repr &&
         higherNeighbor.value.Valid() && higherNeighbor.value.smoothing == smoothing &&
         higherNeighbor.value.priceScale == priceScale && higherNeighbor.value.qualityScale == qualityScale) &&
      (lowerNeighbor.Some? && higherNeighbor.Some? ==>
         lowerNeighbor.value != higherNeighbor.value && lowerNeighbor.value.hist != higherNeighbor.value.hist)
    }

    /** Both neighbours start empty. */
    constructor(p: real, priceScale: nat, qualityScale: nat)
      ensures Valid() && fresh(Repr)
      ensures lowerNeighbor.None? && higherNeighbor.None? && smoothing == p
      ensures this.priceScale == priceScale && this.qualityScale == qualityScale
    {
      lowerNeighbor := None;
      higherNeighbor := None;
      smoothing := p;
      this.priceScale := priceScale;
      this.qualityScale := qualityScale;
      Repr := {this};
    }

    /**
     * getCompetitorPerceivedOffer: the higher neighbour's smoothed offer if
     * it tracks f, else the lower neighbour's if that one does, else f's own
     * perceived offer.
     */
    function CompetitorPerceivedOffer(f: FirmView): (r: OfferVal)
      requires Valid()
      reads this, Repr
      ensures Tracks(higherNeighbor, f) ==> r == higherNeighbor.value.PerceivedOffer()
      ensures !Tracks(higherNeighbor, f) && Tracks(lowerNeighbor, f) ==> r == lowerNeighbor.value.PerceivedOffer()
      ensures !Tracks(higherNeighbor, f) && !Tracks(lowerNeighbor, f) ==> r == f.PerceivedOffer()
    {
      if Tracks(higherNeighbor, f) then higherNeighbor.value.PerceivedOffer()
      else if Tracks(lowerNeighbor, f) then lowerNeighbor.value.PerceivedOffer()
      else f.PerceivedOffer()
    }

    /**
     * updateCompetitorsPerceivedOffers as written: the neighbours strictly
     * below and strictly above currQ are looked up and passed to
     * updateNeighborData, whose results are dropped. Existing data is still
     * updated in place, but neither neighbour field ever changes, so a
     * history that starts empty stays empty.
     */
    method UpdateCompetitorsPerceivedOffers(firmsByQ: QualityMap.FirmsByQ, currQ: real)
      requires Valid()
      modifies Repr
      ensures Valid() && fresh(Repr - old(Repr))
      ensures lowerNeighbor == old(lowerNeighbor) && higherNeighbor == old(higherNeighbor)
    {
      var optF := QualityMap.LowerEntry(firmsByQ, currQ);
      var droppedLower := UpdateNeighborData(lowerNeighbor, optF, smoothing, priceScale, qualityScale);
      if lowerNeighbor.Some? {
        Repr := Repr + {lowerNeighbor.value.hist};
      }
      optF := QualityMap.HigherEntry(firmsByQ, currQ);
      var droppedHigher := UpdateNeighborData(higherNeighbor, optF, smoothing, priceScale, qualityScale);
      if higherNeighbor.Some? {
        Repr := Repr + {higherNeighbor.value.hist};
      }
    }

    /**
     * updateCompetitorsPerceivedOffers as evidently intended: the results
     * are kept and the data tracks the current neighbours. Afterwards each
     * neighbour field is present exactly when a firm lies strictly below
     * (above) currQ, tracks the nearest such firm, and holds that firm's
     * perceived offer, smoothed with the earlier history when the same firm
     * was already tracked.
     */
    method UpdateCompetitorsPerceivedOffersTracking(firmsByQ: QualityMap.FirmsByQ, currQ: real)
      requires Valid()
      modifies Repr
      ensures Valid() && fresh(Repr - old(Repr))
      ensures lowerNeighbor.Some? <==> QualityMap.LowerFirm(firmsByQ, currQ).Some?
      ensures lowerNeighbor.Some? ==>
        var g := QualityMap.LowerFirm(firmsByQ, currQ).value;
        lowerNeighbor.value.neighbor == g.id &&
        (if old(lowerNeighbor).Some? && old(lowerNeighbor.value.neighbor) == g.id
         then lowerNeighbor.value.PerceivedOffer() ==
                SmoothOffer(old(lowerNeighbor.value.PerceivedOffer()), g.PerceivedOffer(), smoothing, priceScale, qualityScale)
         else lowerNeighbor.value.PerceivedOffer() == SetterRounded(g.PerceivedOffer(), priceScale, qualityScale))
      ensures higherNeighbor.Some? <==> QualityMap.HigherFirm(firmsByQ, currQ).Some?
      ensures higherNeighbor.Some? ==>
        var g := QualityMap.HigherFirm(firmsByQ, currQ).value;
        higherNeighbor.value.neighbor == g.id &&
        (if old(higherNeighbor).Some? && old(higherNeighbor.value.neighbor) == g.id
         then higherNeighbor.value.PerceivedOffer() ==
                SmoothOffer(old(higherNeighbor.value.PerceivedOffer()), g.PerceivedOffer(), smoothing, priceScale, qualityScale)
         else higherNeighbor.value.PerceivedOffer() == SetterRounded(g.PerceivedOffer(), priceScale, qualityScale))
    {
      TrackLower(firmsByQ, currQ);
      TrackHigher(firmsByQ, currQ);
    }

    /** The lower half of the tracking update; the higher neighbour's data is untouched. */
    method TrackLower(firmsByQ: QualityMap.FirmsByQ, currQ: real)
      requires Valid()
      modifies Repr
      ensures Valid() && fresh(Repr - old(Repr))
      ensures higherNeighbor == old(higherNeighbor)
      ensures old(higherNeighbor).Some? ==> unchanged(old(higherNeighbor.value), old(higherNeighbor.value.hist))
      ensures lowerNeighbor.Some? <==> QualityMap.LowerFirm(firmsByQ, currQ).Some?
      ensures lowerNeighbor.Some? ==>
        var g := QualityMap.LowerFirm(firmsByQ, currQ).value;
        lowerNeighbor.value.neighbor == g.id &&
        (if old(lowerNeighbor).Some? && old(lowerNeighbor.value.neighbor) == g.id
         then lowerNeighbor.value.PerceivedOffer() ==
                SmoothOffer(old(lowerNeighbor.value.PerceivedOffer()), g.PerceivedOffer(), smoothing, priceScale, qualityScale)
         else lowerNeighbor.value.PerceivedOffer() == SetterRounded(g.PerceivedOffer(), priceScale, qualityScale))
    {
      var optF := QualityMap.LowerEntry(firmsByQ, currQ);
      lowerNeighbor := UpdateNeighborDataTracking(lowerNeighbor, optF, smoothing, priceScale, qualityScale);
      if lowerNeighbor.Some? {
        Repr := Repr + {lowerNeighbor.value, lowerNeighbor.value.hist};
      }
    }

    /** The higher half of the tracking update; the lower neighbour's data is untouched. */
    method TrackHigher(firmsByQ: QualityMap.FirmsByQ, currQ: real)
      requires Valid()
      modifies Repr
      ensures Valid() && fresh(Repr - old(Repr))
      ensures lowerNeighbor == old(lowerNeighbor)
      ensures old(lowerNeighbor).Some? ==> unchanged(old(lowerNeighbor.value), old(lowerNeighbor.value.hist))
      ensures higherNeighbor.Some? <==> QualityMap.HigherFirm(firmsByQ, currQ).Some?
      ensures higherNeighbor.Some? ==>
        var g := QualityMap.HigherFirm(firmsByQ, currQ).value;
        higherNeighbor.value.neighbor == g.id &&
        (if old(higherNeighbor).Some? && old(higherNeighbor.value.neighbor) == g.id
         then higherNeighbor.value.PerceivedOffer() ==
                SmoothOffer(old(higherNeighbor.value.PerceivedOffer()), g.PerceivedOffer(), smoothing, priceScale, qualityScale)
         else higherNeighbor.value.PerceivedOffer() == SetterRounded(g.PerceivedOffer(), priceScale, qualityScale))
    {
      var optF := QualityMap.HigherEntry(firmsByQ, currQ);
      higherNeighbor := UpdateNeighborDataTracking(higherNeighbor, optF, smoothing, priceScale, qualityScale);
      if higherNeighbor.Some? {
        Repr := Repr + {higherNeighbor.value, higherNeighbor.value.hist};
      }
    }
  }

  /**
   * With the results dropped, a new history answers every firm, even its
   * lower neighbour, with that firm's own current perceived offer.
   */
  method AsWrittenHistoryNeverTracks(firmsByQ: QualityMap.FirmsByQ, currQ: real, p: real, f: FirmView,
                                     priceScale: nat, qualityScale: nat)
    returns (r: OfferVal)
    ensures r == f.PerceivedOffer()
  {
    var h := new History(p, priceScale, qualityScale);
    h.UpdateCompetitorsPerceivedOffers(firmsByQ, currQ);
    h.UpdateCompetitorsPerceivedOffers(firmsByQ, currQ);
    r := h.CompetitorPerceivedOffer(f);
  }

  /**
   * Two ticks with smoothing 0.5, both scales 0 and one firm below
   * quality 2: its price goes from 10 to 20. As written the history answers
   * with the current offer (20, 1); the tracking history answers with the
   * smoothed (15, 1), which the setters store as it is.
   */
  /** The offers HistoryExample stores, on the unit grid for both scales. */
  lemma HistoryExampleOffers()
    ensures SetterRounded(OfferVal(10.0, 1.0), 0, 0) == OfferVal(10.0, 1.0)
    ensures SmoothOffer(OfferVal(10.0, 1.0), OfferVal(20.0, 1.0), 0.5, 0, 0) == OfferVal(15.0, 1.0)
  {
    assert Rounding.OnGrid(10.0, 0) && Rounding.OnGrid(1.0, 0) && Rounding.OnGrid(15.0, 0);
    assert Smooth(10.0, 20.0, 0.5) == 15.0 && Smooth(1.0, 1.0, 0.5) == 1.0;
    Rounding.HalfDownOnGrid(15.0, 0);
    Rounding.HalfUpOnGrid(1.0, 0);
  }

  method HistoryExample(tracking: bool) returns (r: OfferVal)
    ensures !tracking ==> r == OfferVal(20.0, 1.0)
    ensures tracking ==> r == OfferVal(15.0, 1.0)
  {
    var before := FirmView(1, 10.0, 1.0, 1.0);
    var after := FirmView(1, 20.0, 1.0, 1.0);
    var m1: QualityMap.FirmsByQ := map[1.0 := before];
    var m2: QualityMap.FirmsByQ := map[1.0 := after];
    assert 1.0 in m1 && 1.0 in m2;
    HistoryExampleOffers();
    var h := new History(0.5, 0, 0);
    if tracking {
      h.UpdateCompetitorsPerceivedOffersTracking(m1, 2.0);
      h.UpdateCompetitorsPerceivedOffersTracking(m2, 2.0);
    } else {
      h.UpdateCompetitorsPerceivedOffers(m1, 2.0);
      h.UpdateCompetitorsPerceivedOffers(m2, 2.0);
    }
    r := h.CompetitorPerceivedOffer(after);
  }

  /**
   * A neighbour data tracking firm 1 is updated with firm 2, which took its
   * place: as written it still names firm 1 but holds firm 2's offer, so
   * firm 1 would be answered with firm 2's offer; the tracking update names
   * firm 2.
   */
  method NeighbourSwapExample(tracking: bool) returns (tracked: nat, offer: OfferVal)
    ensures offer == OfferVal(5.0, 7.0)
    ensures !tracking ==> tracked == 1
    ensures tracking ==> tracked == 2
  {
    var a := FirmView(1, 10.0, 1.0, 1.0);
    var b := FirmView(2, 5.0, 7.0, 7.0);
    assert Rounding.OnGrid(10.0, 0) && Rounding.OnGrid(1.0, 0);
    assert Rounding.OnGrid(5.0, 0) && Rounding.OnGrid(7.0, 0);
    var nd := new NeighborData(a, 0.5, 0, 0);
    if tracking {
      nd.UpdateOfferTracking(b);
    } else {
      nd.UpdateOffer(b);
    }
    tracked := nd.neighbor;
    offer := nd.PerceivedOffer();
  }
}
