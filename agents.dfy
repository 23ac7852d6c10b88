// The two kinds of agent of the simulation. A consumer knows some firms,
// each with a quality factor (its discount until it has tried the firm, 1.0
// afterwards), and each period buys from the known firm of greatest positive
// utility. A firm keeps its offer, its demand and profit bookkeeping, how
// many consumers have tried it and which consumers do not know it yet.
// Market-wide parameters (market size, cost parameter, weights) are passed
// in as arguments.
module Agents {
  import opened Wrappers
  import opened Values
  import Rounding
  import NeighbourHistory
  import DeltaOffer

  /** FastMath.nextDown(1.0): the greatest double below one, 1 - 2^-53. */
  const NextDownOfOne: real := 1.0 - 1.0 / 9007199254740992.0

  /**
   * setQualityDiscount: a drawn discount of exactly 1.0 is replaced by the
   * double just below it, since a factor of 1.0 marks a tried firm.
   */
  function QualityDiscount(drawn: real): (r: real)
    ensures r != 1.0
    ensures drawn != 1.0 ==> r == drawn
    ensures drawn == 1.0 ==> 0.0 < r < 1.0
  {
    if drawn == 1.0 then NextDownOfOne else drawn
  }

  /**
   * The chosen firm after the traces of `f` are removed: cleared when it
   * has f's id, kept otherwise.
   */
  function AfterRemoval(chosen: Option<Firm>, f: Firm): (r: Option<Firm>)
    ensures r.None? <==> chosen.None? || chosen.value.id == f.id
    ensures r.Some? ==> r == chosen
  {
    if chosen.Some? && chosen.value.id == f.id then None else chosen
  }

  class Consumer {
    const margUtilOfQuality: real
    const qualityDiscount: real
    var chosenFirm: Option<Firm>
    /** knownFirmsQualityFactor: each known firm with its quality factor. */
    var knownFirms: map<Firm, real>

    /**
     * The discount is never 1.0, every factor is the discount or 1.0, and
     * a chosen firm is a known one.
     */
    ghost predicate Valid()
      reads this
    {
      qualityDiscount != 1.0 &&
      (chosenFirm.Some? ==> chosenFirm.value in knownFirms) &&
      forall f :: f in knownFirms ==> knownFirms[f] == qualityDiscount || knownFirms[f] == 1.0
    }

    /** A consumer with its drawn preferences, knowing no firm yet. */
    constructor (margUtil: real, drawnDiscount: real)
      ensures Valid()
      ensures margUtilOfQuality == margUtil && qualityDiscount == QualityDiscount(drawnDiscount)
      ensures chosenFirm == None && knownFirms == map[]
    {
      margUtilOfQuality := margUtil;
      qualityDiscount := QualityDiscount(drawnDiscount);
      chosenFirm := None;
      knownFirms := map[];
    }

    /** utility: marginal utility of quality times quality times factor, less the price. */
    function Utility(f: Firm, factor: real): real
      reads f`offer
    {
      margUtilOfQuality * f.offer.quality * factor - f.offer.price
    }

    /**
     * What chooseMaximizingFirm promises over a map of known firms: none
     * exactly when no known firm gives positive utility, otherwise a known
     * firm of positive utility that no known firm exceeds.
     */
    ghost predicate IsBestChoice(known: map<Firm, real>, r: Option<Firm>)
      reads known.Keys`offer
    {
      (r.None? <==> forall f :: f in known ==> Utility(f, known[f]) <= 0.0) &&
      (r.Some? ==>
         r.value in known && Utility(r.value, known[r.value]) > 0.0 &&
         forall f :: f in known ==> Utility(f, known[f]) <= Utility(r.value, known[r.value]))
    }

    /** addToKnownFirms: the firm becomes known at the consumer's discount. */
    method AddToKnownFirms(f: Firm)
      modifies this
      ensures knownFirms == old(knownFirms)[f := qualityDiscount]
      ensures chosenFirm == old(chosenFirm)
      ensures old(Valid()) ==> Valid()
    {
      knownFirms := knownFirms[f := qualityDiscount];
    }

    /** addToTriedFirms: the firm's factor becomes 1.0. */
    method AddToTriedFirms(f: Firm)
      modifies this
      ensures knownFirms == old(knownFirms)[f := 1.0]
      ensures chosenFirm == old(chosenFirm)
      ensures old(Valid()) ==> Valid()
    {
      knownFirms := knownFirms[f := 1.0];
    }

    /**
     * chooseMaximizingFirm: one pass over the known firms, in an order the
     * hash map leaves unspecified, keeping a firm only when its utility is
     * strictly above the best so far, which starts at 0.
     */
    method ChooseMaximizingFirm() returns (r: Option<Firm>)
      ensures IsBestChoice(knownFirms, r)
    {
      var utility := 0.0;
      r := None;
      var rest := knownFirms.Keys;
      while rest != {}
        invariant rest <= knownFirms.Keys
        invariant r.None? ==> utility == 0.0
        invariant r.Some? ==>
          r.value in knownFirms && utility == Utility(r.value, knownFirms[r.value]) && utility > 0.0
        invariant forall f :: f in knownFirms && f !in rest ==> Utility(f, knownFirms[f]) <= utility
        decreases rest
      {
        var f :| f in rest;
        var u := Utility(f, knownFirms[f]);
        if u > utility {
          r := Some(f);
          utility := u;
        }
        rest := rest - {f};
      }
    }

    /**
     * chooseFirm: the best choice becomes the chosen firm; its demand grows
     * by one and, the first time it is chosen (factor not 1.0), its tried
     * count grows by one and its factor becomes 1.0. Other firms are left
     * alone, and a consumer whose marginal utility is not negative, facing
     * qualities that are not negative and a discount at most 1.0, then
     * reports a positive utility.
     */
    method ChooseFirm()
      requires Valid()
      modifies this, knownFirms.Keys
      ensures Valid()
      ensures IsBestChoice(old(knownFirms), chosenFirm)
      ensures forall f :: f in old(knownFirms) ==> f.offer == old(f.offer)
      ensures chosenFirm.None? ==> knownFirms == old(knownFirms)
      ensures chosenFirm.Some? ==>
        var c := chosenFirm.value;
        c.demand == old(c.demand) + 1 &&
        (old(knownFirms[c]) != 1.0 ==>
           c.triedBy == old(c.triedBy) + 1 && knownFirms == old(knownFirms)[c := 1.0]) &&
        (old(knownFirms[c]) == 1.0 ==>
           c.triedBy == old(c.triedBy) && knownFirms == old(knownFirms))
      ensures forall f :: f in old(knownFirms) && Some(f) != chosenFirm ==>
        f.demand == old(f.demand) && f.triedBy == old(f.triedBy)
      ensures forall f :: f in old(knownFirms) ==>
        f.deltaOffer == old(f.deltaOffer) && f.profit == old(f.profit) &&
        f.accumProfit == old(f.accumProfit) && f.autoRegressiveProfit == old(f.autoRegressiveProfit) &&
        f.notYetKnownBy == old(f.notYetKnownBy)
      ensures margUtilOfQuality >= 0.0 && qualityDiscount <= 1.0 &&
              (forall f :: f in old(knownFirms) ==> f.offer.quality >= 0.0) &&
              chosenFirm.Some? ==>
        GetUtility() > 0.0
    {
      ghost var known := knownFirms;
      var r := ChooseMaximizingFirm();
      chosenFirm := r;
      if r.Some? {
        var c := r.value;
        ghost var factor := knownFirms[c];
        BuyFrom(c);
        assert IsBestChoice(known, r);
        if margUtilOfQuality >= 0.0 && qualityDiscount <= 1.0 && c.offer.quality >= 0.0 {
          TriedFactorRaisesUtility(c, factor);
        }
      }
    }

    /**
     * The body of chooseFirm once a firm is chosen: its demand grows by one
     * and, when its factor is not yet 1.0, its tried count grows by one and
     * its factor becomes 1.0. No other field of the firm changes.
     */
    method BuyFrom(c: Firm)
      requires c in knownFirms
      modifies this`knownFirms, c
      ensures c.demand == old(c.demand) + 1
      ensures old(knownFirms[c]) != 1.0 ==>
        c.triedBy == old(c.triedBy) + 1 && knownFirms == old(knownFirms)[c := 1.0]
      ensures old(knownFirms[c]) == 1.0 ==>
        c.triedBy == old(c.triedBy) && knownFirms == old(knownFirms)
      ensures c.offer == old(c.offer) && c.deltaOffer == old(c.deltaOffer) && c.profit == old(c.profit)
      ensures c.accumProfit == old(c.accumProfit) && c.autoRegressiveProfit == old(c.autoRegressiveProfit)
      ensures c.notYetKnownBy == old(c.notYetKnownBy)
    {
      c.SetDemand(c.demand + 1);
      if knownFirms[c] != 1.0 {
        c.AddNewConsumer();
        knownFirms := knownFirms[c := 1.0];
      }
    }

    /**
     * Raising a firm's factor from a discount of at most 1.0 to 1.0 does not
     * lower its utility when the marginal utility and the quality are not
     * negative.
     */
    lemma {:induction false} TriedFactorRaisesUtility(f: Firm, factor: real)
      requires margUtilOfQuality >= 0.0 && f.offer.quality >= 0.0 && factor <= 1.0
      ensures Utility(f, factor) <= Utility(f, 1.0)
    {
      var a := margUtilOfQuality * f.offer.quality;
      NeighbourHistory.NonNegProduct(margUtilOfQuality, f.offer.quality);
      NeighbourHistory.NonNegProduct(a, 1.0 - factor);
      assert a * 1.0 - a * factor == a * (1.0 - factor);
    }

    /**
     * removeTraceOfFirm: the firm is forgotten, and the chosen firm is
     * cleared when its id is the removed firm's.
     */
    method RemoveTraceOfFirm(f: Firm)
      modifies this
      ensures knownFirms == old(knownFirms) - {f}
      ensures chosenFirm == AfterRemoval(old(chosenFirm), f)
      ensures old(Valid()) ==> Valid()
    {
      knownFirms := knownFirms - {f};
      if chosenFirm.Some? && chosenFirm.value.id == f.id {
        chosenFirm := None;
      }
    }

    /** getUtility: 0 with no chosen firm, else the chosen firm's utility at its factor. */
    function GetUtility(): (u: real)
      requires Valid()
      reads this, if chosenFirm.Some? then {chosenFirm.value} else {}
      ensures chosenFirm.None? ==> u == 0.0
      ensures chosenFirm.Some? ==> u == Utility(chosenFirm.value, knownFirms[chosenFirm.value])
    {
      if chosenFirm.None? then 0.0
      else Utility(chosenFirm.value, knownFirms[chosenFirm.value])
    }
  }

  /** Two best choices over the same known firms agree on whether there is one and on its utility. */
  lemma {:induction false} BestChoiceIsUnique(c: Consumer, known: map<Firm, real>, r1: Option<Firm>, r2: Option<Firm>)
    requires c.IsBestChoice(known, r1) && c.IsBestChoice(known, r2)
    ensures r1.None? <==> r2.None?
    ensures r1.Some? ==>
      c.Utility(r1.value, known[r1.value]) == c.Utility(r2.value, known[r2.value])
  {
    if r1.Some? {
      assert r2.Some? by {
        assert c.Utility(r1.value, known[r1.value]) > 0.0;
      }
      assert c.Utility(r1.value, known[r1.value]) <= c.Utility(r2.value, known[r2.value]);
      assert c.Utility(r2.value, known[r2.value]) <= c.Utility(r1.value, known[r1.value]);
    }
  }

  /** FastMath.round: the nearest integer, halves rounded up. */
  function Round(x: real): (r: int)
    ensures x - 0.5 < r as real <= x + 0.5
  {
    (x + 0.5).Floor
  }

  /**
   * The knownBy increment of updateConsumerKnowledge: the rounded logistic
   * term speed * k * (1 - k / mktSize) for k consumers already knowing the
   * firm, clamped to at most the market size and then to at least one.
   * With an empty market the quotient is NaN, which rounds to 0.
   */
  function KnownByIncrement(mktSize: nat, notYetKnown: nat, speed: real): (r: int)
    ensures 1 <= r
    ensures mktSize >= 1 ==> r <= mktSize
  {
    var raw := Logistic(mktSize, notYetKnown, speed);
    var capped := if mktSize < raw then mktSize else raw;
    if 1 > capped then 1 else capped
  }

  /** The rounded logistic term before clamping. */
  function Logistic(mktSize: nat, notYetKnown: nat, speed: real): int
  {
    var alreadyK := mktSize as real - notYetKnown as real;
    if mktSize == 0 then 0
    else Round(speed * alreadyK * (1.0 - alreadyK / mktSize as real))
  }

  /** A logistic term already within [1, mktSize] is taken as it is. */
  lemma {:induction false} IncrementKeepsInRangeTerm(mktSize: nat, notYetKnown: nat, speed: real)
    requires 1 <= Logistic(mktSize, notYetKnown, speed) <= mktSize
    ensures KnownByIncrement(mktSize, notYetKnown, speed) == Logistic(mktSize, notYetKnown, speed)
  {
  }

  function MinInt(a: int, b: int): int
  {
    if a <= b then a else b
  }

  function MaxInt(a: int, b: int): int
  {
    if a >= b then a else b
  }

  /** The elements of a sequence are pairwise distinct. */
  ghost predicate Distinct<T>(s: seq<T>)
  {
    forall i, j :: 0 <= i < j < |s| ==> s[i] != s[j]
  }

  /** Removing index i from a distinct sequence removes exactly that element. */
  lemma {:induction false} RemoveAtMembers<T>(s: seq<T>, i: int)
    requires Distinct(s) && 0 <= i < |s|
    ensures var t := s[..i] + s[i + 1..];
      |t| == |s| - 1 && Distinct(t) && s[i] !in t &&
      forall x :: x in t <==> x in s && x != s[i]
  {
    var t := s[..i] + s[i + 1..];
    assert forall k :: 0 <= k < |t| ==> t[k] == (if k < i then s[k] else s[k + 1]);
    forall x | x in s && x != s[i]
      ensures x in t
    {
      var k :| 0 <= k < |s| && s[k] == x;
      assert t[if k < i then k else k - 1] == x;
    }
  }

  class Firm {
    const id: nat
    var offer: OfferVal
    var deltaOffer: DeltaOffer.Delta
    var demand: int
    var profit: real
    var accumProfit: real
    var autoRegressiveProfit: real
    const fixedCost: real
    /** The tick of entry. */
    const born: real
    var notYetKnownBy: seq<Consumer>
    var triedBy: nat

    /**
     * A firm entering at tick `born` with its first offer: no demand, no
     * profit yet, tried by nobody, unknown to the given consumers.
     */
    constructor (id: nat, of: OfferVal, fixedCost: real, born: real, unaware: seq<Consumer>)
      ensures this.id == id && offer == of && this.fixedCost == fixedCost && this.born == born
      ensures deltaOffer == DeltaOffer.Delta(0.0, 0.0)
      ensures demand == 0 && profit == 0.0 && accumProfit == 0.0 && autoRegressiveProfit == 0.0
      ensures triedBy == 0 && notYetKnownBy == unaware
    {
      this.id := id;
      offer := of;
      deltaOffer := DeltaOffer.Delta(0.0, 0.0);
      demand := 0;
      profit := 0.0;
      accumProfit := 0.0;
      autoRegressiveProfit := 0.0;
      this.fixedCost := fixedCost;
      this.born := born;
      notYetKnownBy := unaware;
      triedBy := 0;
    }

    /** resetDemand: each period starts with no demand. */
    method ResetDemand()
      modifies this
      ensures demand == 0
      ensures offer == old(offer) && triedBy == old(triedBy) && notYetKnownBy == old(notYetKnownBy)
      ensures profit == old(profit) && accumProfit == old(accumProfit)
      ensures autoRegressiveProfit == old(autoRegressiveProfit) && deltaOffer == old(deltaOffer)
    {
      demand := 0;
    }

    /** setDemand. */
    method SetDemand(i: int)
      modifies this
      ensures demand == i
      ensures offer == old(offer) && triedBy == old(triedBy) && notYetKnownBy == old(notYetKnownBy)
      ensures profit == old(profit) && accumProfit == old(accumProfit)
      ensures autoRegressiveProfit == old(autoRegressiveProfit) && deltaOffer == old(deltaOffer)
    {
      demand := i;
    }

    /** addNewConsumer: one more consumer has tried the firm. */
    method AddNewConsumer()
      modifies this
      ensures triedBy == old(triedBy) + 1
      ensures offer == old(offer) && demand == old(demand) && notYetKnownBy == old(notYetKnownBy)
      ensures profit == old(profit) && accumProfit == old(accumProfit)
      ensures autoRegressiveProfit == old(autoRegressiveProfit) && deltaOffer == old(deltaOffer)
    {
      triedBy := triedBy + 1;
    }

    /**
     * getPerceptionDiscount: the average of factor 1 over the consumers who
     * tried the firm and of the mean discount over the rest of the market,
     * so the mean discount lifted by the tried share of the market.
     */
    function PerceptionDiscount(mktSize: nat, meanDiscount: real): (r: real)
      requires mktSize > 0
      reads this
      ensures r == meanDiscount + (1.0 - meanDiscount) * (triedBy as real / mktSize as real)
    {
      var t, n := triedBy as real, mktSize as real;
      WeightedAverage(t, n, meanDiscount);
      (t + meanDiscount * (n - t)) / n
    }

    /**
     * getPerceivedQuality: the real quality times the perception discount,
     * rounded to the nearest point of the quality grid with ties toward
     * zero (the legacy offer's HALF_DOWN quality rounding).
     */
    function PerceivedQuality(realQ: real, mktSize: nat, meanDiscount: real, qualityScale: nat): (r: real)
      requires mktSize > 0
      reads this
      ensures Rounding.OnGrid(r, qualityScale)
      ensures var exact := realQ * PerceptionDiscount(mktSize, meanDiscount);
        exact - Rounding.Unit(qualityScale) / 2.0 <= r <= exact + Rounding.Unit(qualityScale) / 2.0
      ensures var exact := realQ * PerceptionDiscount(mktSize, meanDiscount);
        exact >= 0.0 ==> r < exact + Rounding.Unit(qualityScale) / 2.0
    {
      Rounding.HalfDown(realQ * PerceptionDiscount(mktSize, meanDiscount), qualityScale)
    }

    /** getPerceivedOffer: the firm's price with its perceived quality. */
    function PerceivedOffer(mktSize: nat, meanDiscount: real, qualityScale: nat): (r: OfferVal)
      requires mktSize > 0
      reads this
      ensures r.price == offer.price
      ensures r.quality == PerceivedQuality(offer.quality, mktSize, meanDiscount, qualityScale)
    {
      OfferVal(offer.price, PerceivedQuality(offer.quality, mktSize, meanDiscount, qualityScale))
    }

    /** calcProfit: the unit margin times the demand, less the fixed cost. */
    function CalcProfit(costParameter: real): (r: real)
      requires costParameter != 0.0
      reads this
      ensures demand == 0 ==> r == -fixedCost
      ensures demand > 0 && offer.price >= UnitCost(offer.quality, costParameter) ==> r >= -fixedCost
    {
      var margin := offer.price - UnitCost(offer.quality, costParameter);
      MarginTimesDemand(margin, demand);
      margin * demand as real - fixedCost
    }

    /** isToBeKilled: the moving average of profit is below the minimum. */
    predicate IsToBeKilled(minimumProfit: real)
      reads this
    {
      autoRegressiveProfit < minimumProfit
    }

    /**
     * nextStep: the period's profit is computed and accumulated; the moving
     * average becomes the profit at the tick of entry and otherwise the
     * weighted mix of the profit and the previous average; the firm is
     * queued for killing exactly when that average is below the minimum.
     */
    method NextStep(tick: real, costParameter: real, currentProfitWeight: real, minimumProfit: real)
      returns (toBeKilled: bool)
      requires costParameter != 0.0
      modifies this
      ensures profit == old(CalcProfit(costParameter))
      ensures accumProfit == old(accumProfit) + profit
      ensures born == tick ==> autoRegressiveProfit == profit
      ensures born != tick ==>
        autoRegressiveProfit == NeighbourHistory.Smooth(old(autoRegressiveProfit), profit, currentProfitWeight)
      ensures toBeKilled <==> IsToBeKilled(minimumProfit)
      ensures offer == old(offer) && demand == old(demand) && triedBy == old(triedBy)
      ensures notYetKnownBy == old(notYetKnownBy) && deltaOffer == old(deltaOffer)
    {
      profit := CalcProfit(costParameter);
      accumProfit := accumProfit + profit;
      if born == tick {
        autoRegressiveProfit := profit;
      } else {
        autoRegressiveProfit := currentProfitWeight * profit + (1.0 - currentProfitWeight) * autoRegressiveProfit;
      }
      toBeKilled := IsToBeKilled(minimumProfit);
    }

    /**
     * getFromIgnorance: up to `amount` consumers, each picked at an
     * arbitrary position of the list, leave it and come to know the firm at
     * their own discount; the loop stops early when the list empties.
     */
    method GetFromIgnorance(amount: int)
      requires Distinct(notYetKnownBy)
      modifies this, notYetKnownBy
      ensures |notYetKnownBy| == |old(notYetKnownBy)| - MinInt(MaxInt(amount, 0), |old(notYetKnownBy)|)
      ensures Distinct(notYetKnownBy)
      ensures forall c :: c in notYetKnownBy ==> c in old(notYetKnownBy)
      ensures forall c :: c in notYetKnownBy ==>
        c.knownFirms == old(c.knownFirms) && c.chosenFirm == old(c.chosenFirm)
      ensures forall c :: c in old(notYetKnownBy) && c !in notYetKnownBy ==>
        c.knownFirms == old(c.knownFirms)[this := c.qualityDiscount] && c.chosenFirm == old(c.chosenFirm)
      ensures offer == old(offer) && demand == old(demand) && triedBy == old(triedBy)
      ensures profit == old(profit) && accumProfit == old(accumProfit)
      ensures autoRegressiveProfit == old(autoRegressiveProfit) && deltaOffer == old(deltaOffer)
    {
      var k := 0;
      while k < amount && notYetKnownBy != []
        invariant 0 <= k <= MaxInt(amount, 0)
        invariant |notYetKnownBy| + k == |old(notYetKnownBy)|
        invariant Distinct(notYetKnownBy)
        invariant forall c :: c in notYetKnownBy ==> c in old(notYetKnownBy)
        invariant forall c :: c in notYetKnownBy ==>
          c.knownFirms == old(c.knownFirms) && c.chosenFirm == old(c.chosenFirm)
        invariant forall c :: c in old(notYetKnownBy) && c !in notYetKnownBy ==>
          c.knownFirms == old(c.knownFirms)[this := c.qualityDiscount] && c.chosenFirm == old(c.chosenFirm)
        invariant offer == old(offer) && demand == old(demand) && triedBy == old(triedBy)
        invariant profit == old(profit) && accumProfit == old(accumProfit)
        invariant autoRegressiveProfit == old(autoRegressiveProfit) && deltaOffer == old(deltaOffer)
        decreases |notYetKnownBy|
      {
        var i :| 0 <= i < |notYetKnownBy|;
        var c := notYetKnownBy[i];
        assert c in old(notYetKnownBy);
        RemoveAtMembers(notYetKnownBy, i);
        notYetKnownBy := notYetKnownBy[..i] + notYetKnownBy[i + 1..];
        c.AddToKnownFirms(this);
        k := k + 1;
      }
    }

    /**
     * updateConsumerKnowledge: nothing happens when every consumer knows
     * the firm; otherwise KnownByIncrement consumers (at least one, at most
     * the market) are taken out of ignorance, so the firm always becomes
     * known to someone new.
     */
    method UpdateConsumerKnowledge(mktSize: nat, diffusionSpeed: real)
      requires Distinct(notYetKnownBy)
      modifies this, notYetKnownBy
      ensures old(notYetKnownBy) == [] ==> notYetKnownBy == []
      ensures old(notYetKnownBy) != [] ==>
        |notYetKnownBy| == |old(notYetKnownBy)| -
          MinInt(KnownByIncrement(mktSize, |old(notYetKnownBy)|, diffusionSpeed), |old(notYetKnownBy)|)
      ensures old(notYetKnownBy) != [] ==> |notYetKnownBy| < |old(notYetKnownBy)|
      ensures Distinct(notYetKnownBy)
      ensures forall c :: c in notYetKnownBy ==> c in old(notYetKnownBy)
      ensures forall c :: c in notYetKnownBy ==>
        c.knownFirms == old(c.knownFirms) && c.chosenFirm == old(c.chosenFirm)
      ensures forall c :: c in old(notYetKnownBy) && c !in notYetKnownBy ==>
        c.knownFirms == old(c.knownFirms)[this := c.qualityDiscount] && c.chosenFirm == old(c.chosenFirm)
      ensures offer == old(offer) && demand == old(demand) && triedBy == old(triedBy)
      ensures profit == old(profit) && accumProfit == old(accumProfit)
      ensures autoRegressiveProfit == old(autoRegressiveProfit) && deltaOffer == old(deltaOffer)
    {
      if notYetKnownBy == [] {
        return;
      }
      var increment := KnownByIncrement(mktSize, |notYetKnownBy|, diffusionSpeed);
      GetFromIgnorance(increment);
    }
  }

  /** (t + a * (n - t)) / n is a lifted by the share t / n of the gap to 1. */
  lemma WeightedAverage(t: real, n: real, a: real)
    requires n != 0.0
    ensures (t + a * (n - t)) / n == a + (1.0 - a) * (t / n)
  {
    var s := t / n;
    assert s * n == t;
    assert (a + (1.0 - a) * s) * n == a * n + (1.0 - a) * (s * n);
    assert t + a * (n - t) == (a + (1.0 - a) * s) * n;
  }

  /**
   * With no more tries than consumers and a mean discount at most 1, the
   * perception discount lies between the mean discount and 1, and it is 1
   * exactly when everyone has tried the firm (for a mean discount below 1).
   */
  lemma {:induction false} PerceptionDiscountBetween(f: Firm, mktSize: nat, meanDiscount: real)
    requires mktSize > 0 && f.triedBy <= mktSize && meanDiscount <= 1.0
    ensures meanDiscount <= f.PerceptionDiscount(mktSize, meanDiscount) <= 1.0
    ensures f.triedBy == mktSize ==> f.PerceptionDiscount(mktSize, meanDiscount) == 1.0
    ensures meanDiscount < 1.0 && f.PerceptionDiscount(mktSize, meanDiscount) == 1.0 ==> f.triedBy == mktSize
  {
    var share := f.triedBy as real / mktSize as real;
    assert 0.0 <= share <= 1.0;
    NeighbourHistory.NonNegProduct(1.0 - meanDiscount, share);
    NeighbourHistory.NonNegProduct(1.0 - meanDiscount, 1.0 - share);
    assert (1.0 - meanDiscount) * share + (1.0 - meanDiscount) * (1.0 - share) == 1.0 - meanDiscount;
    if meanDiscount < 1.0 && f.PerceptionDiscount(mktSize, meanDiscount) == 1.0 {
      assert (1.0 - meanDiscount) * (1.0 - share) == 0.0;
      if share < 1.0 {
        StrictPositiveProduct(1.0 - meanDiscount, 1.0 - share);
      }
      assert share * mktSize as real == f.triedBy as real;
    }
  }

  /**
   * A firm every consumer has tried is perceived at its real quality when
   * that quality is on the quality grid.
   */
  lemma {:induction false} FullyTriedFirmIsPerceivedAsIs(f: Firm, realQ: real, mktSize: nat, meanDiscount: real, qualityScale: nat)
    requires mktSize > 0 && f.triedBy == mktSize && meanDiscount <= 1.0
    requires Rounding.OnGrid(realQ, qualityScale)
    ensures f.PerceivedQuality(realQ, mktSize, meanDiscount, qualityScale) == realQ
  {
    PerceptionDiscountBetween(f, mktSize, meanDiscount);
    Rounding.HalfDownOnGridIfOnGrid(realQ, qualityScale);
  }

  /** getUnitCost: (quality / costParameter)^2, never negative. */
  function UnitCost(q: real, costParameter: real): (r: real)
    requires costParameter != 0.0
    ensures r >= 0.0
    ensures r * (costParameter * costParameter) == q * q
  {
    var x := q / costParameter;
    Square(x, costParameter);
    x * x
  }

  lemma MarginTimesDemand(margin: real, demand: int)
    ensures demand > 0 && margin >= 0.0 ==> margin * demand as real >= 0.0
  {
    if demand > 0 && margin >= 0.0 {
      NeighbourHistory.NonNegProduct(margin, demand as real);
    }
  }

  lemma Square(x: real, c: real)
    ensures x * x >= 0.0
    ensures (x * c) * (x * c) == (x * x) * (c * c)
  {
  }

  /** With a positive cost parameter, unit cost grows with quality over non-negative qualities. */
  lemma {:induction false} UnitCostGrowsWithQuality(q1: real, q2: real, costParameter: real)
    requires costParameter > 0.0 && 0.0 <= q1 <= q2
    ensures UnitCost(q1, costParameter) <= UnitCost(q2, costParameter)
  {
    Rounding.DivMono(0.0, q1, costParameter);
    Rounding.DivMono(q1, q2, costParameter);
    SquaresOrdered(q1 / costParameter, q2 / costParameter);
  }

  lemma SquaresOrdered(q1: real, q2: real)
    requires 0.0 <= q1 <= q2
    ensures q1 * q1 <= q2 * q2
  {
    NeighbourHistory.NonNegProduct(q2 - q1, q2 + q1);
    assert q2 * q2 - q1 * q1 == (q2 - q1) * (q2 + q1);
  }

  lemma StrictPositiveProduct(a: real, b: real)
    requires a > 0.0 && b > 0.0
    ensures a * b > 0.0
  {
  }

  /**
   * The moving average can fall below the minimum profit, from an average
   * at or above it, only in a period whose own profit is below the minimum.
   */
  lemma {:induction false} KilledOnlyAfterLowProfit(prev: real, profit: real, w: real, minimumProfit: real)
    requires 0.0 <= w <= 1.0 && prev >= minimumProfit
    requires NeighbourHistory.Smooth(prev, profit, w) < minimumProfit
    ensures profit < minimumProfit
  {
    NeighbourHistory.SmoothStaysBetween(prev, profit, w);
  }
}
