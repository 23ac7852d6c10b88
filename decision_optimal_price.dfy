// decisionTools.OptimalPrice: the older price search over a FirmsSegments
// set. Competitors whose price to expel exceeds the unit cost are visited
// from the highest price to expel down; each defines a window whose best
// price is found in closed form (no higher firm) or by a root finder on the
// price derivative (with a higher firm). The price of the first window with
// the greatest positive margin wins; 0 when none has one. Prices are doubles
// here, so the limits may be infinite.
module DecisionOptimalPrice {
  import opened Wrappers
  import opened Values
  import Rounding
  import Consumers
  import LegacyOffer
  import FirmsSegments
  import Comparators
  import OptimalPrice

  /**
   * One search: the segments (their context and members), the offer's
   * quality and unit cost, the consumers' Pareto index, and what the search
   * reads from elsewhere. pte is getPriceToExpel(q, .) on the segments and
   * demand is Consumers.expectedQuantity, and offerAt(p) is new Offer(p, q),
   * as OnSegments builds them.
   * solve(lo, hi, loOffer, hiOffer) stands for Newton-Raphson on the price
   * derivative over [lo, hi] (None: TooManyEvaluationsException); isMax is
   * checkMax, the second-order test on the offer it finds.
   */
  datatype Pricing = Pricing(ctx: FirmsSegments.Context, s: seq<FirmView>, q: real, cost: real, lambda: real,
                             pte: FirmView -> LegacyOffer.Result<ExtReal>,
                             demand: (OfferVal, Option<OfferVal>, Option<OfferVal>) -> real,
                             solve: (real, ExtReal, Option<OfferVal>, OfferVal) -> Option<real>,
                             isMax: (OfferVal, Option<OfferVal>, OfferVal) -> bool,
                             offerAt: real -> OfferVal)

  /**
   * The search for an offer of quality q at unit cost cost among the
   * segments' members s, for the consumers pop. Offers outside the demand
   * model's domain (a lone offer of quality 0) have no demand.
   */
  function OnSegments(ctx: FirmsSegments.Context, s: seq<FirmView>, q: real, cost: real,
                      pop: Consumers.Population, magnitude: real, pow: (real, real) -> real,
                      solve: (real, ExtReal, Option<OfferVal>, OfferVal) -> Option<real>,
                      isMax: (OfferVal, Option<OfferVal>, OfferVal) -> bool): (pr: Pricing)
    requires pop.rawMinWelfare > 0.0
    ensures pr.ctx == ctx && pr.s == s && pr.q == q && pr.cost == cost && pr.lambda == pop.lambda
    ensures forall f :: pr.pte(f) == FirmsSegments.PriceToExpel(ctx, s, q, f)
    ensures forall o, lo, hi :: Consumers.LimitDefined(lo, Some(o)) && Consumers.LimitDefined(Some(o), hi) ==>
      pr.demand(o, lo, hi) == Consumers.ExpectedQuantity(pop, magnitude, o, lo, hi, pow)
    ensures forall p :: pr.offerAt(p) == LegacyOffer.Rounded(OfferVal(p, q), ctx.priceScale, ctx.qualityScale)
    ensures pop.lambda > 1.0 ==> PricingOk(pr)
  {
    Pricing(ctx, s, q, cost, pop.lambda,
            (f: FirmView) => FirmsSegments.PriceToExpel(ctx, s, q, f),
            (o: OfferVal, lo: Option<OfferVal>, hi: Option<OfferVal>) =>
              if Consumers.LimitDefined(lo, Some(o)) && Consumers.LimitDefined(Some(o), hi)
              then Consumers.ExpectedQuantity(pop, magnitude, o, lo, hi, pow) else 0.0,
            solve, isMax,
            (p: real) => LegacyOffer.Rounded(OfferVal(p, q), ctx.priceScale, ctx.qualityScale))
  }

  /**
   * The Pareto index exceeds 1 (the closed form divides by lambda - 1)
   * and no demand is negative.
   */
  ghost predicate PricingOk(pr: Pricing)
  {
    pr.lambda > 1.0 && forall o, lo, hi :: pr.demand(o, lo, hi) >= 0.0
  }

  /** The root finder only returns points of its interval. */
  ghost predicate SolverStaysInInterval(solve: (real, ExtReal, Option<OfferVal>, OfferVal) -> Option<real>)
  {
    forall lo, hi, a, b :: solve(lo, hi, a, b).Some? ==>
      lo <= solve(lo, hi, a, b).value && Finite(solve(lo, hi, a, b).value).Le(hi)
  }

  /**
   * How a call ends: a value, NoPrice, the NumberFormatException of an
   * offer built at an infinite price, the Error of a missing higher firm,
   * or an Error raised by Offer.limit while computing a price to expel.
   */
  datatype Outcome<T> = Ok(value: T) | NoPrice | NotFinite | NullHigher | LimitFailed(error: LegacyOffer.LimitError)

  /** An exception, passed on unchanged. */
  function Rethrow<A, B>(o: Outcome<A>): (r: Outcome<B>)
    requires !o.Ok?
    ensures !r.Ok?
  {
    match o
    case NoPrice => NoPrice
    case NotFinite => NotFinite
    case NullHigher => NullHigher
    case LimitFailed(e) => LimitFailed(e)
  }

  /** FastMath.max on doubles. */
  function MaxE(a: ExtReal, b: ExtReal): (r: ExtReal)
    ensures a.Le(r) && b.Le(r) && (r == a || r == b)
  {
    LtIsStrictOrder(a, b, a);
    if a.Lt(b) then b else a
  }

  /** FastMath.min on doubles. */
  function MinE(a: ExtReal, b: ExtReal): (r: ExtReal)
    ensures r.Le(a) && r.Le(b) && (r == a || r == b)
  {
    LtIsStrictOrder(a, b, a);
    if a.Lt(b) then a else b
  }

  /** max with the lower end, then min with the upper end. */
  function Clip(x: ExtReal, lo: ExtReal, hi: ExtReal): (r: ExtReal)
    ensures lo.Le(hi) ==> lo.Le(r) && r.Le(hi)
    ensures lo.Le(x) && x.Le(hi) ==> r == x
    ensures r.Le(hi)
  {
    var m := MaxE(x, lo);
    LtIsStrictOrder(lo, m, hi);
    LtIsStrictOrder(x, lo, hi);
    MinE(m, hi)
  }

  /** getPriceToExpel(q, f) on the segments. */
  function PteOf(pr: Pricing, f: FirmView): LegacyOffer.Result<ExtReal>
  {
    pr.pte(f)
  }

  /**
   * The price to expel of a firm whose computation succeeded. Every firm
   * this is read for is a member, and get stops with the error first when
   * a member's computation fails, so the -infinity default is never read.
   */
  function PteValue(pr: Pricing, f: FirmView): ExtReal
  {
    match PteOf(pr, f)
    case Ok(t) => t
    case Fail(_) => NegInf
  }

  /**
   * The error of the first firm of part whose price to expel fails, in the
   * set's order (the filter computes them in that order).
   */
  function FirstError(pr: Pricing, part: seq<FirmView>): (r: Option<LegacyOffer.LimitError>)
    ensures r.None? <==> forall f :: f in part ==> PteOf(pr, f).Ok?
    ensures r.Some? ==> exists i :: 0 <= i < |part| && PteOf(pr, part[i]) == LegacyOffer.Fail(r.value) &&
                                    forall j :: 0 <= j < i ==> PteOf(pr, part[j]).Ok?
  {
    if |part| == 0 then None
    else if PteOf(pr, part[0]).Fail? then Some(PteOf(pr, part[0]).error)
    else
      var r := FirstError(pr, part[1..]);
      assert forall f :: f in part[1..] ==> f in part;
      assert forall f :: f in part ==> f == part[0] || f in part[1..];
      if r.Some? then
        var i :| 0 <= i < |part[1..]| && PteOf(pr, part[1..][i]) == LegacyOffer.Fail(r.value) &&
                 forall j :: 0 <= j < i ==> PteOf(pr, part[1..][j]).Ok?;
        assert part[i + 1] == part[1..][i];
        assert forall j :: 1 <= j < i + 1 ==> part[j] == part[1..][j - 1];
        r
      else r
  }

  /** The firm's price to expel exceeds the unit cost. */
  predicate AboveCost(pr: Pricing, f: FirmView)
  {
    Finite(pr.cost).Lt(PteValue(pr, f))
  }

  /** The stream's filter: the firms whose price to expel exceeds the cost, in order. */
  function Filter(pr: Pricing, part: seq<FirmView>): (r: seq<FirmView>)
    ensures forall f :: f in r <==> f in part && AboveCost(pr, f)
    ensures |r| <= |part|
  {
    if |part| == 0 then []
    else
      var rest := Filter(pr, part[1..]);
      if AboveCost(pr, part[0]) then [part[0]] + rest else rest
  }

  /** Prices to expel never increase along xs. */
  predicate NonIncreasing(pr: Pricing, xs: seq<FirmView>)
  {
    forall i, j :: 0 <= i < j < |xs| ==> !PteValue(pr, xs[i]).Lt(PteValue(pr, xs[j]))
  }

  /** Puts f before the first firm whose price to expel is not above f's. */
  function InsertByPte(pr: Pricing, f: FirmView, xs: seq<FirmView>): (r: seq<FirmView>)
    requires NonIncreasing(pr, xs)
    ensures NonIncreasing(pr, r)
    ensures multiset(r) == multiset(xs) + multiset{f}
    ensures forall g :: g in r <==> g == f || g in xs
    decreases |xs|
  {
    if |xs| == 0 || PteValue(pr, xs[0]).Le(PteValue(pr, f)) then
      InsertFrontKeepsOrder(pr, f, xs);
      [f] + xs
    else
      var rest := InsertByPte(pr, f, xs[1..]);
      assert xs == [xs[0]] + xs[1..];
      InsertBehindKeepsOrder(pr, xs[0], f, xs[1..], rest);
      [xs[0]] + rest
  }

  lemma InsertFrontKeepsOrder(pr: Pricing, f: FirmView, xs: seq<FirmView>)
    requires NonIncreasing(pr, xs)
    requires |xs| == 0 || PteValue(pr, xs[0]).Le(PteValue(pr, f))
    ensures NonIncreasing(pr, [f] + xs)
  {
    var r := [f] + xs;
    forall i, j | 0 <= i < j < |r|
      ensures !PteValue(pr, r[i]).Lt(PteValue(pr, r[j]))
    {
      if i == 0 {
        LtIsStrictOrder(PteValue(pr, xs[j - 1]), PteValue(pr, xs[0]), PteValue(pr, f));
        LtIsStrictOrder(PteValue(pr, f), PteValue(pr, xs[j - 1]), PteValue(pr, xs[0]));
      }
    }
  }

  lemma InsertBehindKeepsOrder(pr: Pricing, x: FirmView, f: FirmView, xs: seq<FirmView>, rest: seq<FirmView>)
    requires NonIncreasing(pr, [x] + xs) && NonIncreasing(pr, rest)
    requires PteValue(pr, f).Lt(PteValue(pr, x))
    requires forall g :: g in rest ==> g == f || g in xs
    ensures NonIncreasing(pr, [x] + rest)
  {
    var r := [x] + rest;
    forall i, j | 0 <= i < j < |r|
      ensures !PteValue(pr, r[i]).Lt(PteValue(pr, r[j]))
    {
      if i == 0 {
        var g := rest[j - 1];
        assert g in rest;
        assert r[i] == x && r[j] == g;
        LtIsStrictOrder(PteValue(pr, f), PteValue(pr, x), PteValue(pr, f));
        if g != f {
          var k :| 0 <= k < |xs| && xs[k] == g;
          var xs' := [x] + xs;
          assert xs'[0] == x && xs'[k + 1] == g;
          assert !PteValue(pr, xs'[0]).Lt(PteValue(pr, xs'[k + 1]));
        }
      } else {
        assert r[i] == rest[i - 1] && r[j] == rest[j - 1];
      }
    }
  }

  /** A stable sort from the highest price to expel down. */
  function SortByPte(pr: Pricing, xs: seq<FirmView>): (r: seq<FirmView>)
    ensures NonIncreasing(pr, r)
    ensures multiset(r) == multiset(xs)
    ensures forall g :: g in r <==> g in xs
  {
    if |xs| == 0 then []
    else
      assert xs == [xs[0]] + xs[1..];
      InsertByPte(pr, xs[0], SortByPte(pr, xs[1..]))
  }

  /**
   * The iterator both searches walk: the members whose price to expel
   * exceeds the cost, from the highest price to expel down (ties in the
   * set's order).
   */
  function ByPriceToExpel(pr: Pricing): seq<FirmView>
  {
    SortByPte(pr, Filter(pr, pr.s))
  }

  /**
   * Exactly the members above cost, each once as often as in the filter,
   * and never a firm the comparator would put before an earlier one.
   */
  lemma ByPriceToExpelMeaning(pr: Pricing)
    ensures forall f :: f in ByPriceToExpel(pr) <==> f in pr.s && AboveCost(pr, f)
    ensures multiset(ByPriceToExpel(pr)) == multiset(Filter(pr, pr.s))
    ensures var xs := ByPriceToExpel(pr);
      forall i, j :: 0 <= i < j < |xs| && xs[i].id != xs[j].id ==>
        Comparators.CompareByPriceToExpelNoTieBreak((g: FirmView) => PteValue(pr, g), xs[j], xs[i]) == 1
  {
    var xs := ByPriceToExpel(pr);
    forall i, j | 0 <= i < j < |xs| && xs[i].id != xs[j].id
      ensures Comparators.CompareByPriceToExpelNoTieBreak((g: FirmView) => PteValue(pr, g), xs[j], xs[i]) == 1
    {
      assert !PteValue(pr, xs[i]).Lt(PteValue(pr, xs[j]));
    }
  }

  /** new Offer(p, q): both components rounded HALF_DOWN (see OnSegments). */
  function OfferAt(pr: Pricing, p: real): OfferVal
  {
    pr.offerAt(p)
  }

  /** Consumers.expectedQuantity of the offer at p between the two neighbours' segment offers. */
  function Demand(pr: Pricing, p: real, loF: Option<FirmView>, hiF: Option<FirmView>): (r: real)
    requires PricingOk(pr)
    ensures r >= 0.0
  {
    pr.demand(OfferAt(pr, p), FirmsSegments.OfferOf(pr.ctx, loF), FirmsSegments.OfferOf(pr.ctx, hiF))
  }

  /**
   * The expected margin at a price: NotFinite when the price is infinite
   * (the offer cannot be built); never negative at or above cost, and
   * positive only above it.
   */
  function MarginAt(pr: Pricing, p: ExtReal, loF: Option<FirmView>, hiF: Option<FirmView>): (r: Outcome<real>)
    requires PricingOk(pr)
    ensures r.Ok? <==> p.Finite?
    ensures !r.Ok? ==> r == NotFinite
    ensures r.Ok? && p.r >= pr.cost ==> r.value >= 0.0
    ensures r.Ok? && r.value > 0.0 ==> p.r > pr.cost
  {
    if p.Finite? then Ok(OptimalPrice.Margin(Demand(pr, p.r, loF, hiF), p.r - pr.cost)) else NotFinite
  }

  /** getBestBorderSolution as written: the lower border exactly when its margin is below the upper one's. */
  function BorderChoiceAsWritten(loPrice: real, hiPrice: real, loMargin: real, hiMargin: real): real
  {
    if loMargin < hiMargin then loPrice else hiPrice
  }

  /**
   * Whenever the two margins differ, the border returned as written is the
   * one with the smaller margin.
   */
  lemma AsWrittenBorderHasSmallerMargin(loPrice: real, hiPrice: real, loMargin: real, hiMargin: real)
    requires loMargin != hiMargin
    ensures var r := BorderChoiceAsWritten(loPrice, hiPrice, loMargin, hiMargin);
      (loMargin < hiMargin ==> r == loPrice) && (hiMargin < loMargin ==> r == hiPrice)
  {
  }

  /**
   * A window [2, 3] with cost 1 and a demand of one unit at both ends has
   * margins 1 and 2; the border chosen as written is 2, the worse one.
   */
  lemma AsWrittenBorderExample()
    ensures BorderChoiceAsWritten(2.0, 3.0, 1.0 * (2.0 - 1.0), 1.0 * (3.0 - 1.0)) == 2.0
    ensures BorderChoice(2.0, 3.0, 1.0 * (2.0 - 1.0), 1.0 * (3.0 - 1.0)) == 3.0
  {
  }

  /** The best border: the one with the greater margin, the upper one on ties. */
  function BorderChoice(loPrice: real, hiPrice: real, loMargin: real, hiMargin: real): (r: real)
    ensures (r == loPrice && loMargin >= hiMargin) || (r == hiPrice && hiMargin >= loMargin)
    ensures loMargin == hiMargin ==> r == hiPrice
  {
    if loMargin > hiMargin then loPrice else hiPrice
  }

  /** getBestBorderSolution, corrected: margins at both borders, then the better border. */
  function BestBorder(pr: Pricing, lo: real, hi: ExtReal, loF: Option<FirmView>, hiF: Option<FirmView>): (r: Outcome<ExtReal>)
    requires PricingOk(pr)
    ensures r.Ok? <==> hi.Finite?
    ensures !r.Ok? ==> r == NotFinite
    ensures r.Ok? ==> r.value == Finite(lo) || r.value == hi
    ensures r.Ok? ==> MarginAt(pr, r.value, loF, hiF).value >= MarginAt(pr, Finite(lo), loF, hiF).value &&
                      MarginAt(pr, r.value, loF, hiF).value >= MarginAt(pr, hi, loF, hiF).value
  {
    var loMargin := MarginAt(pr, Finite(lo), loF, hiF);
    var hiMargin := MarginAt(pr, hi, loF, hiF);
    if !hiMargin.Ok? then NotFinite
    else Ok(Finite(BorderChoice(lo, hi.r, loMargin.value, hiMargin.value)))
  }

  /**
   * The lower end of a window with a higher firm: the prices to expel of
   * both neighbours and the unit cost, whichever is highest.
   */
  function SegLoLimit(pr: Pricing, loF: Option<FirmView>, hiF: FirmView): (r: ExtReal)
    ensures PteValue(pr, hiF).Le(r) && Finite(pr.cost).Le(r)
    ensures loF.Some? ==> PteValue(pr, loF.value).Le(r)
    ensures r == PteValue(pr, hiF) || r == Finite(pr.cost) || (loF.Some? && r == PteValue(pr, loF.value))
  {
    var lo := PteValue(pr, hiF);
    var lo' := if loF.Some? then MaxE(lo, PteValue(pr, loF.value)) else lo;
    LtIsStrictOrder(lo, lo', MaxE(lo', Finite(pr.cost)));
    if loF.Some? then
      LtIsStrictOrder(PteValue(pr, loF.value), lo', MaxE(lo', Finite(pr.cost)));
      MaxE(lo', Finite(pr.cost))
    else MaxE(lo', Finite(pr.cost))
  }

  /**
   * getSegmentOptimalPrice: NoPrice when the lower end passes the upper
   * one, the common value when they meet; otherwise the root finder's point
   * if checkMax accepts it, else the better border.
   */
  function SegmentOptimalPrice(pr: Pricing, loF: Option<FirmView>, hiF: FirmView, hiLimit: ExtReal): (r: Outcome<ExtReal>)
    requires PricingOk(pr)
    ensures r == NoPrice <==> hiLimit.Lt(SegLoLimit(pr, loF, hiF))
    ensures SegLoLimit(pr, loF, hiF) == hiLimit ==> r == Ok(hiLimit)
    ensures r.Ok? || r == NoPrice || r == NotFinite
  {
    var lo := SegLoLimit(pr, loF, hiF);
    LtIsStrictOrder(lo, hiLimit, lo);
    if hiLimit.Lt(lo) then NoPrice
    else if lo == hiLimit then Ok(lo)
    else
      var loOffer := FirmsSegments.OfferOf(pr.ctx, loF);
      var hiOffer := FirmsSegments.SegOffer(pr.ctx, hiF);
      match pr.solve(lo.r, hiLimit, loOffer, hiOffer)
      case Some(x) =>
        if pr.isMax(OfferAt(pr, x), loOffer, hiOffer) then Ok(Finite(x))
        else BestBorder(pr, lo.r, hiLimit, loF, Some(hiF))
      case None => BestBorder(pr, lo.r, hiLimit, loF, Some(hiF))
  }

  /** A price found for a window lies in the window. */
  lemma SegmentPriceInWindow(pr: Pricing, loF: Option<FirmView>, hiF: FirmView, hiLimit: ExtReal)
    requires PricingOk(pr) && SolverStaysInInterval(pr.solve)
    requires SegmentOptimalPrice(pr, loF, hiF, hiLimit).Ok?
    ensures var x := SegmentOptimalPrice(pr, loF, hiF, hiLimit).value;
      SegLoLimit(pr, loF, hiF).Le(x) && x.Le(hiLimit)
  {
    var lo := SegLoLimit(pr, loF, hiF);
    LtIsStrictOrder(lo, hiLimit, lo);
  }

  /** A window's result as get compares it: (price, margin). */
  type SegmentResult = OptimalPrice.SegmentResult

  /** Puts a window's result in front of the later ones, unless they ended in an exception. */
  function Prepend(r: SegmentResult, o: Outcome<seq<SegmentResult>>): (p: Outcome<seq<SegmentResult>>)
    ensures p.Ok? <==> o.Ok?
    ensures p.Ok? ==> p.value == [r] + o.value
    ensures !p.Ok? ==> p == o
  {
    if o.Ok? then Ok([r] + o.value) else o
  }

  /**
   * A window's result ahead of the later windows' (or the exception): the
   * offer at price must exist, else NotFinite.
   */
  function Scored(pr: Pricing, price: ExtReal, loF: Option<FirmView>, hiF: Option<FirmView>,
                  later: Outcome<seq<SegmentResult>>): (r: Outcome<seq<SegmentResult>>)
    requires PricingOk(pr)
    ensures r.Ok? <==> price.Finite? && later.Ok?
    ensures r.Ok? ==> r.value == [OptimalPrice.SegmentResult(price.r, MarginAt(pr, price, loF, hiF).value)] + later.value
    ensures !price.Finite? ==> r == NotFinite
    ensures price.Finite? && !later.Ok? ==> r == later
  {
    var m := MarginAt(pr, price, loF, hiF);
    if m.Ok? then Prepend(OptimalPrice.SegmentResult(price.r, m.value), later) else NotFinite
  }

  /** The loop's comparison from a best-so-far: the winner's price, or the exception. */
  function Resume(acc: SegmentResult, o: Outcome<seq<SegmentResult>>): Outcome<real>
  {
    if o.Ok? then Ok(OptimalPrice.Pick(acc, o.value).price) else Rethrow(o)
  }

  /** The best so far after one more window: replaced only by a strictly greater margin. */
  function Better(acc: SegmentResult, x: SegmentResult): (r: SegmentResult)
    ensures r == x || r == acc
    ensures r.margin >= acc.margin
    ensures x.margin > acc.margin ==> r == x
  {
    if x.margin > acc.margin then x else acc
  }

  /** One iteration of either loop, on the specification side. */
  lemma ResumeScored(acc: SegmentResult, pr: Pricing, price: ExtReal, loF: Option<FirmView>, hiF: Option<FirmView>,
                     later: Outcome<seq<SegmentResult>>)
    requires PricingOk(pr) && price.Finite?
    ensures Resume(acc, Scored(pr, price, loF, hiF, later)) ==
            Resume(Better(acc, OptimalPrice.SegmentResult(price.r, MarginAt(pr, price, loF, hiF).value)), later)
  {
    var x := OptimalPrice.SegmentResult(price.r, MarginAt(pr, price, loF, hiF).value);
    if later.Ok? {
      assert ([x] + later.value)[1..] == later.value;
    }
  }

  /** An exception out of the window function, passed on by the loop. */
  lemma ResumeRethrows(acc: SegmentResult, x: Outcome<ExtReal>)
    requires !x.Ok?
    ensures Resume(acc, Rethrow(x)) == Rethrow(x)
  {
    match x
    case NoPrice =>
    case NotFinite =>
    case NullHigher =>
    case LimitFailed(_) =>
  }

  /** A queued firm's window without a higher firm: the closed form against its price, clipped to [pte(f), hiLimit]. */
  function QueuedPriceWithout(pr: Pricing, f: FirmView, hiLimit: ExtReal): ExtReal
    requires PricingOk(pr)
  {
    Clip(Finite(OptimalPrice.ClosedForm(pr.lambda, pr.cost, f.price)), PteValue(pr, f), hiLimit)
  }

  /** The firm below the last window: below the last queued firm, or below q when none was queued. */
  function LastLowerWithout(pr: Pricing, loF: Option<FirmView>): Option<FirmView>
  {
    if loF.Some? then FirmsSegments.Lower(pr.ctx.kind, pr.s, loF.value)
    else FirmsSegments.LowerGivenQ(pr.ctx.kind, pr.s, pr.q)
  }

  /** The last window without a higher firm: the closed form against the lower firm's price (0 without one), clipped to [cost, hiLimit]. */
  function LastPriceWithout(pr: Pricing, lo: Option<FirmView>, hiLimit: ExtReal): ExtReal
    requires PricingOk(pr)
  {
    var loPrice := if lo.Some? then lo.value.price else 0.0;
    Clip(Finite(OptimalPrice.ClosedForm(pr.lambda, pr.cost, loPrice)), Finite(pr.cost), hiLimit)
  }

  /**
   * getOptimalPriceWithoutHigherLimitingFirm's windows: one per queued
   * firm f, after which pte(f) becomes the upper end, then the last one.
   */
  function WithoutWindows(pr: Pricing, queue: seq<FirmView>, hiLimit: ExtReal, loF: Option<FirmView>): (r: Outcome<seq<SegmentResult>>)
    requires PricingOk(pr)
    ensures r.Ok? || r == NotFinite
    ensures r.Ok? ==> |r.value| == |queue| + 1
    decreases |queue|
  {
    if |queue| == 0 then
      var lo := LastLowerWithout(pr, loF);
      Scored(pr, LastPriceWithout(pr, lo, hiLimit), lo, None, Ok([]))
    else
      var f := queue[0];
      Scored(pr, QueuedPriceWithout(pr, f, hiLimit), Some(f), None,
             WithoutWindows(pr, queue[1..], PteValue(pr, f), Some(f)))
  }

  /** getOptimalPriceWithoutHigherLimitingFirm: the best window, starting from price and margin 0. */
  function WithoutHigher(pr: Pricing): Outcome<real>
    requires PricingOk(pr)
  {
    Resume(OptimalPrice.SegmentResult(0.0, 0.0), WithoutWindows(pr, ByPriceToExpel(pr), PosInf, None))
  }

  /**
   * Without a higher firm every window is priced at or above the unit
   * cost: each queued firm's price to expel exceeds the cost and bounds the
   * window below, and the upper ends only come down to those prices.
   */
  lemma {:induction false} WithoutWindowsAboveCost(pr: Pricing, queue: seq<FirmView>, hiLimit: ExtReal, loF: Option<FirmView>)
    requires PricingOk(pr) && NonIncreasing(pr, queue)
    requires forall f :: f in queue ==> AboveCost(pr, f)
    requires Finite(pr.cost).Le(hiLimit)
    requires |queue| > 0 ==> PteValue(pr, queue[0]).Le(hiLimit)
    ensures var r := WithoutWindows(pr, queue, hiLimit, loF);
      r.Ok? ==> forall k :: 0 <= k < |r.value| ==> r.value[k].price >= pr.cost && r.value[k].margin >= 0.0
    decreases |queue|
  {
    var r := WithoutWindows(pr, queue, hiLimit, loF);
    if r.Ok? {
      if |queue| == 0 {
        var lo := LastLowerWithout(pr, loF);
        WindowAboveCost(pr, LastPriceWithout(pr, lo, hiLimit), lo, None, Ok([]));
      } else {
        var f := queue[0];
        assert f in queue;
        var t := PteValue(pr, f);
        assert NonIncreasing(pr, queue[1..]);
        if |queue| > 1 {
          assert !t.Lt(PteValue(pr, queue[1]));
          LtIsStrictOrder(t, PteValue(pr, queue[1]), t);
        }
        assert forall g :: g in queue[1..] ==> g in queue;
        LtIsStrictOrder(Finite(pr.cost), t, hiLimit);
        var later := WithoutWindows(pr, queue[1..], t, Some(f));
        WithoutWindowsAboveCost(pr, queue[1..], t, Some(f));
        LtIsStrictOrder(Finite(pr.cost), t, QueuedPriceWithout(pr, f, hiLimit));
        WindowAboveCost(pr, QueuedPriceWithout(pr, f, hiLimit), Some(f), None, later);
      }
    }
  }

  /** A window priced at or above cost keeps every result at or above cost. */
  lemma WindowAboveCost(pr: Pricing, price: ExtReal, loF: Option<FirmView>, hiF: Option<FirmView>,
                        later: Outcome<seq<SegmentResult>>)
    requires PricingOk(pr)
    requires Finite(pr.cost).Le(price)
    requires later.Ok? ==> forall k :: 0 <= k < |later.value| ==> later.value[k].price >= pr.cost && later.value[k].margin >= 0.0
    ensures var r := Scored(pr, price, loF, hiF, later);
      r.Ok? ==> forall k :: 0 <= k < |r.value| ==> r.value[k].price >= pr.cost && r.value[k].margin >= 0.0
  {
    var r := Scored(pr, price, loF, hiF, later);
    if r.Ok? {
      forall k | 0 <= k < |r.value|
        ensures r.value[k].price >= pr.cost && r.value[k].margin >= 0.0
      {
        if k > 0 {
          assert r.value[k] == later.value[k - 1];
        }
      }
    }
  }

  /** After a queued firm f: it replaces the lower neighbour when its segment quality is below q, the higher one otherwise. */
  function QueuedNeighbours(pr: Pricing, f: FirmView, loF: Option<FirmView>, hiF: FirmView): (r: (Option<FirmView>, FirmView))
    ensures r.0 == loF || r.1 == hiF
    ensures r.0 == Some(f) || r.1 == f
  {
    if FirmsSegments.SegQ(pr.ctx.kind, f) < pr.q then (Some(f), hiF) else (loF, f)
  }

  /**
   * The neighbours of the last window: below q when nothing was queued;
   * otherwise the last queued firm is expelled, so its own neighbour on
   * that side takes its place (possibly none above).
   */
  function LastNeighbours(pr: Pricing, loF: Option<FirmView>, hiF: FirmView, lastF: Option<FirmView>): (Option<FirmView>, Option<FirmView>)
  {
    var kind := pr.ctx.kind;
    if lastF.None? then (FirmsSegments.LowerGivenQ(kind, pr.s, pr.q), Some(hiF))
    else if FirmsSegments.SegQ(kind, lastF.value) < pr.q then (FirmsSegments.Lower(kind, pr.s, lastF.value), Some(hiF))
    else (loF, FirmsSegments.Higher(kind, pr.s, lastF.value))
  }

  /**
   * getOptimalPriceWithHigherLimitingFirms' windows: for each queued firm f
   * the neighbours move, the window's price (getSegmentOptimalPrice under
   * hiLimit) is clipped to [pte(f), hiLimit] and pte(f) becomes the upper
   * end. The last window is clipped to [cost, hiLimit] and needs a higher
   * firm.
   */
  function WithWindows(pr: Pricing, queue: seq<FirmView>, hiLimit: ExtReal, loF: Option<FirmView>, hiF: FirmView,
                       lastF: Option<FirmView>): (r: Outcome<seq<SegmentResult>>)
    requires PricingOk(pr)
    ensures r.Ok? ==> |r.value| == |queue| + 1
    ensures !r.Ok? ==> r == NoPrice || r == NotFinite || r == NullHigher
    decreases |queue|
  {
    if |queue| == 0 then
      var (lo, hi) := LastNeighbours(pr, loF, hiF, lastF);
      if hi.None? then NullHigher
      else
        var x := SegmentOptimalPrice(pr, lo, hi.value, hiLimit);
        if !x.Ok? then Rethrow(x)
        else Scored(pr, Clip(x.value, Finite(pr.cost), hiLimit), lo, hi, Ok([]))
    else
      var f := queue[0];
      var (lo, hi) := QueuedNeighbours(pr, f, loF, hiF);
      var x := SegmentOptimalPrice(pr, lo, hi, hiLimit);
      if !x.Ok? then Rethrow(x)
      else Scored(pr, Clip(x.value, PteValue(pr, f), hiLimit), lo, Some(hi),
                  WithWindows(pr, queue[1..], PteValue(pr, f), lo, hi, Some(f)))
  }

  /**
   * getOptimalPriceWithHigherLimitingFirms: the windows start under the
   * higher firm's price less MIN_NORMAL, with the firm below q as lower
   * neighbour.
   */
  function WithHigher(pr: Pricing, hiF: FirmView): Outcome<real>
    requires PricingOk(pr)
  {
    Resume(OptimalPrice.SegmentResult(0.0, 0.0),
           WithWindows(pr, ByPriceToExpel(pr), Finite(hiF.price - pr.ctx.eps),
                       FirmsSegments.LowerGivenQ(pr.ctx.kind, pr.s, pr.q), hiF, None))
  }

  /**
   * A price found for a window, clipped under hiLimit, stays at or above
   * the cost: the window's lower end is.
   */
  lemma ClippedSegmentPriceAboveCost(pr: Pricing, loF: Option<FirmView>, hiF: FirmView, hiLimit: ExtReal, lo: ExtReal)
    requires PricingOk(pr) && SolverStaysInInterval(pr.solve)
    requires SegmentOptimalPrice(pr, loF, hiF, hiLimit).Ok?
    ensures Finite(pr.cost).Le(Clip(SegmentOptimalPrice(pr, loF, hiF, hiLimit).value, lo, hiLimit))
  {
    var x := SegmentOptimalPrice(pr, loF, hiF, hiLimit).value;
    var low := SegLoLimit(pr, loF, hiF);
    SegmentPriceInWindow(pr, loF, hiF, hiLimit);
    LtIsStrictOrder(Finite(pr.cost), low, x);
    var m := MaxE(x, lo);
    LtIsStrictOrder(Finite(pr.cost), x, m);
    LtIsStrictOrder(x, m, hiLimit);
    LtIsStrictOrder(Finite(pr.cost), x, hiLimit);
  }

  /**
   * With a higher firm every window is priced at or above the unit cost,
   * provided the root finder stays in its interval: each window's lower end
   * is at or above the cost.
   */
  lemma {:induction false} WithWindowsAboveCost(pr: Pricing, queue: seq<FirmView>, hiLimit: ExtReal, loF: Option<FirmView>,
                                                hiF: FirmView, lastF: Option<FirmView>)
    requires PricingOk(pr) && SolverStaysInInterval(pr.solve)
    ensures var r := WithWindows(pr, queue, hiLimit, loF, hiF, lastF);
      r.Ok? ==> forall k :: 0 <= k < |r.value| ==> r.value[k].price >= pr.cost && r.value[k].margin >= 0.0
    decreases |queue|
  {
    var r := WithWindows(pr, queue, hiLimit, loF, hiF, lastF);
    if r.Ok? {
      if |queue| == 0 {
        var (lo, hi) := LastNeighbours(pr, loF, hiF, lastF);
        ClippedSegmentPriceAboveCost(pr, lo, hi.value, hiLimit, Finite(pr.cost));
        var x := SegmentOptimalPrice(pr, lo, hi.value, hiLimit);
        WindowAboveCost(pr, Clip(x.value, Finite(pr.cost), hiLimit), lo, hi, Ok([]));
      } else {
        var f := queue[0];
        var (lo, hi) := QueuedNeighbours(pr, f, loF, hiF);
        var t := PteValue(pr, f);
        ClippedSegmentPriceAboveCost(pr, lo, hi, hiLimit, t);
        var x := SegmentOptimalPrice(pr, lo, hi, hiLimit);
        var later := WithWindows(pr, queue[1..], t, lo, hi, Some(f));
        WithWindowsAboveCost(pr, queue[1..], t, lo, hi, Some(f));
        WindowAboveCost(pr, Clip(x.value, t, hiLimit), lo, Some(hi), later);
      }
    }
  }

  /**
   * get: an error of a price to expel first; the closed-form search when
   * the set is empty or no firm sits above q, the root-finding search
   * against the first firm above q otherwise.
   */
  function GetSpec(pr: Pricing): (r: Outcome<real>)
    requires PricingOk(pr)
    ensures r.LimitFailed? <==> FirstError(pr, pr.s).Some?
    ensures FirstError(pr, pr.s).None? && FirmsSegments.HigherGivenQ(pr.ctx.kind, pr.s, pr.q).None? ==>
      r == WithoutHigher(pr)
  {
    match FirstError(pr, pr.s)
    case Some(e) => LimitFailed(e)
    case None =>
      if |pr.s| == 0 then WithoutHigher(pr)
      else
        match FirmsSegments.HigherGivenQ(pr.ctx.kind, pr.s, pr.q)
        case None => WithoutHigher(pr)
        case Some(h) => WithHigher(pr, h)
  }

  /**
   * What a price returned by either search means: 0 when no window has a
   * positive margin, otherwise the price of the first window with the
   * greatest margin, which is then positive.
   */
  lemma ResumeIsFirstBest(o: Outcome<seq<SegmentResult>>, cost: real)
    requires o.Ok?
    requires forall k :: 0 <= k < |o.value| ==> o.value[k].price >= cost
    ensures var p := Resume(OptimalPrice.SegmentResult(0.0, 0.0), o).value;
      OptimalPrice.FirstBest([OptimalPrice.SegmentResult(0.0, 0.0)] + o.value, p) && (p == 0.0 || p >= cost)
  {
    var acc := OptimalPrice.SegmentResult(0.0, 0.0);
    OptimalPrice.PickIsFirstBest(acc, o.value);
    OptimalPrice.PickIsFirstMaximum(acc, o.value);
  }

  /**
   * Without a higher firm, get returns 0 or the price of the first best
   * window, and that price is at or above the unit cost.
   */
  lemma {:induction false} WithoutHigherMeaning(pr: Pricing)
    requires PricingOk(pr)
    ensures var o := WithoutWindows(pr, ByPriceToExpel(pr), PosInf, None);
      WithoutHigher(pr).Ok? <==> o.Ok?
    ensures var o := WithoutWindows(pr, ByPriceToExpel(pr), PosInf, None);
      o.Ok? ==> OptimalPrice.FirstBest([OptimalPrice.SegmentResult(0.0, 0.0)] + o.value, WithoutHigher(pr).value) &&
                (WithoutHigher(pr).value == 0.0 || WithoutHigher(pr).value >= pr.cost)
  {
    var queue := ByPriceToExpel(pr);
    var o := WithoutWindows(pr, queue, PosInf, None);
    ByPriceToExpelMeaning(pr);
    if |queue| > 0 {
      assert PteValue(pr, queue[0]).Le(PosInf) by {
        LtIsStrictOrder(PteValue(pr, queue[0]), PosInf, PosInf);
      }
    }
    WithoutWindowsAboveCost(pr, queue, PosInf, None);
    if o.Ok? {
      ResumeIsFirstBest(o, pr.cost);
    }
  }

  /**
   * With a higher firm, get returns 0 or the price of the first best
   * window, and that price is at or above the unit cost when the root
   * finder stays in its interval.
   */
  lemma WithHigherMeaning(pr: Pricing, hiF: FirmView)
    requires PricingOk(pr) && SolverStaysInInterval(pr.solve)
    ensures var o := WithWindows(pr, ByPriceToExpel(pr), Finite(hiF.price - pr.ctx.eps),
                                 FirmsSegments.LowerGivenQ(pr.ctx.kind, pr.s, pr.q), hiF, None);
      (WithHigher(pr, hiF).Ok? <==> o.Ok?) &&
      (o.Ok? ==> OptimalPrice.FirstBest([OptimalPrice.SegmentResult(0.0, 0.0)] + o.value, WithHigher(pr, hiF).value) &&
                 (WithHigher(pr, hiF).value == 0.0 || WithHigher(pr, hiF).value >= pr.cost))
  {
    var queue, hiLimit, loF := ByPriceToExpel(pr), Finite(hiF.price - pr.ctx.eps), FirmsSegments.LowerGivenQ(pr.ctx.kind, pr.s, pr.q);
    var o := WithWindows(pr, queue, hiLimit, loF, hiF, None);
    WithWindowsAboveCost(pr, queue, hiLimit, loF, hiF, None);
    assert WithHigher(pr, hiF) == Resume(OptimalPrice.SegmentResult(0.0, 0.0), o);
    ResumeMeaning(o, pr.cost);
  }

  /** Either search's result is a price exactly when its windows are, and then means what ResumeIsFirstBest says. */
  lemma ResumeMeaning(o: Outcome<seq<SegmentResult>>, cost: real)
    requires o.Ok? ==> forall k :: 0 <= k < |o.value| ==> o.value[k].price >= cost
    ensures Resume(OptimalPrice.SegmentResult(0.0, 0.0), o).Ok? <==> o.Ok?
    ensures o.Ok? ==> var p := Resume(OptimalPrice.SegmentResult(0.0, 0.0), o).value;
      OptimalPrice.FirstBest([OptimalPrice.SegmentResult(0.0, 0.0)] + o.value, p) && (p == 0.0 || p >= cost)
  {
    if o.Ok? {
      ResumeIsFirstBest(o, cost);
    }
  }

  /** A price get returns is 0 or at least the unit cost: get never sells below cost. */
  lemma GetNeverBelowCost(pr: Pricing)
    requires PricingOk(pr) && SolverStaysInInterval(pr.solve)
    ensures GetSpec(pr).Ok? ==> GetSpec(pr).value == 0.0 || GetSpec(pr).value >= pr.cost
  {
    WithoutHigherMeaning(pr);
    var h := FirmsSegments.HigherGivenQ(pr.ctx.kind, pr.s, pr.q);
    if h.Some? {
      WithHigherMeaning(pr, h.value);
    }
  }

  /**
   * getOptimalPriceWithoutHigherLimitingFirm: walks the iterator keeping
   * the best price and margin, then prices the last window.
   */
  method WithoutHigherLimitingFirm(pr: Pricing) returns (r: Outcome<real>)
    requires PricingOk(pr)
    ensures r == WithoutHigher(pr)
  {
    var queue := ByPriceToExpel(pr);
    var loF: Option<FirmView> := None;
    var hiLimit := PosInf;
    var retval, maxMargin := 0.0, 0.0;
    var i := 0;
    while i < |queue|
      invariant 0 <= i <= |queue|
      invariant Resume(OptimalPrice.SegmentResult(retval, maxMargin), WithoutWindows(pr, queue[i..], hiLimit, loF))
                == WithoutHigher(pr)
      decreases |queue| - i
    {
      var f := queue[i];
      assert queue[i..][1..] == queue[i + 1..];
      loF := Some(f);
      var tempPrice := QueuedPriceWithout(pr, f, hiLimit);
      if !tempPrice.Finite? {
        return NotFinite;
      }
      var tempMargin := MarginAt(pr, tempPrice, loF, None).value;
      ResumeScored(OptimalPrice.SegmentResult(retval, maxMargin), pr, tempPrice, loF, None,
                   WithoutWindows(pr, queue[i + 1..], PteValue(pr, f), loF));
      if tempMargin > maxMargin {
        retval := tempPrice.r;
        maxMargin := tempMargin;
      }
      hiLimit := PteValue(pr, f);
      i := i + 1;
    }
    var lo := LastLowerWithout(pr, loF);
    var tempPrice := LastPriceWithout(pr, lo, hiLimit);
    if !tempPrice.Finite? {
      return NotFinite;
    }
    var tempMargin := MarginAt(pr, tempPrice, lo, None).value;
    ResumeScored(OptimalPrice.SegmentResult(retval, maxMargin), pr, tempPrice, lo, None, Ok([]));
    if tempMargin > maxMargin {
      retval := tempPrice.r;
    }
    r := Ok(retval);
  }

  /**
   * One queued window of WithWindows from a best-so-far acc: the window's
   * exception, NotFinite when its clipped price is infinite, otherwise the
   * comparison goes on from the better of acc and the window.
   */
  lemma ResumeQueuedWindow(acc: SegmentResult, pr: Pricing, queue: seq<FirmView>, hiLimit: ExtReal,
                           loF: Option<FirmView>, hiF: FirmView, lastF: Option<FirmView>)
    requires PricingOk(pr) && |queue| > 0
    ensures var f := queue[0];
      var n := QueuedNeighbours(pr, f, loF, hiF);
      var x := SegmentOptimalPrice(pr, n.0, n.1, hiLimit);
      var w := Resume(acc, WithWindows(pr, queue, hiLimit, loF, hiF, lastF));
      (!x.Ok? ==> w == Rethrow(x)) &&
      (x.Ok? && !Clip(x.value, PteValue(pr, f), hiLimit).Finite? ==> w == NotFinite) &&
      (x.Ok? && Clip(x.value, PteValue(pr, f), hiLimit).Finite? ==>
         w == Resume(Better(acc, OptimalPrice.SegmentResult(Clip(x.value, PteValue(pr, f), hiLimit).r,
                                                             MarginAt(pr, Clip(x.value, PteValue(pr, f), hiLimit), n.0, Some(n.1)).value)),
                     WithWindows(pr, queue[1..], PteValue(pr, f), n.0, n.1, Some(f))))
  {
    var f := queue[0];
    var n := QueuedNeighbours(pr, f, loF, hiF);
    var x := SegmentOptimalPrice(pr, n.0, n.1, hiLimit);
    if !x.Ok? {
      ResumeRethrows(acc, x);
    } else {
      var t := Clip(x.value, PteValue(pr, f), hiLimit);
      if t.Finite? {
        ResumeScored(acc, pr, t, n.0, Some(n.1), WithWindows(pr, queue[1..], PteValue(pr, f), n.0, n.1, Some(f)));
      }
    }
  }

  /**
   * The last window of WithWindows from a best-so-far acc: NullHigher
   * without a higher neighbour, the window's exception, NotFinite for an
   * infinite clipped price, otherwise the better of acc and the window.
   */
  lemma ResumeLastWindow(acc: SegmentResult, pr: Pricing, hiLimit: ExtReal, loF: Option<FirmView>, hiF: FirmView,
                         lastF: Option<FirmView>)
    requires PricingOk(pr)
    ensures var n := LastNeighbours(pr, loF, hiF, lastF);
      var w := Resume(acc, WithWindows(pr, [], hiLimit, loF, hiF, lastF));
      (n.1.None? ==> w == NullHigher) &&
      (n.1.Some? ==>
         var x := SegmentOptimalPrice(pr, n.0, n.1.value, hiLimit);
         (!x.Ok? ==> w == Rethrow(x)) &&
         (x.Ok? && !Clip(x.value, Finite(pr.cost), hiLimit).Finite? ==> w == NotFinite) &&
         (x.Ok? && Clip(x.value, Finite(pr.cost), hiLimit).Finite? ==>
            w == Ok(Better(acc, OptimalPrice.SegmentResult(Clip(x.value, Finite(pr.cost), hiLimit).r,
                                                            MarginAt(pr, Clip(x.value, Finite(pr.cost), hiLimit), n.0, n.1).value)).price)))
  {
    var n := LastNeighbours(pr, loF, hiF, lastF);
    if n.1.Some? {
      var x := SegmentOptimalPrice(pr, n.0, n.1.value, hiLimit);
      if !x.Ok? {
        ResumeRethrows(acc, x);
      } else {
        var t := Clip(x.value, Finite(pr.cost), hiLimit);
        if t.Finite? {
          ResumeScored(acc, pr, t, n.0, n.1, Ok([]));
        }
      }
    }
  }

  /**
   * getOptimalPriceWithHigherLimitingFirms: walks the iterator moving one
   * neighbour per firm, keeping the best price and margin, then prices the
   * window left once the last firm is expelled.
   */
  method WithHigherLimitingFirms(pr: Pricing, hiF0: FirmView) returns (r: Outcome<real>)
    requires PricingOk(pr)
    ensures r == WithHigher(pr, hiF0)
  {
    var queue := ByPriceToExpel(pr);
    var loF := FirmsSegments.LowerGivenQ(pr.ctx.kind, pr.s, pr.q);
    var hiF := hiF0;
    var hiLimit := Finite(hiF0.price - pr.ctx.eps);
    var retval, maxMargin := 0.0, 0.0;
    var tempF: Option<FirmView> := None;
    ghost var target := WithHigher(pr, hiF0);
    var i := 0;
    assert queue[i..] == queue;
    while i < |queue|
      invariant 0 <= i <= |queue|
      invariant Resume(OptimalPrice.SegmentResult(retval, maxMargin), WithWindows(pr, queue[i..], hiLimit, loF, hiF, tempF))
                == target
      decreases |queue| - i
    {
      var f := queue[i];
      ghost var acc := OptimalPrice.SegmentResult(retval, maxMargin);
      ghost var rest := queue[i..];
      assert rest[0] == f && rest[1..] == queue[i + 1..];
      ResumeQueuedWindow(acc, pr, rest, hiLimit, loF, hiF, tempF);
      tempF := Some(f);
      loF, hiF := QueuedNeighbours(pr, f, loF, hiF).0, QueuedNeighbours(pr, f, loF, hiF).1;
      var x := SegmentOptimalPrice(pr, loF, hiF, hiLimit);
      if !x.Ok? {
        return Rethrow(x);
      }
      var tempPrice := Clip(x.value, PteValue(pr, f), hiLimit);
      if !tempPrice.Finite? {
        return NotFinite;
      }
      var tempMargin := MarginAt(pr, tempPrice, loF, Some(hiF)).value;
      if tempMargin > maxMargin {
        retval := tempPrice.r;
        maxMargin := tempMargin;
      }
      assert OptimalPrice.SegmentResult(retval, maxMargin) == Better(acc, OptimalPrice.SegmentResult(tempPrice.r, tempMargin));
      hiLimit := PteValue(pr, f);
      i := i + 1;
    }
    assert queue[i..] == [];
    r := LastWindow(pr, hiLimit, loF, hiF, tempF, OptimalPrice.SegmentResult(retval, maxMargin));
  }

  /**
   * The window left once the last queued firm is expelled, compared with
   * the best so far (acc): the loop's tail in
   * getOptimalPriceWithHigherLimitingFirms.
   */
  method LastWindow(pr: Pricing, hiLimit: ExtReal, loF: Option<FirmView>, hiF: FirmView, lastF: Option<FirmView>,
                    acc: SegmentResult) returns (r: Outcome<real>)
    requires PricingOk(pr)
    ensures r == Resume(acc, WithWindows(pr, [], hiLimit, loF, hiF, lastF))
  {
    ResumeLastWindow(acc, pr, hiLimit, loF, hiF, lastF);
    var lo, hi := LastNeighbours(pr, loF, hiF, lastF).0, LastNeighbours(pr, loF, hiF, lastF).1;
    if hi.None? {
      return NullHigher;
    }
    var x := SegmentOptimalPrice(pr, lo, hi.value, hiLimit);
    if !x.Ok? {
      return Rethrow(x);
    }
    var tempPrice := Clip(x.value, Finite(pr.cost), hiLimit);
    if !tempPrice.Finite? {
      return NotFinite;
    }
    var tempMargin := MarginAt(pr, tempPrice, lo, hi).value;
    var retval := acc.price;
    if tempMargin > acc.margin {
      retval := tempPrice.r;
    }
    r := Ok(retval);
  }

  /** get. */
  method Get(pr: Pricing) returns (r: Outcome<real>)
    requires PricingOk(pr)
    ensures r == GetSpec(pr)
  {
    var err := FirstError(pr, pr.s);
    if err.Some? {
      return LimitFailed(err.value);
    }
    if |pr.s| == 0 {
      r := WithoutHigherLimitingFirm(pr);
      return;
    }
    var hiF := FirmsSegments.HigherGivenQ(pr.ctx.kind, pr.s, pr.q);
    if hiF.None? {
      r := WithoutHigherLimitingFirm(pr);
    } else {
      r := WithHigherLimitingFirms(pr, hiF.value);
    }
  }
}
