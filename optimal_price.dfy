// optimalPrice.OptimalPrice: the price an offer of a given perceived quality
// and unit cost should post against the expected market. Each window the
// iterator over prices to expel yields is priced on its own (a closed form
// when no firm sits above, the optimiser otherwise); the price with the
// greatest expected margin wins, the first one on ties.
module OptimalPrice {
  import opened Wrappers
  import opened Values
  import Rounding
  import Consumers
  import ExpectedMarket
  import Neighbors
  import NeighborsByPriceToExpel

  /**
   * One pricing problem: the expected market, the offer's perceived quality
   * and unit cost, the configured maximum price and the foreign numerics.
   * optimize(lo, hi, loF, hiF) stands for Brent's method maximising the
   * expected margin between loF and hiF over [lo, hi]; None is its
   * TooManyEvaluationsException.
   */
  datatype Problem = Problem(st: ExpectedMarket.Setting, members: seq<FirmView>, perceivedQ: real, cost: real,
                             maxPrice: real, pow: (real, real) -> real,
                             optimize: (real, real, Option<FirmView>, FirmView) -> Option<real>)

  /**
   * The expected market prices positive qualities, the offer has one, the
   * minimum welfare parameter is positive and the Pareto index exceeds 1
   * (so the closed form's divisor lambda - 1 is not zero).
   */
  predicate ProblemOk(pb: Problem)
  {
    ExpectedMarket.Positive(pb.members) && pb.perceivedQ > 0.0 &&
    pb.st.pop.rawMinWelfare > 0.0 && pb.st.pop.lambda > 1.0
  }

  /** Brent's method only returns points of its search interval. */
  ghost predicate OptimizerStaysInInterval(optimize: (real, real, Option<FirmView>, FirmView) -> Option<real>)
  {
    forall lo, hi, loF, hiF :: optimize(lo, hi, loF, hiF).Some? ==>
      lo <= optimize(lo, hi, loF, hiF).value <= hi
  }

  /** Offer.getMinPrice for the offer's cost and perceived quality. */
  function MinPriceOf(pb: Problem): real
  {
    Consumers.MinPrice(pb.st.pop, pb.st.magnitude, pb.cost, pb.perceivedQ, pb.st.priceScale)
  }

  /** The iterator's fixed inputs for this problem. */
  function SearchOf(pb: Problem): (sr: NeighborsByPriceToExpel.Search)
    ensures NeighborsByPriceToExpel.BoundsOnGrid(sr) <==> Rounding.OnGrid(pb.maxPrice, pb.st.priceScale)
  {
    NeighborsByPriceToExpel.Search(pb.st, pb.members, pb.perceivedQ, MinPriceOf(pb), pb.maxPrice)
  }

  /**
   * (lambda * cost - loP) / (lambda - 1): the price where the margin
   * (p - cost) times a Pareto demand (p - loP)^-lambda stops growing, that
   * is where p - loP equals lambda times p - cost.
   */
  function ClosedForm(lambda: real, cost: real, loP: real): (r: real)
    requires lambda > 1.0
    ensures r - loP == lambda * (r - cost)
  {
    var r := (lambda * cost - loP) / (lambda - 1.0);
    assert r * (lambda - 1.0) == lambda * cost - loP;
    r
  }

  /** The first-order condition has no other solution. */
  lemma {:induction false} ClosedFormIsUnique(lambda: real, cost: real, loP: real, p: real)
    requires lambda > 1.0
    requires p - loP == lambda * (p - cost)
    ensures p == ClosedForm(lambda, cost, loP)
  {
    var d := lambda - 1.0;
    assert p * d == lambda * cost - loP;
    assert p == (p * d) / d;
  }

  /**
   * With a higher firm the window goes to the optimiser as a SearchInterval,
   * which refuses bounds whose lower end is not below the upper one with a
   * NumberIsTooLargeException; get catches only TooManyEvaluationsException.
   */
  predicate Rejected(hiF: Option<FirmView>, lo: real, hi: real)
  {
    hiF.Some? && lo >= hi
  }

  predicate WindowRejected(w: NeighborsByPriceToExpel.Window)
  {
    Rejected(w.hiF, w.loPriceLimit, w.hiPriceLimit)
  }

  /**
   * getSegmentOptimalPrice: without a higher firm, the closed form against
   * the lower firm's price (0 without one), raised to the lower end and
   * lowered to the upper end; with one, the optimiser's point, or the
   * window's midpoint when it gives up, and None for the exception of a
   * rejected search interval. Rounded HALF_DOWN to the price scale.
   */
  function SegmentOptimalPrice(pb: Problem, loF: Option<FirmView>, hiF: Option<FirmView>, lo: real, hi: real): (r: Option<real>)
    requires pb.st.pop.lambda > 1.0
    ensures r.None? <==> Rejected(hiF, lo, hi)
    ensures r.Some? ==> Rounding.OnGrid(r.value, pb.st.priceScale)
  {
    var ps := pb.st.priceScale;
    if hiF.None? then
      var loP := if loF.Some? then loF.value.price else 0.0;
      Some(Rounding.HalfDown(MinReal(MaxReal(ClosedForm(pb.st.pop.lambda, pb.cost, loP), lo), hi), ps))
    else if lo >= hi then None
    else
      match pb.optimize(lo, hi, loF, hiF.value)
      case None => Some(Rounding.HalfDown((lo + hi) / 2.0, ps))
      case Some(x) => Some(Rounding.HalfDown(x, ps))
  }

  /**
   * Every branch that posts a price posts one inside a window whose ends are
   * on the grid; without a higher firm, a closed form already inside is
   * posted as is.
   */
  lemma {:induction false} SegmentPriceInWindow(pb: Problem, loF: Option<FirmView>, hiF: Option<FirmView>, lo: real, hi: real)
    requires pb.st.pop.lambda > 1.0 && OptimizerStaysInInterval(pb.optimize)
    requires Rounding.OnGrid(lo, pb.st.priceScale) && Rounding.OnGrid(hi, pb.st.priceScale) && lo <= hi
    ensures var r := SegmentOptimalPrice(pb, loF, hiF, lo, hi);
      r.Some? ==> lo <= r.value <= hi
    ensures hiF.None? ==>
      var cf := ClosedForm(pb.st.pop.lambda, pb.cost, if loF.Some? then loF.value.price else 0.0);
      lo <= cf <= hi ==> SegmentOptimalPrice(pb, loF, hiF, lo, hi) == Some(Rounding.HalfDown(cf, pb.st.priceScale))
  {
    var ps := pb.st.priceScale;
    var r := SegmentOptimalPrice(pb, loF, hiF, lo, hi);
    if r.Some? {
      var x;
      if hiF.None? {
        var loP := if loF.Some? then loF.value.price else 0.0;
        x := MinReal(MaxReal(ClosedForm(pb.st.pop.lambda, pb.cost, loP), lo), hi);
      } else {
        match pb.optimize(lo, hi, loF, hiF.value)
        case None => x := (lo + hi) / 2.0;
        case Some(y) => x := y;
      }
      Rounding.NearestStaysInGridInterval(x, r.value, lo, hi, ps);
    }
  }

  /** Consumers.expectedQuantity of the offer at a price between the two neighbours. */
  function SegmentDemand(pb: Problem, loF: Option<FirmView>, hiF: Option<FirmView>, price: real): (r: real)
    requires ProblemOk(pb)
    ensures r >= 0.0
  {
    Consumers.ExpectedQuantity(pb.st.pop, pb.st.magnitude, OfferVal(price, pb.perceivedQ),
                               ExpectedMarket.PerceivedOf(loF), ExpectedMarket.PerceivedOf(hiF), pb.pow)
  }

  /** OptimalPriceResult. */
  datatype SegmentResult = SegmentResult(price: real, margin: real)

  /**
   * getSegmentOptimalResult: the window's optimal price and its expected
   * margin, demand times the unit margin, or None when the window's search
   * interval is rejected. A positive margin needs a price above cost; a
   * price at or above cost never has a negative margin.
   */
  function SegmentOptimalResult(pb: Problem, w: NeighborsByPriceToExpel.Window): (r: Option<SegmentResult>)
    requires ProblemOk(pb)
    ensures r.None? <==> WindowRejected(w)
    ensures r.Some? ==> Some(r.value.price) == SegmentOptimalPrice(pb, w.loF, w.hiF, w.loPriceLimit, w.hiPriceLimit)
    ensures r.Some? ==> (r.value.margin > 0.0 ==> r.value.price > pb.cost)
    ensures r.Some? ==> (r.value.price >= pb.cost ==> r.value.margin >= 0.0)
  {
    match SegmentOptimalPrice(pb, w.loF, w.hiF, w.loPriceLimit, w.hiPriceLimit)
    case None => None
    case Some(price) => Some(SegmentResult(price, Margin(SegmentDemand(pb, w.loF, w.hiF, price), price - pb.cost)))
  }

  /** Expected demand times the unit margin. */
  function Margin(demand: real, unitMargin: real): (r: real)
    requires demand >= 0.0
    ensures r > 0.0 ==> unitMargin > 0.0
    ensures unitMargin >= 0.0 ==> r >= 0.0
  {
    ProductSign(demand, unitMargin);
    demand * unitMargin
  }

  lemma ProductSign(d: real, u: real)
    requires d >= 0.0
    ensures d * u > 0.0 ==> u > 0.0
    ensures u >= 0.0 ==> d * u >= 0.0
  {
    if u <= 0.0 {
      assert d * u <= 0.0;
    }
  }

  /**
   * The results of a sequence of windows, one each, or None when the search
   * interval of any of them is rejected: the exception ends get there.
   */
  function Results(pb: Problem, ws: seq<NeighborsByPriceToExpel.Window>): (rs: Option<seq<SegmentResult>>)
    requires ProblemOk(pb)
    ensures rs.None? <==> exists i :: 0 <= i < |ws| && WindowRejected(ws[i])
    ensures rs.Some? ==> |rs.value| == |ws|
    ensures rs.Some? ==> forall i :: 0 <= i < |ws| ==> Some(rs.value[i]) == SegmentOptimalResult(pb, ws[i])
    decreases |ws|
  {
    if |ws| == 0 then Some([])
    else
      var head := SegmentOptimalResult(pb, ws[0]);
      var tail := Results(pb, ws[1..]);
      assert forall i :: 1 <= i < |ws| ==> ws[i] == ws[1..][i - 1];
      if head.None? || tail.None? then None
      else Some([head.value] + tail.value)
  }

  /** get's comparison: a result replaces the best so far only with a strictly greater margin. */
  function Pick(acc: SegmentResult, rs: seq<SegmentResult>): SegmentResult
    decreases |rs|
  {
    if |rs| == 0 then acc
    else Pick(if rs[0].margin > acc.margin then rs[0] else acc, rs[1..])
  }

  /**
   * The pick is the first result of [acc] + rs with the greatest margin:
   * no margin exceeds it, and every result before it has a smaller one.
   */
  lemma {:induction false} PickIsFirstMaximum(acc: SegmentResult, rs: seq<SegmentResult>)
    ensures var r := Pick(acc, rs);
      r.margin >= acc.margin && forall i :: 0 <= i < |rs| ==> rs[i].margin <= r.margin
    ensures var r := Pick(acc, rs);
      r == acc ||
      exists i :: 0 <= i < |rs| && r == rs[i] && r.margin > acc.margin &&
                  forall j :: 0 <= j < i ==> rs[j].margin < r.margin
    decreases |rs|
  {
    if |rs| > 0 {
      var acc' := if rs[0].margin > acc.margin then rs[0] else acc;
      var r := Pick(acc', rs[1..]);
      PickIsFirstMaximum(acc', rs[1..]);
      assert forall i :: 1 <= i < |rs| ==> rs[i] == rs[1..][i - 1];
      if r != acc' {
        var k :| 0 <= k < |rs[1..]| && r == rs[1..][k] && r.margin > acc'.margin &&
                 forall j :: 0 <= j < k ==> rs[1..][j].margin < r.margin;
        assert r == rs[k + 1];
      } else if r != acc {
        assert r == rs[0];
      }
    }
  }

  /**
   * p is the price of the first result of rs with the greatest margin, and
   * that margin is not negative.
   */
  predicate FirstBest(rs: seq<SegmentResult>, p: real)
  {
    exists i :: 0 <= i < |rs| && rs[i].price == p && rs[i].margin >= 0.0 &&
      (forall j :: 0 <= j < |rs| ==> rs[j].margin <= rs[i].margin) &&
      (forall j :: 0 <= j < i ==> rs[j].margin < rs[i].margin)
  }

  /** With a first margin that is not negative, the pick is the first best of [acc] + rs. */
  lemma {:induction false} PickIsFirstBest(acc: SegmentResult, rs: seq<SegmentResult>)
    requires acc.margin >= 0.0
    ensures FirstBest([acc] + rs, Pick(acc, rs).price)
  {
    var all := [acc] + rs;
    var best := Pick(acc, rs);
    PickIsFirstMaximum(acc, rs);
    assert forall j :: 1 <= j < |all| ==> all[j] == rs[j - 1];
    if best == acc {
      assert all[0] == best;
    } else {
      var k :| 0 <= k < |rs| && best == rs[k] && best.margin > acc.margin &&
               forall j :: 0 <= j < k ==> rs[j].margin < best.margin;
      assert all[k + 1] == best;
    }
  }

  /**
   * When the first result is above cost with a margin that is not negative,
   * and any positive margin needs a price above cost, the pick is above cost
   * with a margin that is not negative.
   */
  lemma {:induction false} PickStaysAboveCost(acc: SegmentResult, rs: seq<SegmentResult>, cost: real)
    requires acc.price > cost && acc.margin >= 0.0
    requires forall k :: 0 <= k < |rs| ==> rs[k].margin > 0.0 ==> rs[k].price > cost
    ensures Pick(acc, rs).price > cost && Pick(acc, rs).margin >= 0.0
  {
    PickIsFirstMaximum(acc, rs);
  }

  /** The window get ends its search on when the iterator finds an open one. */
  function StartWindow(pb: Problem): (w: NeighborsByPriceToExpel.Window)
    requires ProblemOk(pb)
    ensures NeighborsByPriceToExpel.WindowOk(SearchOf(pb), w)
  {
    var sr := SearchOf(pb);
    NeighborsByPriceToExpel.Settle(sr, NeighborsByPriceToExpel.Initial(sr))
  }

  /**
   * How get ends: NoPrice, the NumberIsTooLargeException of a rejected
   * search interval, or the price.
   */
  datatype Outcome = NoPrice | NumberIsTooLarge | Priced(price: real)

  /**
   * The rest of get once acc is the best result so far and ws are the
   * windows next has still to return: the exception if one of them is
   * rejected, else the best of acc and their results, rounded HALF_DOWN.
   */
  function Finish(pb: Problem, acc: SegmentResult, ws: seq<NeighborsByPriceToExpel.Window>): (r: Outcome)
    requires ProblemOk(pb)
    ensures !r.NoPrice?
    ensures r.NumberIsTooLarge? <==> exists i :: 0 <= i < |ws| && WindowRejected(ws[i])
  {
    match Results(pb, ws)
    case None => NumberIsTooLarge
    case Some(rs) => Priced(Rounding.HalfDown(Pick(acc, rs).price, pb.st.priceScale))
  }

  /**
   * get: NoPrice when the starting window stays closed, which happens only
   * once no firm is left to expel; the exception when a window next returns
   * is rejected by the optimiser; otherwise the best of the starting
   * window's result and those of the windows next returns, rounded
   * HALF_DOWN to the price scale.
   */
  function GetSpec(pb: Problem): (r: Outcome)
    requires ProblemOk(pb)
    ensures r.NoPrice? <==> StartWindow(pb).loPriceLimit >= StartWindow(pb).hiPriceLimit
    ensures r.NoPrice? ==> StartWindow(pb).queue == []
    ensures var ws := NeighborsByPriceToExpel.Trail(SearchOf(pb), StartWindow(pb));
      r.NumberIsTooLarge? <==> exists i :: 0 <= i < |ws| && WindowRejected(ws[i])
  {
    var w := StartWindow(pb);
    if w.loPriceLimit >= w.hiPriceLimit then NoPrice
    else Finish(pb, SegmentOptimalResult(pb, w).value, NeighborsByPriceToExpel.Trail(SearchOf(pb), w))
  }

  /**
   * An open starting window prices the offer at or above the minimum price,
   * hence above cost, with a margin that is not negative.
   */
  lemma {:induction false} StartResultAboveCost(pb: Problem)
    requires ProblemOk(pb) && OptimizerStaysInInterval(pb.optimize)
    requires Rounding.OnGrid(pb.maxPrice, pb.st.priceScale)
    requires StartWindow(pb).loPriceLimit < StartWindow(pb).hiPriceLimit
    ensures SegmentOptimalResult(pb, StartWindow(pb)).Some?
    ensures SegmentOptimalResult(pb, StartWindow(pb)).value.price >= MinPriceOf(pb) > pb.cost
    ensures SegmentOptimalResult(pb, StartWindow(pb)).value.margin >= 0.0
  {
    var sr := SearchOf(pb);
    var w := StartWindow(pb);
    assert NeighborsByPriceToExpel.EndsOk(sr, NeighborsByPriceToExpel.Initial(sr));
    assert NeighborsByPriceToExpel.EndsOk(sr, w);
    SegmentPriceInWindow(pb, w.loF, w.hiF, w.loPriceLimit, w.hiPriceLimit);
  }

  /**
   * What get returns when it returns a price: a price on the grid, above
   * the unit cost, that is the price of the first window (the starting one,
   * then those next returns) with the greatest expected margin, a margin
   * that is not negative.
   */
  lemma {:induction false} GetPriceIsFirstBest(pb: Problem)
    requires ProblemOk(pb) && OptimizerStaysInInterval(pb.optimize)
    requires Rounding.OnGrid(pb.maxPrice, pb.st.priceScale)
    requires GetSpec(pb).Priced?
    ensures var w := StartWindow(pb);
      var tail := Results(pb, NeighborsByPriceToExpel.Trail(SearchOf(pb), w));
      tail.Some? &&
      var p := GetSpec(pb).price;
      var rs := [SegmentOptimalResult(pb, w).value] + tail.value;
      Rounding.OnGrid(p, pb.st.priceScale) && p > pb.cost && FirstBest(rs, p)
  {
    var w := StartWindow(pb);
    StartResultAboveCost(pb);
    var first := SegmentOptimalResult(pb, w).value;
    var tail := Results(pb, NeighborsByPriceToExpel.Trail(SearchOf(pb), w)).value;
    var best := Pick(first, tail);
    PickStaysAboveCost(first, tail, pb.cost);
    PickIsFirstBest(first, tail);
    PickedPriceOnGrid(pb, first, tail);
    Rounding.HalfDownOnGridIfOnGrid(best.price, pb.st.priceScale);
    assert GetSpec(pb) == Priced(Rounding.HalfDown(best.price, pb.st.priceScale));
  }

  /** Every window's price is on the grid, so the picked one is. */
  lemma PickedPriceOnGrid(pb: Problem, first: SegmentResult, tail: seq<SegmentResult>)
    requires Rounding.OnGrid(first.price, pb.st.priceScale)
    requires forall i :: 0 <= i < |tail| ==> Rounding.OnGrid(tail[i].price, pb.st.priceScale)
    ensures Rounding.OnGrid(Pick(first, tail).price, pb.st.priceScale)
  {
    PickIsFirstMaximum(first, tail);
  }

  /**
   * get: builds the iterator (NoPrice when its starting window stays
   * closed), prices the starting window and every window next returns, ends
   * with the exception at the first rejected window, and otherwise keeps the
   * first result with the greatest margin.
   */
  method Get(pb: Problem) returns (r: Outcome)
    requires ProblemOk(pb)
    ensures r == GetSpec(pb)
  {
    var minPrice := Consumers.MinPrice(pb.st.pop, pb.st.magnitude, pb.cost, pb.perceivedQ, pb.st.priceScale);
    var it := new NeighborsByPriceToExpel.NeighborsByPriceToExpel(pb.st, pb.members, pb.perceivedQ, minPrice, pb.maxPrice);
    var noPrice := it.SetInitialCurrNeighbors();
    if noPrice {
      return NoPrice;
    }
    ghost var sr := SearchOf(pb);
    ghost var target := GetSpec(pb);
    GetSpecFromStart(pb, it.Snapshot());
    var first := SegmentOptimalResult(pb, it.Snapshot());
    var best := first.value;
    while it.HasNext()
      invariant it.Valid() && it.SearchOf() == sr
      invariant fresh(it.currNeighbors)
      invariant Finish(pb, best, NeighborsByPriceToExpel.Trail(sr, it.Snapshot())) == target
      decreases |it.queue|
    {
      ghost var before := it.Snapshot();
      var n := it.Next();
      var temp := SegmentOptimalResult(pb, it.Snapshot());
      FinishAlongTrail(pb, sr, before, best);
      if temp.None? {
        return NumberIsTooLarge;
      }
      if temp.value.margin > best.margin {
        best := temp.value;
      }
    }
    assert NeighborsByPriceToExpel.Trail(sr, it.Snapshot()) == [];
    r := Priced(Rounding.HalfDown(best.price, pb.st.priceScale));
  }

  /** Once the starting window is open, it has a result and get continues from it. */
  lemma GetSpecFromStart(pb: Problem, w0: NeighborsByPriceToExpel.Window)
    requires ProblemOk(pb) && w0 == StartWindow(pb) && w0.loPriceLimit < w0.hiPriceLimit
    ensures SegmentOptimalResult(pb, w0).Some?
    ensures GetSpec(pb) == Finish(pb, SegmentOptimalResult(pb, w0).value, NeighborsByPriceToExpel.Trail(SearchOf(pb), w0))
  {
  }

  /**
   * One step of the loop: a rejected next window ends get with the
   * exception; otherwise get continues from the better of acc and that
   * window's result.
   */
  lemma FinishAlongTrail(pb: Problem, sr: NeighborsByPriceToExpel.Search, w: NeighborsByPriceToExpel.Window, acc: SegmentResult)
    requires ProblemOk(pb) && sr == SearchOf(pb)
    requires NeighborsByPriceToExpel.WindowOk(sr, w) && |w.queue| > 0
    ensures var next := NeighborsByPriceToExpel.Step(sr, w);
      var temp := SegmentOptimalResult(pb, next);
      (temp.None? ==> Finish(pb, acc, NeighborsByPriceToExpel.Trail(sr, w)) == NumberIsTooLarge) &&
      (temp.Some? ==>
         Finish(pb, acc, NeighborsByPriceToExpel.Trail(sr, w)) ==
         Finish(pb, if temp.value.margin > acc.margin then temp.value else acc, NeighborsByPriceToExpel.Trail(sr, next)))
  {
    var next := NeighborsByPriceToExpel.Step(sr, w);
    var ws := NeighborsByPriceToExpel.Trail(sr, w);
    assert ws == [next] + NeighborsByPriceToExpel.Trail(sr, next);
    FinishCons(pb, acc, next, NeighborsByPriceToExpel.Trail(sr, next));
  }

  /** Finish over a first window and the rest. */
  lemma FinishCons(pb: Problem, acc: SegmentResult, x: NeighborsByPriceToExpel.Window, ws: seq<NeighborsByPriceToExpel.Window>)
    requires ProblemOk(pb)
    ensures var temp := SegmentOptimalResult(pb, x);
      (temp.None? ==> Finish(pb, acc, [x] + ws) == NumberIsTooLarge) &&
      (temp.Some? ==>
         Finish(pb, acc, [x] + ws) == Finish(pb, if temp.value.margin > acc.margin then temp.value else acc, ws))
  {
    assert ([x] + ws)[0] == x && ([x] + ws)[1..] == ws;
  }

}
