// The quality-and-price improvement of the improvingOffer package: for each
// real quality a firm may move to, the optimal price and its margin are
// estimated against one expected market, and the offer with the largest
// margin is chosen. Its comparator orders decision results by margin.
module ImprovingOffer {
  import opened Wrappers
  import opened Values
  import OptimalPrice

  /** firms.DecisionResult: a price, the REAL quality it was estimated for, and its margin. */
  datatype DecisionResult = DecisionResult(price: real, quality: real, margin: real)

  /**
   * What get works with for one firm: its perceived quality and unit cost
   * as functions of a real quality (Firm.getPerceivedQuality and
   * Firm.getUnitCost), and OptimalPrice.get against the single expected
   * market that excludes the firm, built once and shared by every option.
   */
  datatype Estimator = Estimator(perceived: real -> real, unitCost: real -> real,
                                 optimal: (real, real) -> Option<OptimalPrice.SegmentResult>)

  /** getDecisionResult: the optimiser's price and margin, stored with the real quality. */
  function DecisionFor(e: Estimator, realQ: real): (r: Option<DecisionResult>)
    ensures r.None? <==> e.optimal(e.perceived(realQ), e.unitCost(realQ)).None?
    ensures r.Some? ==>
      r.value.quality == realQ &&
      r.value.price == e.optimal(e.perceived(realQ), e.unitCost(realQ)).value.price &&
      r.value.margin == e.optimal(e.perceived(realQ), e.unitCost(realQ)).value.margin
  {
    match e.optimal(e.perceived(realQ), e.unitCost(realQ))
    case None => None
    case Some(res) => Some(DecisionResult(res.price, realQ, res.margin))
  }

  /**
   * improvingOffer.DecisionComparator.compare: the sign of the margin
   * difference. Both arguments must be present.
   */
  function Compare(d1: Option<DecisionResult>, d2: Option<DecisionResult>): (r: int)
    requires d1.Some? && d2.Some?
    ensures r == -1 || r == 0 || r == 1
    ensures r == 0 <==> d1.value.margin == d2.value.margin
    ensures r > 0 <==> d1.value.margin > d2.value.margin
  {
    Sign(d1.value.margin - d2.value.margin)
  }

  /** The comparator is antisymmetric and its non-negative results are transitive. */
  lemma {:induction false} CompareIsTotalPreorder(a: DecisionResult, b: DecisionResult, c: DecisionResult)
    ensures Compare(Some(a), Some(b)) == -Compare(Some(b), Some(a))
    ensures Compare(Some(a), Some(b)) >= 0 && Compare(Some(b), Some(c)) >= 0 ==> Compare(Some(a), Some(c)) >= 0
  {
  }

  /** The present decision results of the options, in option order (map, then filter). */
  function Survivors(e: Estimator, opts: seq<real>): (s: seq<DecisionResult>)
    ensures |s| <= |opts|
    ensures forall x :: x in s <==> x.quality in opts && DecisionFor(e, x.quality) == Some(x)
  {
    if opts == [] then []
    else
      var rest := Survivors(e, opts[1..]);
      assert forall q :: q in opts <==> q == opts[0] || q in opts[1..];
      match DecisionFor(e, opts[0])
      case None => rest
      case Some(d) => [d] + rest
  }

  /** One step of Stream.max: the accumulated maximum is kept unless the next one compares above it. */
  function MaxBy(acc: Option<DecisionResult>, x: DecisionResult): Option<DecisionResult>
  {
    if acc.None? then Some(x)
    else if Compare(acc, Some(x)) >= 0 then acc
    else Some(x)
  }

  /** Stream.max(new DecisionComparator()): the reduction with MaxBy; empty for no survivors. */
  function Max(acc: Option<DecisionResult>, s: seq<DecisionResult>): Option<DecisionResult>
    decreases |s|
  {
    if s == [] then acc else Max(MaxBy(acc, s[0]), s[1..])
  }

  /** The offer a decision result turns into: its price and real quality. */
  function OfferOf(d: DecisionResult): OfferVal
  {
    OfferVal(d.price, d.quality)
  }

  /** get: the offer with the largest margin over the options, empty if none has a price. */
  function Get(e: Estimator, opts: seq<real>): Option<OfferVal>
  {
    match Max(None, Survivors(e, opts))
    case None => None
    case Some(d) => Some(OfferOf(d))
  }

  /** s[k] has the greatest margin of s, and every result before it a smaller one. */
  predicate FirstMaxAt(s: seq<DecisionResult>, k: int)
  {
    0 <= k < |s| &&
    (forall j :: 0 <= j < |s| ==> s[j].margin <= s[k].margin) &&
    (forall j :: 0 <= j < k ==> s[j].margin < s[k].margin)
  }

  /**
   * Reducing from a present accumulator keeps it unless some element has a
   * strictly greater margin, and then gives the first element with the
   * greatest margin.
   */
  lemma {:induction false} MaxFromPresent(a: DecisionResult, s: seq<DecisionResult>)
    ensures Max(Some(a), s).Some?
    ensures var r := Max(Some(a), s).value;
      r.margin >= a.margin && forall j :: 0 <= j < |s| ==> s[j].margin <= r.margin
    ensures var r := Max(Some(a), s).value;
      r == a || exists k :: 0 <= k < |s| && r == s[k] && r.margin > a.margin &&
                             forall j :: 0 <= j < k ==> s[j].margin < r.margin
    decreases |s|
  {
    if s != [] {
      var a' := MaxBy(Some(a), s[0]).value;
      MaxFromPresent(a', s[1..]);
      var r := Max(Some(a), s).value;
      assert r == Max(Some(a'), s[1..]).value;
      assert forall i :: 1 <= i < |s| ==> s[i] == s[1..][i - 1];
      if r != a' {
        var k :| 0 <= k < |s[1..]| && r == s[1..][k] && r.margin > a'.margin &&
                 forall j :: 0 <= j < k ==> s[1..][j].margin < r.margin;
        assert r == s[k + 1];
      } else if r != a {
        assert r == s[0];
      }
    }
  }

  /** Stream.max gives the first survivor with the greatest margin, and is empty only for no survivors. */
  lemma {:induction false} MaxIsFirstMaximum(s: seq<DecisionResult>)
    ensures Max(None, s).None? <==> s == []
    ensures s != [] ==> exists k :: FirstMaxAt(s, k) && Max(None, s) == Some(s[k])
  {
    if s != [] {
      MaxFromPresent(s[0], s[1..]);
      var r := Max(None, s).value;
      assert forall i :: 1 <= i < |s| ==> s[i] == s[1..][i - 1];
      if r == s[0] {
        assert FirstMaxAt(s, 0);
      } else {
        var k :| 0 <= k < |s[1..]| && r == s[1..][k] && r.margin > s[0].margin &&
                 forall j :: 0 <= j < k ==> s[1..][j].margin < r.margin;
        assert FirstMaxAt(s, k + 1);
      }
    }
  }

  /**
   * get is empty exactly when no option gets a price; otherwise it is the
   * offer of an option whose margin no other priced option exceeds, at the
   * price estimated for that option's real quality.
   */
  lemma {:induction false} GetIsBestOption(e: Estimator, opts: seq<real>)
    ensures Get(e, opts).None? <==> forall q :: q in opts ==> DecisionFor(e, q).None?
    ensures Get(e, opts).Some? ==>
      exists q :: q in opts && DecisionFor(e, q).Some? &&
        Get(e, opts).value == OfferOf(DecisionFor(e, q).value) &&
        forall q' :: q' in opts && DecisionFor(e, q').Some? ==> DecisionFor(e, q').value.margin <= DecisionFor(e, q).value.margin
  {
    var s := Survivors(e, opts);
    MaxIsFirstMaximum(s);
    forall q | q in opts && DecisionFor(e, q).Some?
      ensures DecisionFor(e, q).value in s
    {
    }
    if s != [] {
      var k :| FirstMaxAt(s, k) && Max(None, s) == Some(s[k]);
      assert s[k] in s;
    }
  }
}
