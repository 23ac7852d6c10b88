// The older competitive-segment set: firms ordered by a segment quality
// (perceived or real), admitted when their segment is not empty. Admission
// walks outward from the entrant removing neighbours it expels and stops at
// the first survivor; every removal re-admits market firms that fit again.
module FirmsSegments {
  import opened Wrappers
  import opened Values
  import UtilityFunction
  import Consumers
  import LegacyOffer
  import Comparators

  /** FirmsPerceivedQSegments or FirmsRealQSegments. */
  datatype Kind = PerceivedQ | RealQ

  /**
   * What the set reads from outside: its kind, the offer scales, the
   * consumers' minimum marginal utility and minimum welfare accepting an
   * offer (for Offer.limit), the symbolic Double.MIN_NORMAL and the list of
   * market firms.
   */
  datatype Context = Context(kind: Kind, priceScale: nat, qualityScale: nat, minMargUtil: real,
                             minAccepting: OfferVal -> real, eps: real, market: seq<FirmView>)

  /** The outcome of a mutating call: the members it leaves and the error thrown, if any. */
  datatype Run = Run(members: seq<FirmView>, thrown: Option<LegacyOffer.LimitError>)

  /** getQuality(f): the quality the segments are ordered by. */
  function SegQ(kind: Kind, f: FirmView): (r: real)
    ensures kind == PerceivedQ ==> r == f.perceivedQ
    ensures kind == RealQ ==> r == f.quality
  {
    match kind
    case PerceivedQ => f.perceivedQ
    case RealQ => f.quality
  }

  /** getOffer(f): the firm's price with the segment quality, through the HALF_DOWN setters. */
  function SegOffer(ctx: Context, f: FirmView): OfferVal
  {
    LegacyOffer.Rounded(OfferVal(f.price, SegQ(ctx.kind, f)), ctx.priceScale, ctx.qualityScale)
  }

  function OfferOf(ctx: Context, o: Option<FirmView>): Option<OfferVal>
  {
    if o.Some? then Some(SegOffer(ctx, o.value)) else None
  }

  predicate Sorted(kind: Kind, s: seq<FirmView>)
  {
    forall i, j :: 0 <= i < j < |s| ==> SegQ(kind, s[i]) < SegQ(kind, s[j])
  }

  /**
   * For distinct firms the set's order is the comparator's order: the
   * perceived-quality comparator answers -1 exactly below; the
   * real-quality one does too, distinct firms of equal real quality (which
   * the set never holds two of) aside.
   */
  lemma SegmentOrderIsComparator(kind: Kind, f1: FirmView, f2: FirmView)
    requires f1.id != f2.id
    ensures kind == PerceivedQ ==> (SegQ(kind, f1) < SegQ(kind, f2) <==> Comparators.PerceivedQSegmentsCompare(f1, f2) == -1)
    ensures kind == PerceivedQ ==> (SegQ(kind, f1) == SegQ(kind, f2) <==> Comparators.PerceivedQSegmentsCompare(f1, f2) == 0)
    ensures kind == RealQ ==> (SegQ(kind, f1) < SegQ(kind, f2) <==> Comparators.RealQSegmentsCompare(f1, f2) == -1)
  {
  }

  /** contains(f): a member the comparator cannot tell from f. */
  predicate Contains(kind: Kind, s: seq<FirmView>, f: FirmView)
  {
    exists i :: 0 <= i < |s| && SegQ(kind, s[i]) == SegQ(kind, f)
  }

  /**
   * Index of the last member with segment quality below q: lower(f) for
   * q = getQuality(f), and getLowerFirmGivenQ(q) (the largest member in
   * the set's order among those below q).
   */
  function LastBelow(kind: Kind, s: seq<FirmView>, q: real): (r: Option<nat>)
    ensures r.Some? ==> r.value < |s| && SegQ(kind, s[r.value]) < q &&
                        forall j :: r.value < j < |s| ==> SegQ(kind, s[j]) >= q
    ensures r.None? ==> forall j :: 0 <= j < |s| ==> SegQ(kind, s[j]) >= q
  {
    if |s| == 0 then None
    else if SegQ(kind, s[|s| - 1]) < q then Some(|s| - 1)
    else LastBelow(kind, s[..|s| - 1], q)
  }

  /** Index of the first member with segment quality above q: higher(f) and getHigherFirmGivenQ(q). */
  function FirstAbove(kind: Kind, s: seq<FirmView>, q: real): (r: Option<nat>)
    ensures r.Some? ==> r.value < |s| && SegQ(kind, s[r.value]) > q &&
                        forall j :: 0 <= j < r.value ==> SegQ(kind, s[j]) <= q
    ensures r.None? ==> forall j :: 0 <= j < |s| ==> SegQ(kind, s[j]) <= q
  {
    if |s| == 0 then None
    else if SegQ(kind, s[0]) > q then Some(0)
    else
      match FirstAbove(kind, s[1..], q)
      case None => None
      case Some(i) => Some(i + 1)
  }

  /**
   * getLowerFirmGivenQ(q); lower(f) is the same query at f's segment quality.
   * NeighboursAreClosest proves it is the closest member below q on a sorted set.
   */
  function LowerGivenQ(kind: Kind, s: seq<FirmView>, q: real): (r: Option<FirmView>)
    ensures r.Some? ==> r.value in s && SegQ(kind, r.value) < q
    ensures r.None? ==> forall g :: g in s ==> SegQ(kind, g) >= q
  {
    match LastBelow(kind, s, q)
    case None => None
    case Some(i) => Some(s[i])
  }

  /**
   * getHigherFirmGivenQ(q); higher(f) is the same query at f's segment quality.
   * NeighboursAreClosest proves it is the closest member above q on a sorted set.
   */
  function HigherGivenQ(kind: Kind, s: seq<FirmView>, q: real): (r: Option<FirmView>)
    ensures r.Some? ==> r.value in s && SegQ(kind, r.value) > q
    ensures r.None? ==> forall g :: g in s ==> SegQ(kind, g) <= q
  {
    match FirstAbove(kind, s, q)
    case None => None
    case Some(i) => Some(s[i])
  }

  function Lower(kind: Kind, s: seq<FirmView>, f: FirmView): Option<FirmView>
  {
    LowerGivenQ(kind, s, SegQ(kind, f))
  }

  function Higher(kind: Kind, s: seq<FirmView>, f: FirmView): Option<FirmView>
  {
    HigherGivenQ(kind, s, SegQ(kind, f))
  }

  /**
   * On a sorted set the neighbours are the closest members: nothing lies
   * strictly between the lower neighbour and q, nor between q and the
   * higher neighbour.
   */
  lemma {:induction false} NeighboursAreClosest(kind: Kind, s: seq<FirmView>, q: real, g: FirmView)
    requires Sorted(kind, s) && g in s
    ensures LowerGivenQ(kind, s, q).Some? && SegQ(kind, g) < q ==>
      SegQ(kind, g) <= SegQ(kind, LowerGivenQ(kind, s, q).value)
    ensures HigherGivenQ(kind, s, q).Some? && SegQ(kind, g) > q ==>
      SegQ(kind, g) >= SegQ(kind, HigherGivenQ(kind, s, q).value)
  {
    var k :| 0 <= k < |s| && s[k] == g;
    match LastBelow(kind, s, q)
    case None =>
    case Some(i) =>
      if SegQ(kind, g) < q && k != i {
        assert k < i;
      }
    match FirstAbove(kind, s, q)
    case None =>
    case Some(i) =>
      if SegQ(kind, g) > q && k != i {
        assert k > i;
      }
  }

  /** getLoLimit: Offer.limit between the lower neighbour and f. */
  function LoLimit(ctx: Context, s: seq<FirmView>, f: FirmView): LegacyOffer.Result<Limit>
  {
    LegacyOffer.Limit(OfferOf(ctx, Lower(ctx.kind, s, f)), Some(SegOffer(ctx, f)), ctx.minMargUtil, ctx.minAccepting)
  }

  /** getHiLimit: Offer.limit between f and the higher neighbour. */
  function HiLimit(ctx: Context, s: seq<FirmView>, f: FirmView): LegacyOffer.Result<Limit>
  {
    LegacyOffer.Limit(Some(SegOffer(ctx, f)), OfferOf(ctx, Higher(ctx.kind, s, f)), ctx.minMargUtil, ctx.minAccepting)
  }

  /** checkEntry: the lower limit is strictly below the higher one; an error of limit propagates. */
  function CheckEntry(ctx: Context, s: seq<FirmView>, f: FirmView): (r: LegacyOffer.Result<bool>)
    ensures r == LegacyOffer.Ok(true) <==>
      LoLimit(ctx, s, f).Ok? && HiLimit(ctx, s, f).Ok? && LoLimit(ctx, s, f).value.Below(HiLimit(ctx, s, f).value)
    ensures r.Fail? <==> LoLimit(ctx, s, f).Fail? || HiLimit(ctx, s, f).Fail?
  {
    match LoLimit(ctx, s, f)
    case Fail(e) => LegacyOffer.Fail(e)
    case Ok(lo) =>
      match HiLimit(ctx, s, f)
      case Fail(e) => LegacyOffer.Fail(e)
      case Ok(hi) => LegacyOffer.Ok(lo.Below(hi))
  }

  /**
   * getPriceToExpel(q, g): g's price less MIN_NORMAL at equal quality;
   * from above, g's price plus its lower limit times the quality gap; from
   * below, g's price less its higher limit times the gap. An infinite limit
   * gives an infinite price. Only the limit on the entrant's side is read.
   */
  function PriceToExpel(ctx: Context, s: seq<FirmView>, q: real, g: FirmView): (r: LegacyOffer.Result<ExtReal>)
  {
    Threshold(g.price, SegQ(ctx.kind, g), q, ctx.eps, LoLimit(ctx, s, g), HiLimit(ctx, s, g))
  }

  /** The price to expel a firm at (price, qF) from an offer at quality q, given the firm's limits. */
  function Threshold(price: real, qF: real, q: real, eps: real,
                     lo: LegacyOffer.Result<Limit>, hi: LegacyOffer.Result<Limit>): (r: LegacyOffer.Result<ExtReal>)
    ensures q == qF ==> r == LegacyOffer.Ok(Finite(price - eps))
    ensures q > qF && lo == LegacyOffer.Ok(Infinity) ==> r == LegacyOffer.Ok(PosInf)
    ensures q < qF && hi == LegacyOffer.Ok(Infinity) ==> r == LegacyOffer.Ok(NegInf)
    ensures r.Fail? <==> (q > qF && lo.Fail?) || (q < qF && hi.Fail?)
  {
    if q == qF then LegacyOffer.Ok(Finite(price - eps))
    else if qF < q then
      match lo
      case Fail(e) => LegacyOffer.Fail(e)
      case Ok(Infinity) => LegacyOffer.Ok(PosInf)
      case Ok(At(w)) => LegacyOffer.Ok(Finite(price + w * (q - qF)))
    else
      match hi
      case Fail(e) => LegacyOffer.Fail(e)
      case Ok(Infinity) => LegacyOffer.Ok(NegInf)
      case Ok(At(w)) => LegacyOffer.Ok(Finite(price - w * (qF - q)))
  }

  /** `p < priceToExpel`, with the infinities of doubles. */
  predicate PriceBelow(p: real, t: ExtReal)
  {
    Finite(p).Lt(t)
  }

  /**
   * What a price below the threshold means. At equal quality the entrant
   * undercuts the firm by more than MIN_NORMAL. From above, the limit
   * between the firm and the entrant drops below the firm's lower limit;
   * from below, it rises above the firm's higher limit: either way the
   * firm keeps no consumer. An infinite lower limit lets every price
   * expel; an infinite higher limit lets none.
   */
  lemma {:induction false} ThresholdMeaning(price: real, qF: real, q: real, eps: real,
                                            lo: LegacyOffer.Result<Limit>, hi: LegacyOffer.Result<Limit>, p: real)
    requires Threshold(price, qF, q, eps, lo, hi).Ok?
    ensures var t := Threshold(price, qF, q, eps, lo, hi).value;
      (q == qF ==> (PriceBelow(p, t) <==> p < price - eps)) &&
      (q > qF && lo.value.At? ==> (PriceBelow(p, t) <==> UtilityFunction.CalculateRawLimit(price, qF, p, q) < lo.value.w)) &&
      (q > qF && lo.value.Infinity? ==> PriceBelow(p, t)) &&
      (q < qF && hi.value.At? ==> (PriceBelow(p, t) <==> UtilityFunction.CalculateRawLimit(p, q, price, qF) > hi.value.w)) &&
      (q < qF && hi.value.Infinity? ==> !PriceBelow(p, t))
  {
    if q > qF && lo.value.At? {
      AboveThreshold(price, qF, lo.value.w, q, p);
    } else if q < qF && hi.value.At? {
      BelowThreshold(price, qF, hi.value.w, q, p);
    }
  }

  lemma AboveThreshold(price: real, qF: real, w: real, q: real, p: real)
    requires q > qF
    ensures p < price + w * (q - qF) <==> UtilityFunction.CalculateRawLimit(price, qF, p, q) < w
  {
    UtilityFunction.ExpelFromAboveMeaning(q, FirmView(0, price, qF, qF), w, p);
  }

  lemma BelowThreshold(price: real, qF: real, w: real, q: real, p: real)
    requires q < qF
    ensures p < price - w * (qF - q) <==> UtilityFunction.CalculateRawLimit(p, q, price, qF) > w
  {
    UtilityFunction.ExpelFromBelowMeaning(q, FirmView(0, price, qF, qF), w, p);
  }

  /** The upward walk's removal test as written: `p > getPriceToExpel(q, hiF)`. */
  predicate UpWalkRemovesAsWritten(p: real, t: ExtReal)
  {
    t.Lt(Finite(p))
  }

  /**
   * The test as written keeps a higher neighbour the entrant squeezes out.
   * With real-quality segments, a firm at (price 100, quality 100) whose
   * higher neighbour sits at (102, 110) has higher limit 0.2. An entrant at
   * (40, 50) passes the entry check (limits 0.8 below 1.2) and moves the
   * limit with that firm to 1.2, above 0.2, so the firm keeps no consumer;
   * its price to expel is 90, and since 40 > 90 fails the walk stops and
   * keeps it. The corrected test removes it.
   */
  lemma AsWrittenUpWalkKeepsSqueezedFirm()
    ensures var ctx := ExampleContext();
      var (f, hiF, hh) := ExampleFirms();
      var s := [hiF, hh];
      Sorted(ctx.kind, s) &&
      CheckEntry(ctx, s, f) == LegacyOffer.Ok(true) &&
      Higher(ctx.kind, s, f) == Some(hiF) &&
      HiLimit(ctx, s, hiF) == LegacyOffer.Ok(At(0.2)) &&
      LegacyOffer.Limit(Some(SegOffer(ctx, f)), Some(SegOffer(ctx, hiF)), ctx.minMargUtil, ctx.minAccepting)
        == LegacyOffer.Ok(At(1.2)) &&
      PriceToExpel(ctx, s, SegQ(ctx.kind, f), hiF) == LegacyOffer.Ok(Finite(90.0)) &&
      !UpWalkRemovesAsWritten(f.price, Finite(90.0)) &&
      PriceBelow(f.price, Finite(90.0))
  {
    var ctx := ExampleContext();
    var (f, hiF, hh) := ExampleFirms();
    var s := [hiF, hh];
    ExampleOffers();
    var of, ohi, ohh := OfferVal(40.0, 50.0), OfferVal(100.0, 100.0), OfferVal(102.0, 110.0);
    assert Lower(ctx.kind, s, f) == None;
    assert Higher(ctx.kind, s, f) == Some(hiF);
    assert Higher(ctx.kind, s, hiF) == Some(hh);
    ExampleLimits();
    assert LoLimit(ctx, s, f) == LegacyOffer.Ok(At(0.8));
    assert HiLimit(ctx, s, f) == LegacyOffer.Ok(At(1.2));
    assert HiLimit(ctx, s, hiF) == LegacyOffer.Ok(At(0.2));
    assert Threshold(100.0, 100.0, 50.0, 0.0, LoLimit(ctx, s, hiF), LegacyOffer.Ok(At(0.2))) == LegacyOffer.Ok(Finite(90.0));
  }

  /**
   * With the corrected test the same walk removes the squeezed firm (the
   * example's market list is empty, so nothing is re-admitted).
   */
  lemma CorrectedUpWalkRemovesSqueezedFirm()
    ensures var ctx := ExampleContext();
      var (f, hiF, hh) := ExampleFirms();
      var s := [hiF, hh];
      hiF !in WalkUp(ctx, Universe(ctx, s), s, f.price, SegQ(ctx.kind, f), Some(hiF)).members
  {
    var ctx := ExampleContext();
    var (f, hiF, hh) := ExampleFirms();
    var s := [hiF, hh];
    AsWrittenUpWalkKeepsSqueezedFirm();
    WalkRemovesExpelledNeighbour(ctx, Universe(ctx, s), s, f.price, SegQ(ctx.kind, f), hiF);
  }

  /** The three firms of the example: the entrant, the squeezed firm, the firm above it. */
  function ExampleFirms(): (FirmView, FirmView, FirmView)
  {
    (FirmView(1, 40.0, 50.0, 50.0), FirmView(2, 100.0, 100.0, 100.0), FirmView(3, 102.0, 110.0, 110.0))
  }

  lemma ExampleOffers()
    ensures var (f, hiF, hh) := ExampleFirms();
      SegOffer(ExampleContext(), f) == OfferVal(40.0, 50.0) &&
      SegOffer(ExampleContext(), hiF) == OfferVal(100.0, 100.0) &&
      SegOffer(ExampleContext(), hh) == OfferVal(102.0, 110.0)
  {
    RoundedWhole(40.0, 50.0);
    RoundedWhole(100.0, 100.0);
    RoundedWhole(102.0, 110.0);
  }

  lemma ExampleLimits()
    ensures var ctx := ExampleContext();
      LegacyOffer.Limit(None, Some(OfferVal(40.0, 50.0)), ctx.minMargUtil, ctx.minAccepting) == LegacyOffer.Ok(At(0.8)) &&
      LegacyOffer.Limit(Some(OfferVal(40.0, 50.0)), Some(OfferVal(100.0, 100.0)), ctx.minMargUtil, ctx.minAccepting) == LegacyOffer.Ok(At(1.2)) &&
      LegacyOffer.Limit(Some(OfferVal(100.0, 100.0)), Some(OfferVal(102.0, 110.0)), ctx.minMargUtil, ctx.minAccepting) == LegacyOffer.Ok(At(0.2))
  {
    var ctx := ExampleContext();
    assert ctx.minAccepting(OfferVal(40.0, 50.0)) == 0.8;
    assert (100.0 - 40.0) / (100.0 - 50.0) == 1.2;
    assert (102.0 - 100.0) / (110.0 - 100.0) == 0.2;
  }

  /** Whole numbers are on the grid of scale 0, so the setters keep them. */
  lemma RoundedWhole(p: real, q: real)
    requires p == p.Floor as real && q == q.Floor as real
    ensures LegacyOffer.Rounded(OfferVal(p, q), 0, 0) == OfferVal(p, q)
  {
  }

  /**
   * The instance of the example: real-quality segments, whole-number
   * scales, minimum marginal utility 0.1, and the minimum welfare accepting
   * an offer being max(p/q, 0.1).
   */
  function ExampleContext(): Context
  {
    Context(RealQ, 0, 0, 0.1,
            (o: OfferVal) => if o.quality == 0.0 then 0.1 else MaxReal(o.price / o.quality, 0.1),
            0.0, [])
  }

  /** TreeSet.add once f is known to be absent: f goes in at its place. */
  function Insert(kind: Kind, s: seq<FirmView>, f: FirmView): (r: seq<FirmView>)
    ensures |r| == |s| + 1
    ensures forall g :: g in r <==> g in s || g == f
  {
    if |s| == 0 then [f]
    else if SegQ(kind, f) < SegQ(kind, s[0]) then [f] + s
    else [s[0]] + Insert(kind, s[1..], f)
  }

  lemma {:induction false} InsertSorted(kind: Kind, s: seq<FirmView>, f: FirmView)
    requires Sorted(kind, s) && !Contains(kind, s, f)
    ensures Sorted(kind, Insert(kind, s, f))
  {
    if |s| > 0 && SegQ(kind, f) >= SegQ(kind, s[0]) {
      assert SegQ(kind, f) != SegQ(kind, s[0]);
      assert !Contains(kind, s[1..], f) by {
        forall i | 0 <= i < |s[1..]|
          ensures SegQ(kind, s[1..][i]) != SegQ(kind, f)
        {
          assert s[1..][i] == s[i + 1];
        }
      }
      InsertSorted(kind, s[1..], f);
      var r := Insert(kind, s[1..], f);
      forall j | 0 <= j < |r|
        ensures SegQ(kind, s[0]) < SegQ(kind, r[j])
      {
        assert r[j] in s[1..] || r[j] == f;
      }
    }
  }

  /** TreeSet.remove: drops the member the comparator cannot tell from key k. */
  function RemoveKey(kind: Kind, s: seq<FirmView>, k: real): (r: seq<FirmView>)
    ensures forall g :: g in r <==> g in s && SegQ(kind, g) != k
  {
    if |s| == 0 then []
    else if SegQ(kind, s[0]) == k then RemoveKey(kind, s[1..], k)
    else [s[0]] + RemoveKey(kind, s[1..], k)
  }

  lemma {:induction false} RemoveKeySorted(kind: Kind, s: seq<FirmView>, k: real)
    requires Sorted(kind, s)
    ensures Sorted(kind, RemoveKey(kind, s, k))
  {
    if |s| > 0 {
      RemoveKeySorted(kind, s[1..], k);
      var r := RemoveKey(kind, s[1..], k);
      forall j | 0 <= j < |r|
        ensures SegQ(kind, s[0]) < SegQ(kind, r[j])
      {
        assert r[j] in s[1..];
      }
    }
  }

  /**
   * The re-admission pass of remove: every market firm, in order, that the
   * set does not contain and that passes the entry check against the set
   * as it stands is added; an error of limit stops the pass.
   */
  function Readmit(ctx: Context, s: seq<FirmView>, part: seq<FirmView>): (r: Run)
    requires Sorted(ctx.kind, s)
    ensures Sorted(ctx.kind, r.members)
    ensures forall g :: g in r.members ==> g in s || g in part
    decreases |part|
  {
    if |part| == 0 then Run(s, None)
    else
      var e := part[0];
      if Contains(ctx.kind, s, e) then Readmit(ctx, s, part[1..])
      else
        match CheckEntry(ctx, s, e)
        case Fail(err) => Run(s, Some(err))
        case Ok(false) => Readmit(ctx, s, part[1..])
        case Ok(true) =>
          InsertSorted(ctx.kind, s, e);
          Readmit(ctx, Insert(ctx.kind, s, e), part[1..])
  }

  /** remove(g): drop g, then re-admit the market firms that fit. */
  function RemoveRun(ctx: Context, s: seq<FirmView>, g: FirmView): (r: Run)
    requires Sorted(ctx.kind, s)
    ensures Sorted(ctx.kind, r.members)
    ensures forall h :: h in r.members ==> (h in s && SegQ(ctx.kind, h) != SegQ(ctx.kind, g)) || h in ctx.market
  {
    RemoveKeySorted(ctx.kind, s, SegQ(ctx.kind, g));
    Readmit(ctx, RemoveKey(ctx.kind, s, SegQ(ctx.kind, g)), ctx.market)
  }

  /** Every firm the set can ever hold during one call: its members and the market firms. */
  function Universe(ctx: Context, s: seq<FirmView>): set<FirmView>
  {
    (set g | g in s) + (set g | g in ctx.market)
  }

  function AtOrBelow(kind: Kind, u: set<FirmView>, k: real): set<FirmView>
  {
    set g | g in u && SegQ(kind, g) <= k
  }

  function AtOrAbove(kind: Kind, u: set<FirmView>, k: real): set<FirmView>
  {
    set g | g in u && SegQ(kind, g) >= k
  }

  lemma AtOrBelowShrinks(kind: Kind, u: set<FirmView>, g: FirmView, next: Option<FirmView>)
    requires g in u && (next.Some? ==> SegQ(kind, next.value) < SegQ(kind, g))
    ensures (if next.Some? then AtOrBelow(kind, u, SegQ(kind, next.value)) else {}) < AtOrBelow(kind, u, SegQ(kind, g))
  {
    assert g in AtOrBelow(kind, u, SegQ(kind, g));
  }

  lemma AtOrAboveShrinks(kind: Kind, u: set<FirmView>, g: FirmView, next: Option<FirmView>)
    requires g in u && (next.Some? ==> SegQ(kind, next.value) > SegQ(kind, g))
    ensures (if next.Some? then AtOrAbove(kind, u, SegQ(kind, next.value)) else {}) < AtOrAbove(kind, u, SegQ(kind, g))
  {
    assert g in AtOrAbove(kind, u, SegQ(kind, g));
  }

  /**
   * The downward walk from loF: while the entrant's price p is below the
   * neighbour's price to expel, remove it (re-admitting market firms) and
   * go on from the firm below it; stop at the first survivor.
   */
  function WalkDown(ctx: Context, u: set<FirmView>, s: seq<FirmView>, p: real, q: real, loF: Option<FirmView>): (r: Run)
    requires Sorted(ctx.kind, s)
    requires (forall g :: g in s ==> g in u) && (forall g :: g in ctx.market ==> g in u)
    requires loF.Some? ==> loF.value in u
    ensures Sorted(ctx.kind, r.members) && forall g :: g in r.members ==> g in u
    ensures forall g :: g in r.members ==> g in s || g in ctx.market
    decreases if loF.Some? then AtOrBelow(ctx.kind, u, SegQ(ctx.kind, loF.value)) else {}
  {
    if loF.None? then Run(s, None)
    else
      match PriceToExpel(ctx, s, q, loF.value)
      case Fail(e) => Run(s, Some(e))
      case Ok(t) =>
        if !PriceBelow(p, t) then Run(s, None)
        else
          var removed := RemoveRun(ctx, s, loF.value);
          if removed.thrown.Some? then removed
          else
            var next := Lower(ctx.kind, removed.members, loF.value);
            AtOrBelowShrinks(ctx.kind, u, loF.value, next);
            WalkDown(ctx, u, removed.members, p, q, next)
  }

  /**
   * The upward walk from hiF, with the removal test corrected to `p <
   * priceToExpel` (see UpWalkRemovesAsWritten): remove while the entrant
   * expels the neighbour, stop at the first survivor.
   */
  function WalkUp(ctx: Context, u: set<FirmView>, s: seq<FirmView>, p: real, q: real, hiF: Option<FirmView>): (r: Run)
    requires Sorted(ctx.kind, s)
    requires (forall g :: g in s ==> g in u) && (forall g :: g in ctx.market ==> g in u)
    requires hiF.Some? ==> hiF.value in u
    ensures Sorted(ctx.kind, r.members) && forall g :: g in r.members ==> g in u
    ensures forall g :: g in r.members ==> g in s || g in ctx.market
    decreases if hiF.Some? then AtOrAbove(ctx.kind, u, SegQ(ctx.kind, hiF.value)) else {}
  {
    if hiF.None? then Run(s, None)
    else
      match PriceToExpel(ctx, s, q, hiF.value)
      case Fail(e) => Run(s, Some(e))
      case Ok(t) =>
        if !PriceBelow(p, t) then Run(s, None)
        else
          var removed := RemoveRun(ctx, s, hiF.value);
          if removed.thrown.Some? then removed
          else
            var next := Higher(ctx.kind, removed.members, hiF.value);
            AtOrAboveShrinks(ctx.kind, u, hiF.value, next);
            WalkUp(ctx, u, removed.members, p, q, next)
  }

  /**
   * A walk ends at its first survivor: a first neighbour the entrant does
   * not expel leaves the set as it is.
   */
  lemma {:induction false} WalkStopsAtFirstSurvivor(ctx: Context, u: set<FirmView>, s: seq<FirmView>, p: real, q: real, n: FirmView)
    requires Sorted(ctx.kind, s)
    requires (forall g :: g in s ==> g in u) && (forall g :: g in ctx.market ==> g in u)
    requires n in u
    requires PriceToExpel(ctx, s, q, n).Ok? && !PriceBelow(p, PriceToExpel(ctx, s, q, n).value)
    ensures WalkDown(ctx, u, s, p, q, Some(n)) == Run(s, None)
    ensures WalkUp(ctx, u, s, p, q, Some(n)) == Run(s, None)
  {
  }

  /**
   * A first neighbour the entrant expels is gone when the walk ends, unless
   * it is a market firm that came back through re-admission: removal drops
   * its segment quality and later steps only remove or re-admit.
   */
  lemma {:induction false} WalkRemovesExpelledNeighbour(ctx: Context, u: set<FirmView>, s: seq<FirmView>, p: real, q: real, n: FirmView)
    requires Sorted(ctx.kind, s)
    requires (forall g :: g in s ==> g in u) && (forall g :: g in ctx.market ==> g in u)
    requires n in u && n !in ctx.market
    requires PriceToExpel(ctx, s, q, n).Ok? && PriceBelow(p, PriceToExpel(ctx, s, q, n).value)
    ensures n !in WalkDown(ctx, u, s, p, q, Some(n)).members
    ensures n !in WalkUp(ctx, u, s, p, q, Some(n)).members
  {
    var removed := RemoveRun(ctx, s, n);
    assert n !in removed.members;
  }

  /** takeOutExpelledFirms: the downward walk, then the upward walk from the set it leaves. */
  function TakeOutSpec(ctx: Context, s: seq<FirmView>, f: FirmView): (r: Run)
    requires Sorted(ctx.kind, s)
    ensures Sorted(ctx.kind, r.members)
    ensures forall g :: g in r.members ==> g in s || g in ctx.market
  {
    var u := Universe(ctx, s);
    var p, q := f.price, SegQ(ctx.kind, f);
    var down := WalkDown(ctx, u, s, p, q, Lower(ctx.kind, s, f));
    if down.thrown.Some? then down
    else WalkUp(ctx, u, down.members, p, q, Higher(ctx.kind, down.members, f))
  }

  /**
   * add(f): an error of limit in the entry check propagates; a failed
   * check leaves the set as it is; otherwise the expelled firms go and f
   * is added unless the set (possibly by re-admission) already holds it.
   */
  function AddSpec(ctx: Context, s: seq<FirmView>, f: FirmView): (r: (bool, Run))
    requires Sorted(ctx.kind, s)
  {
    match CheckEntry(ctx, s, f)
    case Fail(e) => (false, Run(s, Some(e)))
    case Ok(false) => (false, Run(s, None))
    case Ok(true) =>
      var t := TakeOutSpec(ctx, s, f);
      if t.thrown.Some? || Contains(ctx.kind, t.members, f) then (false, t)
      else (true, Run(Insert(ctx.kind, t.members, f), None))
  }

  /**
   * add keeps the set ordered with one member per segment quality; f goes
   * in only after a passed entry check, every member is f, an old member
   * or a market firm, and a failed check leaves the set unchanged.
   */
  lemma {:induction false} AddSpecMeaning(ctx: Context, s: seq<FirmView>, f: FirmView)
    requires Sorted(ctx.kind, s)
    ensures var (added, run) := AddSpec(ctx, s, f);
      Sorted(ctx.kind, run.members) &&
      (added ==> CheckEntry(ctx, s, f) == LegacyOffer.Ok(true) && f in run.members && run.thrown.None?) &&
      (CheckEntry(ctx, s, f) == LegacyOffer.Ok(false) ==> !added && run == Run(s, None)) &&
      (forall g :: g in run.members ==> g == f || g in s || g in ctx.market)
  {
    if CheckEntry(ctx, s, f) == LegacyOffer.Ok(true) {
      var t := TakeOutSpec(ctx, s, f);
      if t.thrown.None? && !Contains(ctx.kind, t.members, f) {
        InsertSorted(ctx.kind, t.members, f);
      }
    }
  }

  class Segments {
    const ctx: Context
    var members: seq<FirmView>

    predicate Valid()
      reads this
    {
      Sorted(ctx.kind, members)
    }

    constructor (ctx: Context)
      ensures this.ctx == ctx && members == [] && Valid()
    {
      this.ctx := ctx;
      members := [];
    }

    /** remove(g): the overriding remove, with its re-admission pass. */
    method Remove(g: FirmView) returns (removed: bool, thrown: Option<LegacyOffer.LimitError>)
      requires Valid()
      modifies this
      ensures Valid()
      ensures removed == Contains(ctx.kind, old(members), g)
      ensures Run(members, thrown) == RemoveRun(ctx, old(members), g)
    {
      removed := Contains(ctx.kind, members, g);
      RemoveKeySorted(ctx.kind, members, SegQ(ctx.kind, g));
      members := RemoveKey(ctx.kind, members, SegQ(ctx.kind, g));
      ghost var goal := Readmit(ctx, members, ctx.market);
      var i := 0;
      while i < |ctx.market|
        invariant 0 <= i <= |ctx.market|
        invariant Valid()
        invariant Readmit(ctx, members, ctx.market[i..]) == goal
      {
        var e := ctx.market[i];
        assert ctx.market[i..][1..] == ctx.market[i + 1..];
        if !Contains(ctx.kind, members, e) {
          var entry := CheckEntry(ctx, members, e);
          if entry.Fail? {
            return removed, Some(entry.error);
          }
          if entry.value {
            InsertSorted(ctx.kind, members, e);
            members := Insert(ctx.kind, members, e);
          }
        }
        i := i + 1;
      }
      thrown := None;
    }

    /** takeOutExpelledFirms(f): the two walks, removing through the overriding remove. */
    method TakeOutExpelledFirms(f: FirmView) returns (thrown: Option<LegacyOffer.LimitError>)
      requires Valid()
      modifies this
      ensures Valid()
      ensures Run(members, thrown) == TakeOutSpec(ctx, old(members), f)
    {
      ghost var u := Universe(ctx, members);
      thrown := TakeOutBelow(f, u);
      if thrown.Some? {
        return;
      }
      thrown := TakeOutAbove(f, u);
    }

    /** The downward walk of takeOutExpelledFirms, from the firm below f. */
    method TakeOutBelow(f: FirmView, ghost u: set<FirmView>) returns (thrown: Option<LegacyOffer.LimitError>)
      requires Valid()
      requires (forall g :: g in members ==> g in u) && (forall g :: g in ctx.market ==> g in u)
      modifies this
      ensures Valid() && forall g :: g in members ==> g in u
      ensures Run(members, thrown) == WalkDown(ctx, u, old(members), f.price, SegQ(ctx.kind, f), Lower(ctx.kind, old(members), f))
    {
      ghost var s0 := members;
      var p, q := f.price, SegQ(ctx.kind, f);
      var loF := Lower(ctx.kind, members, f);
      while loF.Some?
        invariant Valid()
        invariant (forall g :: g in members ==> g in u) && (forall g :: g in ctx.market ==> g in u)
        invariant loF.Some? ==> loF.value in u
        invariant WalkDown(ctx, u, members, p, q, loF) == WalkDown(ctx, u, s0, p, q, Lower(ctx.kind, s0, f))
        decreases if loF.Some? then AtOrBelow(ctx.kind, u, SegQ(ctx.kind, loF.value)) else {}
      {
        var pte := PriceToExpel(ctx, members, q, loF.value);
        if pte.Fail? {
          return Some(pte.error);
        }
        if !PriceBelow(p, pte.value) {
          break;
        }
        var _, err := Remove(loF.value);
        if err.Some? {
          return err;
        }
        var next := Lower(ctx.kind, members, loF.value);
        AtOrBelowShrinks(ctx.kind, u, loF.value, next);
        loF := next;
      }
      thrown := None;
    }

    /** The upward walk of takeOutExpelledFirms, from the firm above f. */
    method TakeOutAbove(f: FirmView, ghost u: set<FirmView>) returns (thrown: Option<LegacyOffer.LimitError>)
      requires Valid()
      requires (forall g :: g in members ==> g in u) && (forall g :: g in ctx.market ==> g in u)
      modifies this
      ensures Valid() && forall g :: g in members ==> g in u
      ensures Run(members, thrown) == WalkUp(ctx, u, old(members), f.price, SegQ(ctx.kind, f), Higher(ctx.kind, old(members), f))
    {
      ghost var s1 := members;
      var p, q := f.price, SegQ(ctx.kind, f);
      var hiF := Higher(ctx.kind, members, f);
      while hiF.Some?
        invariant Valid()
        invariant (forall g :: g in members ==> g in u) && (forall g :: g in ctx.market ==> g in u)
        invariant hiF.Some? ==> hiF.value in u
        invariant WalkUp(ctx, u, members, p, q, hiF) == WalkUp(ctx, u, s1, p, q, Higher(ctx.kind, s1, f))
        decreases if hiF.Some? then AtOrAbove(ctx.kind, u, SegQ(ctx.kind, hiF.value)) else {}
      {
        var pte := PriceToExpel(ctx, members, q, hiF.value);
        if pte.Fail? {
          return Some(pte.error);
        }
        if !PriceBelow(p, pte.value) {
          break;
        }
        var _, err := Remove(hiF.value);
        if err.Some? {
          return err;
        }
        var next := Higher(ctx.kind, members, hiF.value);
        AtOrAboveShrinks(ctx.kind, u, hiF.value, next);
        hiF := next;
      }
      thrown := None;
    }

    /** add(f). */
    method Add(f: FirmView) returns (added: bool, thrown: Option<LegacyOffer.LimitError>)
      requires Valid()
      modifies this
      ensures Valid()
      ensures (added, Run(members, thrown)) == AddSpec(ctx, old(members), f)
    {
      var entry := CheckEntry(ctx, members, f);
      if entry.Fail? {
        return false, Some(entry.error);
      }
      if !entry.value {
        return false, None;
      }
      thrown := TakeOutExpelledFirms(f);
      if thrown.Some? || Contains(ctx.kind, members, f) {
        return false, thrown;
      }
      InsertSorted(ctx.kind, members, f);
      members := Insert(ctx.kind, members, f);
      added := true;
    }

    /** getExpectedDemand(f): 0 for a firm outside the set, else the expected quantity of its segment. */
    function ExpectedDemand(pop: Consumers.Population, magnitude: real, pow: (real, real) -> real, f: FirmView): (r: real)
      reads this
      requires pop.rawMinWelfare > 0.0 && SegOffer(ctx, f).quality > 0.0
      ensures !Contains(ctx.kind, members, f) ==> r == 0.0
      ensures r >= 0.0
    {
      if !Contains(ctx.kind, members, f) then 0.0
      else Consumers.ExpectedQuantity(pop, magnitude, SegOffer(ctx, f),
                                      OfferOf(ctx, Lower(ctx.kind, members, f)),
                                      OfferOf(ctx, Higher(ctx.kind, members, f)), pow)
    }
  }
}
