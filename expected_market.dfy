// The market as a firm expects it: a set of firms ordered by perceived
// quality, then real quality. A firm is admitted only when its segment of
// consumers is not empty, and admitting it first removes every member whose
// price to expel the entrant's price reaches.
module ExpectedMarket {
  import opened Wrappers
  import opened Values
  import Rounding
  import UtilityFunction
  import Consumers

  /** The static context the Java code reads from globals. */
  datatype Setting = Setting(pop: Consumers.Population, magnitude: real, priceScale: nat)

  /** The set's order (CompareByPerceivedQ without an owner). */
  predicate KeyLess(a: FirmView, b: FirmView)
  {
    a.perceivedQ < b.perceivedQ || (a.perceivedQ == b.perceivedQ && a.quality < b.quality)
  }

  /** Two firms the order cannot tell apart. */
  predicate KeyEq(a: FirmView, b: FirmView)
  {
    a.perceivedQ == b.perceivedQ && a.quality == b.quality
  }

  predicate Sorted(s: seq<FirmView>)
  {
    forall i, j :: 0 <= i < j < |s| ==> KeyLess(s[i], s[j])
  }

  /** Every member has a positive perceived quality. */
  predicate Positive(s: seq<FirmView>)
  {
    forall i :: 0 <= i < |s| ==> s[i].perceivedQ > 0.0
  }

  /** Index of TreeSet.lower(f): the last member ordered below f. */
  function LastBelow(s: seq<FirmView>, f: FirmView): (r: Option<nat>)
    ensures r.Some? ==> r.value < |s| && KeyLess(s[r.value], f) &&
                        forall j :: r.value < j < |s| ==> !KeyLess(s[j], f)
    ensures r.None? ==> forall j :: 0 <= j < |s| ==> !KeyLess(s[j], f)
  {
    if |s| == 0 then None
    else if KeyLess(s[|s| - 1], f) then Some(|s| - 1)
    else LastBelow(s[..|s| - 1], f)
  }

  /** Index of TreeSet.higher(f): the first member ordered above f. */
  function FirstAbove(s: seq<FirmView>, f: FirmView): (r: Option<nat>)
    ensures r.Some? ==> r.value < |s| && KeyLess(f, s[r.value]) &&
                        forall j :: 0 <= j < r.value ==> !KeyLess(f, s[j])
    ensures r.None? ==> forall j :: 0 <= j < |s| ==> !KeyLess(f, s[j])
  {
    if |s| == 0 then None
    else if KeyLess(f, s[0]) then Some(0)
    else
      match FirstAbove(s[1..], f)
      case None => None
      case Some(i) => Some(i + 1)
  }

  function Lower(s: seq<FirmView>, f: FirmView): Option<FirmView>
  {
    match LastBelow(s, f)
    case None => None
    case Some(i) => Some(s[i])
  }

  function Higher(s: seq<FirmView>, f: FirmView): Option<FirmView>
  {
    match FirstAbove(s, f)
    case None => None
    case Some(i) => Some(s[i])
  }

  function PerceivedOf(o: Option<FirmView>): Option<OfferVal>
  {
    if o.Some? then Some(o.value.PerceivedOffer()) else None
  }

  /** getLoLimit: the limit between f's lower neighbour and f. */
  function LoLimit(st: Setting, s: seq<FirmView>, f: FirmView): Limit
    requires f.perceivedQ > 0.0
  {
    Consumers.LimitingWelfareParam(st.pop, st.magnitude, PerceivedOf(Lower(s, f)), Some(f.PerceivedOffer()))
  }

  /** getHiLimit: the limit between f and its higher neighbour. */
  function HiLimit(st: Setting, s: seq<FirmView>, f: FirmView): Limit
  {
    Consumers.LimitingWelfareParam(st.pop, st.magnitude, Some(f.PerceivedOffer()), PerceivedOf(Higher(s, f)))
  }

  /** checkEntry: the segment between f's limits is not empty. */
  predicate CheckEntry(st: Setting, s: seq<FirmView>, f: FirmView)
    requires f.perceivedQ > 0.0
  {
    LoLimit(st, s, f).Below(HiLimit(st, s, f))
  }

  /**
   * A price to expel: a price, or the null that priceToExpelFromAbove
   * returns when any price expels the firm, on which setScale then throws
   * a NullPointerException.
   */
  datatype Threshold = Price(p: real) | NullPointer

  /**
   * getPriceToExpel: empty for an empty firm; f's price at equal quality;
   * otherwise the from-above or from-below threshold; rounded FLOOR.
   */
  function PriceToExpel(st: Setting, s: seq<FirmView>, q: real, optF: Option<FirmView>): (r: Option<Threshold>)
    requires optF.Some? ==> optF.value.perceivedQ > 0.0
    ensures r.None? <==> optF.None?
    ensures optF.Some? && q == optF.value.perceivedQ ==>
      r == Some(Price(Rounding.Floor(optF.value.price, st.priceScale)))
    ensures r == Some(NullPointer) <==>
      optF.Some? && q > optF.value.perceivedQ && LoLimit(st, s, optF.value) == Infinity
    ensures r.Some? && r.value.Price? ==> Rounding.OnGrid(r.value.p, st.priceScale)
  {
    if optF.None? then None
    else
      var f := optF.value;
      if q == f.perceivedQ then Some(Price(Rounding.Floor(f.price, st.priceScale)))
      else if q > f.perceivedQ then
        match UtilityFunction.PriceToExpelFromAbove(q, f, LoLimit(st, s, f))
        case None => Some(NullPointer)
        case Some(t) => Some(Price(Rounding.Floor(t, st.priceScale)))
      else
        Some(Price(Rounding.Floor(UtilityFunction.PriceToExpelFromBelow(q, f, HiLimit(st, s, f)), st.priceScale)))
  }

  /**
   * What the threshold means for an entrant at quality q and a grid price
   * p: coming from above, p is at or below the threshold exactly when the
   * entrant's limit with f is at or below f's lower limit; coming from
   * below, exactly when that limit is at or above f's higher limit. Either
   * way f keeps no consumer.
   */
  lemma {:induction false} PriceToExpelMeaning(st: Setting, s: seq<FirmView>, q: real, f: FirmView, p: real)
    requires f.perceivedQ > 0.0 && q != f.perceivedQ
    requires Rounding.OnGrid(p, st.priceScale)
    requires PriceToExpel(st, s, q, Some(f)).value.Price?
    ensures var t := PriceToExpel(st, s, q, Some(f)).value.p;
      (q > f.perceivedQ ==>
         (p <= t <==> UtilityFunction.CalculateRawLimit(f.price, f.perceivedQ, p, q) <= LoLimit(st, s, f).w)) &&
      (q < f.perceivedQ && HiLimit(st, s, f).At? ==>
         (p <= t <==> UtilityFunction.CalculateRawLimit(p, q, f.price, f.perceivedQ) >= HiLimit(st, s, f).w))
  {
    if q > f.perceivedQ {
      var l := LoLimit(st, s, f).w;
      var exact := UtilityFunction.PriceToExpelFromAbove(q, f, At(l)).value;
      UtilityFunction.ExpelFromAboveMeaning(q, f, l, p);
      FloorSameOnGrid(exact, p, st.priceScale);
    } else if HiLimit(st, s, f).At? {
      var l := HiLimit(st, s, f).w;
      var exact := UtilityFunction.PriceToExpelFromBelow(q, f, At(l));
      UtilityFunction.ExpelFromBelowMeaning(q, f, l, p);
      FloorSameOnGrid(exact, p, st.priceScale);
    }
  }

  /** A grid value is at or below FLOOR(x) exactly when it is at or below x. */
  lemma FloorSameOnGrid(x: real, p: real, scale: nat)
    requires Rounding.OnGrid(p, scale)
    ensures p <= Rounding.Floor(x, scale) <==> p <= x
  {
    if p <= x {
      Rounding.FloorIsGreatest(x, p, scale);
    }
  }

  /**
   * The price to expel as the price-window code reads it: null for an
   * empty firm and for a firm any price expels, the rounded price otherwise.
   */
  function PriceOrNull(st: Setting, s: seq<FirmView>, q: real, optF: Option<FirmView>): (r: Option<real>)
    requires optF.Some? ==> optF.value.perceivedQ > 0.0
    ensures r.Some? <==> PriceToExpel(st, s, q, optF).Some? && PriceToExpel(st, s, q, optF).value.Price?
    ensures r.Some? ==> r.value == PriceToExpel(st, s, q, optF).value.p
  {
    match PriceToExpel(st, s, q, optF)
    case Some(Price(t)) => Some(t)
    case _ => None
  }

  /** takeOutExpelledFirms removes g: a price is present and f's price reaches it. */
  predicate Expelled(st: Setting, s: seq<FirmView>, f: FirmView, g: FirmView)
    requires g.perceivedQ > 0.0
  {
    !KeyEq(g, f) &&
    match PriceToExpel(st, s, f.perceivedQ, Some(g))
    case Some(Price(t)) => f.price <= t
    case _ => false
  }

  /** Computing g's price to expel throws. */
  predicate Throws(st: Setting, s: seq<FirmView>, f: FirmView, g: FirmView)
    requires g.perceivedQ > 0.0
  {
    !KeyEq(g, f) && PriceToExpel(st, s, f.perceivedQ, Some(g)) == Some(NullPointer)
  }

  /** The members of `part` that survive f's entry into s, in order. */
  function Survivors(st: Setting, s: seq<FirmView>, f: FirmView, part: seq<FirmView>): (r: seq<FirmView>)
    requires Positive(part)
    ensures Positive(r)
    ensures forall g :: g in r <==> g in part && !Expelled(st, s, f, g)
  {
    if |part| == 0 then []
    else
      var last := part[|part| - 1];
      var init := part[..|part| - 1];
      assert part == init + [last];
      if Expelled(st, s, f, last) then Survivors(st, s, f, init)
      else Survivors(st, s, f, init) + [last]
  }

  lemma {:induction false} SurvivorsSorted(st: Setting, s: seq<FirmView>, f: FirmView, part: seq<FirmView>)
    requires Positive(part) && Sorted(part)
    ensures Sorted(Survivors(st, s, f, part))
  {
    if |part| > 0 {
      var last := part[|part| - 1];
      var init := part[..|part| - 1];
      SurvivorsSorted(st, s, f, init);
      var r := Survivors(st, s, f, init);
      forall i | 0 <= i < |r|
        ensures KeyLess(r[i], last)
      {
        assert r[i] in init;
      }
    }
  }

  /** Some member's price to expel throws. */
  predicate AnyThrows(st: Setting, s: seq<FirmView>, f: FirmView, part: seq<FirmView>)
    requires Positive(part)
  {
    exists i :: 0 <= i < |part| && Throws(st, s, f, part[i])
  }

  /** TreeSet.add(f) after the entry check: f goes in at its place unless an equal member is there. */
  function Insert(s: seq<FirmView>, f: FirmView): (r: seq<FirmView>)
    ensures |r| == |s| + 1
    ensures forall g :: g in r <==> g in s || g == f
  {
    if |s| == 0 then [f]
    else if KeyLess(f, s[0]) then [f] + s
    else [s[0]] + Insert(s[1..], f)
  }

  lemma {:induction false} InsertSorted(s: seq<FirmView>, f: FirmView)
    requires Sorted(s)
    requires forall i :: 0 <= i < |s| ==> !KeyEq(s[i], f)
    ensures Sorted(Insert(s, f))
  {
    if |s| > 0 && !KeyLess(f, s[0]) {
      InsertSorted(s[1..], f);
      var r := Insert(s[1..], f);
      forall j | 0 <= j < |r|
        ensures KeyLess(s[0], r[j])
      {
        assert r[j] in s[1..] || r[j] == f;
      }
    }
  }

  /** The outcome of add: whether f went in, or the exception thrown. */
  datatype AddOutcome = Done(added: bool) | Threw

  predicate HasEqual(s: seq<FirmView>, f: FirmView)
  {
    exists i :: 0 <= i < |s| && KeyEq(s[i], f)
  }

  /**
   * add: rejected (set unchanged) when the entry check fails; throws (set
   * unchanged) when some member's price to expel is null; otherwise removes
   * the expelled members and inserts f unless an equal member remains.
   */
  function AddSpec(st: Setting, s: seq<FirmView>, f: FirmView): (AddOutcome, seq<FirmView>)
    requires Positive(s) && f.perceivedQ > 0.0
  {
    if !CheckEntry(st, s, f) then (Done(false), s)
    else if AnyThrows(st, s, f, s) then (Threw, s)
    else
      var rest := Survivors(st, s, f, s);
      if HasEqual(rest, f) then (Done(false), rest)
      else (Done(true), Insert(rest, f))
  }

  /**
   * After an add that did not throw, f is a member exactly when it was
   * added; every other member was already there and was not expelled, and
   * every member that was not expelled is still there (the scan does not
   * stop at a survivor). The order is kept.
   */
  lemma {:induction false} AddSpecMeaning(st: Setting, s: seq<FirmView>, f: FirmView)
    requires Positive(s) && Sorted(s) && f.perceivedQ > 0.0
    ensures var (out, s') := AddSpec(st, s, f);
      Sorted(s') && Positive(s') &&
      (out == Done(true) ==> CheckEntry(st, s, f) && f in s') &&
      (out.Done? ==> forall g :: g in s' && g != f ==> g in s && (CheckEntry(st, s, f) ==> !Expelled(st, s, f, g))) &&
      (out.Done? && CheckEntry(st, s, f) ==> forall g :: g in s && !Expelled(st, s, f, g) ==> g in s') &&
      (out.Threw? ==> s' == s)
  {
    SurvivorsSorted(st, s, f, s);
    var rest := Survivors(st, s, f, s);
    if CheckEntry(st, s, f) && !AnyThrows(st, s, f, s) && !HasEqual(rest, f) {
      InsertSorted(rest, f);
      var s' := Insert(rest, f);
      forall i | 0 <= i < |s'|
        ensures s'[i].perceivedQ > 0.0
      {
        assert s'[i] in rest || s'[i] == f;
      }
    }
  }

  /** getLowerFirmGivenQ: index of the last member with perceived quality at most q. */
  function LastAtOrBelowQ(s: seq<FirmView>, q: real): (r: Option<nat>)
    ensures r.Some? ==> r.value < |s| && s[r.value].perceivedQ <= q &&
                        forall j :: r.value < j < |s| ==> s[j].perceivedQ > q
    ensures r.None? ==> forall j :: 0 <= j < |s| ==> s[j].perceivedQ > q
  {
    if |s| == 0 then None
    else if s[|s| - 1].perceivedQ <= q then Some(|s| - 1)
    else LastAtOrBelowQ(s[..|s| - 1], q)
  }

  /** getHigherFirmGivenQ: index of the first member with perceived quality above q. */
  function FirstAboveQ(s: seq<FirmView>, q: real): (r: Option<nat>)
    ensures r.Some? ==> r.value < |s| && s[r.value].perceivedQ > q &&
                        forall j :: 0 <= j < r.value ==> s[j].perceivedQ <= q
    ensures r.None? ==> forall j :: 0 <= j < |s| ==> s[j].perceivedQ <= q
  {
    if |s| == 0 then None
    else if s[0].perceivedQ > q then Some(0)
    else
      match FirstAboveQ(s[1..], q)
      case None => None
      case Some(i) => Some(i + 1)
  }

  /**
   * On a sorted set the two queries split the members: everything up to
   * the lower firm is at or below q, everything from the higher firm on is
   * above it, and the higher firm follows the lower one directly.
   */
  lemma {:induction false} GivenQQueriesSplit(s: seq<FirmView>, q: real)
    requires Sorted(s)
    ensures LastAtOrBelowQ(s, q).Some? ==> forall j :: 0 <= j <= LastAtOrBelowQ(s, q).value ==> s[j].perceivedQ <= q
    ensures FirstAboveQ(s, q) ==
      match LastAtOrBelowQ(s, q)
      case None => if |s| == 0 then None else Some(0)
      case Some(i) => if i + 1 < |s| then Some(i + 1) else None
  {
    match LastAtOrBelowQ(s, q)
    case None =>
      if |s| > 0 {
        assert s[0].perceivedQ > q;
      }
    case Some(i) =>
      forall j | 0 <= j <= i
        ensures s[j].perceivedQ <= q
      {
        if j < i {
          assert KeyLess(s[j], s[i]);
        }
      }
      if i + 1 < |s| {
        assert s[i + 1].perceivedQ > q;
      }
      match FirstAboveQ(s, q)
      case None =>
        assert i + 1 == |s|;
      case Some(k) =>
        assert s[i].perceivedQ <= q;
        assert k > i;
        assert k <= i + 1;
  }

  class ExpectedMarket {
    const st: Setting
    var members: seq<FirmView>

    predicate Valid()
      reads this
    {
      Sorted(members) && Positive(members)
    }

    constructor Empty(st: Setting)
      ensures this.st == st && members == [] && Valid()
    {
      this.st := st;
      members := [];
    }

    /**
     * add: check entry against the current members, then scan every
     * member for expulsion (all thresholds are computed before any
     * removal), remove the expelled ones and insert f.
     */
    method Add(f: FirmView) returns (out: AddOutcome)
      requires Valid() && f.perceivedQ > 0.0
      modifies this
      ensures Valid()
      ensures (out, members) == AddSpec(st, old(members), f)
    {
      var s := members;
      if !CheckEntry(st, s, f) {
        return Done(false);
      }
      var rest: seq<FirmView> := [];
      var i := 0;
      while i < |s|
        invariant 0 <= i <= |s|
        invariant !AnyThrows(st, s, f, s[..i])
        invariant rest == Survivors(st, s, f, s[..i])
      {
        var g := s[i];
        assert s[..i + 1] == s[..i] + [g];
        if Throws(st, s, f, g) {
          assert AnyThrows(st, s, f, s) by {
            assert s[i] == g;
          }
          return Threw;
        }
        if !Expelled(st, s, f, g) {
          rest := rest + [g];
        }
        i := i + 1;
        assert !AnyThrows(st, s, f, s[..i]) by {
          forall j | 0 <= j < i
            ensures !Throws(st, s, f, s[..i][j])
          {
            if j < i - 1 {
              assert s[..i][j] == s[..i - 1][j];
            }
          }
        }
      }
      assert s[..|s|] == s;
      AddSpecMeaning(st, s, f);
      if HasEqual(rest, f) {
        members := rest;
        return Done(false);
      }
      members := Insert(rest, f);
      return Done(true);
    }

    /** getLowerFirmGivenQ. */
    function LowerFirmGivenQ(q: real): (r: Option<FirmView>)
      reads this
      ensures r.Some? ==> r.value in members && r.value.perceivedQ <= q
      ensures r.None? ==> forall g :: g in members ==> g.perceivedQ > q
    {
      match LastAtOrBelowQ(members, q)
      case None => None
      case Some(i) => Some(members[i])
    }

    /** getHigherFirmGivenQ. */
    function HigherFirmGivenQ(q: real): (r: Option<FirmView>)
      reads this
      ensures r.Some? ==> r.value in members && r.value.perceivedQ > q
      ensures r.None? ==> forall g :: g in members ==> g.perceivedQ <= q
    {
      match FirstAboveQ(members, q)
      case None => None
      case Some(i) => Some(members[i])
    }
  }

  /** The members the constructor ends with, adding every firm but the omitted one in order. */
  function BuildSpec(st: Setting, s: seq<FirmView>, market: seq<FirmView>, omit: FirmView): Option<seq<FirmView>>
    requires Positive(s) && Positive(market)
    decreases |market|
  {
    if |market| == 0 then Some(s)
    else if market[0].id == omit.id then BuildSpec(st, s, market[1..], omit)
    else
      var (out, s') := AddSpec(st, s, market[0]);
      if out.Threw? then None else
        AddSpecPositive(st, s, market[0]);
        BuildSpec(st, s', market[1..], omit)
  }

  lemma AddSpecPositive(st: Setting, s: seq<FirmView>, f: FirmView)
    requires Positive(s) && f.perceivedQ > 0.0
    ensures Positive(AddSpec(st, s, f).1)
  {
    var s' := AddSpec(st, s, f).1;
    forall i | 0 <= i < |s'|
      ensures s'[i].perceivedQ > 0.0
    {
      assert s'[i] in s';
      if s'[i] != f {
        var k :| 0 <= k < |s| && s[k] == s'[i];
      }
    }
  }

  /**
   * ExpectedMarket(omitFirm): adds every market firm except the omitted
   * one, in the market's order; None when an add throws.
   */
  method Build(st: Setting, market: seq<FirmView>, omit: FirmView) returns (m: ExpectedMarket?)
    requires Positive(market)
    ensures BuildSpec(st, [], market, omit).None? <==> m == null
    ensures m != null ==> fresh(m) && m.Valid() && m.st == st && m.members == BuildSpec(st, [], market, omit).value
  {
    var em := new ExpectedMarket.Empty(st);
    var i := 0;
    while i < |market|
      invariant 0 <= i <= |market|
      invariant em.Valid() && em.st == st && fresh(em)
      invariant BuildSpec(st, [], market, omit) == BuildSpec(st, em.members, market[i..], omit)
    {
      assert market[i..][1..] == market[i + 1..];
      if market[i].id != omit.id {
        var out := em.Add(market[i]);
        if out.Threw? {
          return null;
        }
      }
      i := i + 1;
    }
    m := em;
  }
}
