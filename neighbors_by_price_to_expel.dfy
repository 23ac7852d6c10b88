// The competitors an offer at a given perceived quality could expel, in the
// order the price search visits them (highest price to expel first), and
// the price window that results from expelling them one by one.
module NeighborsByPriceToExpel {
  import opened Wrappers
  import opened Values
  import ExpectedMarket
  import Comparators
  import Neighbors
  import UtilityFunction
  import Rounding

  /** A firm whose price to expel is present and at least the minimum price. */
  predicate Expellable(st: ExpectedMarket.Setting, s: seq<FirmView>, q: real, minPrice: real, f: FirmView)
    requires f.perceivedQ > 0.0
  {
    var t := ExpectedMarket.PriceOrNull(st, s, q, Some(f));
    t.Some? && t.value >= minPrice
  }

  /** The queue's contents: the expellable members, in the market's order. */
  function ToBeExpelled(st: ExpectedMarket.Setting, s: seq<FirmView>, q: real, minPrice: real, part: seq<FirmView>): (r: seq<FirmView>)
    requires ExpectedMarket.Positive(part)
    ensures ExpectedMarket.Positive(r)
    ensures forall f :: f in r <==> f in part && Expellable(st, s, q, minPrice, f)
  {
    if |part| == 0 then []
    else
      var rest := ToBeExpelled(st, s, q, minPrice, part[1..]);
      if Expellable(st, s, q, minPrice, part[0]) then [part[0]] + rest else rest
  }

  /** The price to expel of a queued firm. */
  function Pte(st: ExpectedMarket.Setting, s: seq<FirmView>, q: real, f: FirmView): real
    requires f.perceivedQ > 0.0
    requires ExpectedMarket.PriceOrNull(st, s, q, Some(f)).Some?
  {
    ExpectedMarket.PriceOrNull(st, s, q, Some(f)).value
  }

  /** Every queued firm has a price to expel. */
  predicate AllPriced(st: ExpectedMarket.Setting, s: seq<FirmView>, q: real, queue: seq<FirmView>)
  {
    forall f :: f in queue ==> f.perceivedQ > 0.0 && ExpectedMarket.PriceOrNull(st, s, q, Some(f)).Some?
  }

  /** CompareByPriceToExpel answers -1: a higher price to expel, or an equal one and a lower price. */
  predicate Precedes(st: ExpectedMarket.Setting, s: seq<FirmView>, q: real, a: FirmView, b: FirmView)
    requires a.perceivedQ > 0.0 && ExpectedMarket.PriceOrNull(st, s, q, Some(a)).Some?
    requires b.perceivedQ > 0.0 && ExpectedMarket.PriceOrNull(st, s, q, Some(b)).Some?
  {
    Pte(st, s, q, a) > Pte(st, s, q, b) || (Pte(st, s, q, a) == Pte(st, s, q, b) && a.price < b.price)
  }

  /**
   * The head of the priority queue: a queued firm no other precedes (the
   * first such in the queue's order when firms tie on both keys).
   */
  function HeadIndex(st: ExpectedMarket.Setting, s: seq<FirmView>, q: real, queue: seq<FirmView>): (r: nat)
    requires |queue| > 0 && AllPriced(st, s, q, queue)
    ensures r < |queue|
    ensures forall j :: 0 <= j < |queue| ==> !Precedes(st, s, q, queue[j], queue[r])
  {
    if |queue| == 1 then 0
    else
      var b := HeadIndex(st, s, q, queue[1..]) + 1;
      assert forall j :: 1 <= j < |queue| ==> queue[1..][j - 1] == queue[j];
      if Precedes(st, s, q, queue[0], queue[b]) then 0 else b
  }

  /**
   * The head is least for CompareByPriceToExpel, read with the queued
   * firms' prices to expel: no queued firm compares below it.
   */
  lemma {:induction false} HeadIsLeastForComparator(st: ExpectedMarket.Setting, s: seq<FirmView>, q: real,
                                                    queue: seq<FirmView>, pte: FirmView -> ExtReal)
    requires |queue| > 0 && AllPriced(st, s, q, queue)
    requires forall i :: 0 <= i < |queue| ==> pte(queue[i]) == Finite(Pte(st, s, q, queue[i]))
    ensures var h := queue[HeadIndex(st, s, q, queue)];
      forall i :: 0 <= i < |queue| ==> Comparators.CompareByPriceToExpel(pte, queue[i], h) != -1
  {
    var h := queue[HeadIndex(st, s, q, queue)];
    forall i | 0 <= i < |queue|
      ensures Comparators.CompareByPriceToExpel(pte, queue[i], h) != -1
    {
      assert !Precedes(st, s, q, queue[i], h);
    }
  }

  /** The queue without the element at index i. */
  function RemoveAt(queue: seq<FirmView>, i: nat): (r: seq<FirmView>)
    requires i < |queue|
    ensures |r| == |queue| - 1
    ensures forall f :: f in r ==> f in queue
  {
    queue[..i] + queue[i + 1..]
  }

  /** The fixed inputs of one price search: the market read, the offer's perceived quality and its price bounds. */
  datatype Search = Search(st: ExpectedMarket.Setting, members: seq<FirmView>, perceivedQ: real,
                           minPrice: real, maxPrice: real)

  /** The iterator's state: the firms still queued and the current window. */
  datatype Window = Window(queue: seq<FirmView>, loF: Option<FirmView>, hiF: Option<FirmView>,
                           loPriceLimit: real, hiPriceLimit: real)

  predicate WindowOk(sr: Search, w: Window)
  {
    ExpectedMarket.Positive(sr.members) && AllPriced(sr.st, sr.members, sr.perceivedQ, w.queue) &&
    Neighbors.Admits(w.loF) && Neighbors.Admits(w.hiF)
  }

  /** The configured minimum and maximum prices are on the price grid. */
  predicate BoundsOnGrid(sr: Search)
  {
    Rounding.OnGrid(sr.minPrice, sr.st.priceScale) && Rounding.OnGrid(sr.maxPrice, sr.st.priceScale)
  }

  /** Both ends of the window are on the price grid and the lower one respects the minimum price. */
  predicate EndsOk(sr: Search, w: Window)
  {
    Rounding.OnGrid(w.loPriceLimit, sr.st.priceScale) && Rounding.OnGrid(w.hiPriceLimit, sr.st.priceScale) &&
    w.loPriceLimit >= sr.minPrice
  }

  /**
   * The state the constructor builds: every expellable member queued, the
   * window between the firms around the perceived quality, no replaced firm.
   */
  function Initial(sr: Search): (w: Window)
    requires ExpectedMarket.Positive(sr.members)
    ensures WindowOk(sr, w)
    ensures forall f :: f in w.queue <==> f in sr.members && Expellable(sr.st, sr.members, sr.perceivedQ, sr.minPrice, f)
    ensures w.hiPriceLimit == UtilityFunction.MaxPriceToEnter(sr.perceivedQ, w.loF, w.hiF, sr.maxPrice, sr.st.priceScale)
    ensures BoundsOnGrid(sr) ==> EndsOk(sr, w)
  {
    var lo := LowerGivenQ(sr.members, sr.perceivedQ);
    var hi := HigherGivenQ(sr.members, sr.perceivedQ);
    Neighbors.LimitsOnGrid(sr.st, sr.members, sr.perceivedQ, sr.minPrice, sr.maxPrice, lo, hi, None);
    Window(ToBeExpelled(sr.st, sr.members, sr.perceivedQ, sr.minPrice, sr.members), lo, hi,
           Neighbors.LoPriceLimit(sr.st, sr.members, sr.perceivedQ, sr.minPrice, lo, hi),
           Neighbors.HiPriceLimit(sr.st, sr.members, sr.perceivedQ, sr.maxPrice, lo, hi, None))
  }

  /**
   * One call of next: the head f leaves the queue; when f is the lower
   * neighbour the firm below f replaces it, otherwise the firm above f
   * replaces the higher one. The window's lower end keeps its meaning and,
   * when f was a neighbour, its upper end no longer exceeds f's price to
   * expel.
   */
  function Step(sr: Search, w: Window): (r: Window)
    requires WindowOk(sr, w) && |w.queue| > 0
    ensures WindowOk(sr, r) && |r.queue| == |w.queue| - 1
    ensures var h := HeadIndex(sr.st, sr.members, sr.perceivedQ, w.queue);
      var f := w.queue[h];
      r.queue == RemoveAt(w.queue, h) &&
      (w.loF == Some(f) ==> r.loF == ExpectedMarket.Lower(sr.members, f) && r.hiF == w.hiF) &&
      (w.loF != Some(f) ==> r.hiF == ExpectedMarket.Higher(sr.members, f) && r.loF == w.loF) &&
      ((w.loF == Some(f) || w.hiF == Some(f)) ==> r.hiPriceLimit <= Pte(sr.st, sr.members, sr.perceivedQ, f))
    ensures r.loPriceLimit == Neighbors.LoPriceLimit(sr.st, sr.members, sr.perceivedQ, sr.minPrice, r.loF, r.hiF)
    ensures r.hiPriceLimit <= UtilityFunction.MaxPriceToEnter(sr.perceivedQ, r.loF, r.hiF, sr.maxPrice, sr.st.priceScale)
    ensures BoundsOnGrid(sr) ==> EndsOk(sr, r)
  {
    var h := HeadIndex(sr.st, sr.members, sr.perceivedQ, w.queue);
    var f := w.queue[h];
    var queue := RemoveAt(w.queue, h);
    if w.loF == Some(f) then
      var lo := ExpectedMarket.Lower(sr.members, f);
      LowerIsMember(sr.members, f);
      Neighbors.LimitsOnGrid(sr.st, sr.members, sr.perceivedQ, sr.minPrice, sr.maxPrice, lo, w.hiF, w.loF);
      Window(queue, lo, w.hiF,
             Neighbors.LoPriceLimit(sr.st, sr.members, sr.perceivedQ, sr.minPrice, lo, w.hiF),
             Neighbors.HiPriceLimit(sr.st, sr.members, sr.perceivedQ, sr.maxPrice, lo, w.hiF, w.loF))
    else
      var hi := ExpectedMarket.Higher(sr.members, f);
      HigherIsMember(sr.members, f);
      Neighbors.LimitsOnGrid(sr.st, sr.members, sr.perceivedQ, sr.minPrice, sr.maxPrice, w.loF, hi, w.hiF);
      Window(queue, w.loF, hi,
             Neighbors.LoPriceLimit(sr.st, sr.members, sr.perceivedQ, sr.minPrice, w.loF, hi),
             Neighbors.HiPriceLimit(sr.st, sr.members, sr.perceivedQ, sr.maxPrice, w.loF, hi, w.hiF))
  }

  /**
   * setInitialcurrNeighbors' loop: step while the window is closed and
   * firms are queued. It stops at the first open window, and the window it
   * ends on is open unless the queue ran out.
   */
  function Settle(sr: Search, w: Window): (r: Window)
    requires WindowOk(sr, w)
    ensures WindowOk(sr, r) && |r.queue| <= |w.queue|
    ensures r.loPriceLimit < r.hiPriceLimit || r.queue == []
    ensures w.loPriceLimit < w.hiPriceLimit ==> r == w
    ensures BoundsOnGrid(sr) && EndsOk(sr, w) ==> EndsOk(sr, r)
    decreases |w.queue|
  {
    if w.loPriceLimit >= w.hiPriceLimit && |w.queue| > 0 then Settle(sr, Step(sr, w)) else w
  }

  /** The windows next returns, one per queued firm, until the queue is empty. */
  function Trail(sr: Search, w: Window): (ws: seq<Window>)
    requires WindowOk(sr, w)
    ensures |ws| == |w.queue|
    ensures forall v :: v in ws ==> WindowOk(sr, v) && (BoundsOnGrid(sr) ==> EndsOk(sr, v))
    ensures |ws| > 0 ==> ws[0] == Step(sr, w)
    decreases |w.queue|
  {
    if |w.queue| == 0 then [] else [Step(sr, w)] + Trail(sr, Step(sr, w))
  }

  class NeighborsByPriceToExpel {
    const st: ExpectedMarket.Setting
    const members: seq<FirmView>
    const perceivedQ: real
    const minPrice: real
    /** The current window; next updates it in place and returns it. */
    const currNeighbors: Neighbors.Neighbors
    var queue: seq<FirmView>

    predicate Valid()
      reads this, currNeighbors
    {
      ExpectedMarket.Positive(members) &&
      AllPriced(st, members, perceivedQ, queue) &&
      (forall f :: f in queue ==> f in members) &&
      currNeighbors.Valid() && currNeighbors.st == st && currNeighbors.members == members &&
      currNeighbors.perceivedQ == perceivedQ && currNeighbors.minPrice == minPrice
    }

    /** The search's fixed inputs. */
    function SearchOf(): Search
      reads this, currNeighbors
    {
      Search(st, members, perceivedQ, minPrice, currNeighbors.maxPrice)
    }

    /** The queue and the current window, as a value. */
    function Snapshot(): Window
      reads this, currNeighbors
    {
      Window(queue, currNeighbors.loF, currNeighbors.hiF, currNeighbors.loPriceLimit, currNeighbors.hiPriceLimit)
    }

    /**
     * The queue of expellable members and the initial window between the
     * market's lower and higher firms around perceivedQ. (The Java
     * constructor then runs SetInitialCurrNeighbors.)
     */
    constructor (st: ExpectedMarket.Setting, members: seq<FirmView>, perceivedQ: real, minPrice: real, maxPrice: real)
      requires ExpectedMarket.Positive(members)
      ensures this.st == st && this.members == members && this.perceivedQ == perceivedQ && this.minPrice == minPrice
      ensures fresh(currNeighbors) && Valid()
      ensures SearchOf() == Search(st, members, perceivedQ, minPrice, maxPrice)
      ensures Snapshot() == Initial(SearchOf())
    {
      this.st := st;
      this.members := members;
      this.perceivedQ := perceivedQ;
      this.minPrice := minPrice;
      queue := ToBeExpelled(st, members, perceivedQ, minPrice, members);
      var lo := LowerGivenQ(members, perceivedQ);
      var hi := HigherGivenQ(members, perceivedQ);
      currNeighbors := new Neighbors.Neighbors(st, members, perceivedQ, minPrice, maxPrice, lo, hi);
    }

    /** hasNext: the queue is not empty. */
    function HasNext(): (r: bool)
      reads this
      ensures r <==> |queue| > 0
    {
      |queue| > 0
    }

    /**
     * next: removes the head of the queue and replaces the neighbour it is
     * (the lower one by the firm below it, otherwise the higher one by the
     * firm above it). The loop around this step has no condition in the
     * source and the window assertion after it is not enforced.
     */
    method Next() returns (n: Neighbors.Neighbors)
      requires Valid() && |queue| > 0
      modifies this, currNeighbors
      ensures Valid() && n == currNeighbors && SearchOf() == old(SearchOf())
      ensures Snapshot() == Step(SearchOf(), old(Snapshot()))
    {
      var h := HeadIndex(st, members, perceivedQ, queue);
      var f := queue[h];
      assert f in members;
      queue := RemoveAt(queue, h);
      if currNeighbors.loF == Some(f) {
        var lower := ExpectedMarket.Lower(members, f);
        LowerIsMember(members, f);
        currNeighbors.SetLoF(lower);
      } else {
        var higher := ExpectedMarket.Higher(members, f);
        HigherIsMember(members, f);
        currNeighbors.SetHiF(higher);
      }
      n := currNeighbors;
    }

    /**
     * setInitialcurrNeighbors: expel competitors until the window is open
     * or none is left; NoPrice when it is still closed.
     */
    method SetInitialCurrNeighbors() returns (noPrice: bool)
      requires Valid()
      modifies this, currNeighbors
      ensures Valid() && SearchOf() == old(SearchOf())
      ensures Snapshot() == Settle(SearchOf(), old(Snapshot()))
      ensures noPrice <==> currNeighbors.loPriceLimit >= currNeighbors.hiPriceLimit
    {
      while currNeighbors.loPriceLimit >= currNeighbors.hiPriceLimit && HasNext()
        invariant Valid() && SearchOf() == old(SearchOf())
        invariant Settle(SearchOf(), Snapshot()) == Settle(SearchOf(), old(Snapshot()))
        decreases |queue|
      {
        var _ := Next();
      }
      noPrice := currNeighbors.loPriceLimit >= currNeighbors.hiPriceLimit;
    }
  }

  /**
   * getLowerFirmGivenQ on the members; ExpectedMarket.GivenQQueriesSplit shows
   * that on the ordered set it is the firm just before HigherGivenQ's.
   */
  function LowerGivenQ(s: seq<FirmView>, q: real): (r: Option<FirmView>)
    requires ExpectedMarket.Positive(s)
    ensures Neighbors.Admits(r)
    ensures r.Some? ==> r.value in s && r.value.perceivedQ <= q
  {
    match ExpectedMarket.LastAtOrBelowQ(s, q)
    case None => None
    case Some(i) => Some(s[i])
  }

  /**
   * getHigherFirmGivenQ on the members; ExpectedMarket.GivenQQueriesSplit shows
   * that on the ordered set it is the firm just after LowerGivenQ's.
   */
  function HigherGivenQ(s: seq<FirmView>, q: real): (r: Option<FirmView>)
    requires ExpectedMarket.Positive(s)
    ensures Neighbors.Admits(r)
    ensures r.Some? ==> r.value in s && r.value.perceivedQ > q
  {
    match ExpectedMarket.FirstAboveQ(s, q)
    case None => None
    case Some(i) => Some(s[i])
  }

  lemma LowerIsMember(s: seq<FirmView>, f: FirmView)
    requires ExpectedMarket.Positive(s)
    ensures Neighbors.Admits(ExpectedMarket.Lower(s, f))
  {
  }

  lemma HigherIsMember(s: seq<FirmView>, f: FirmView)
    requires ExpectedMarket.Positive(s)
    ensures Neighbors.Admits(ExpectedMarket.Higher(s, f))
  {
  }
}
