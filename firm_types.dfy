// The real qualities each kind of firm considers moving to: its current
// quality and the closest free qualities one quality step below and above,
// as far as its type allows. Firm.getClosestAvailableQuality, which these
// call, is not part of this model and is the parameter `closest`.
module FirmTypes {
  import opened Wrappers

  /** stream.filter(Optional::isPresent).map(Optional::get): the present values, in order. */
  function Present(opts: seq<Option<real>>): (r: seq<real>)
    ensures |r| <= |opts|
    ensures forall x :: x in r <==> Some(x) in opts
    ensures opts != [] && opts[0].Some? ==> r != [] && r[0] == opts[0].value
    ensures |r| == |opts| <==> forall i :: 0 <= i < |opts| ==> opts[i].Some?
  {
    if opts == [] then []
    else
      var rest := Present(opts[1..]);
      assert forall o :: o in opts <==> o == opts[0] || o in opts[1..];
      assert forall i :: 1 <= i < |opts| ==> opts[i] == opts[1..][i - 1];
      if opts[0].Some? then [opts[0].value] + rest else rest
  }

  /** Three present values pass the filter unchanged. */
  lemma PresentOfThree(a: real, b: real, c: real)
    ensures Present([Some(a), Some(b), Some(c)]) == [a, b, c]
  {
    var opts := [Some(a), Some(b), Some(c)];
    assert opts[1..][1..] == [Some(c)];
    assert opts[1..][1..][1..] == [];
  }

  /** StandardFirm: current, then lower only above one step, then higher. */
  function Standard(currQ: real, step: real, closest: real -> Option<real>): (r: seq<real>)
    ensures r != [] && r[0] == currQ && |r| <= 3
    ensures forall x :: x in r <==>
      x == currQ || (currQ > step && Some(x) == closest(currQ - step)) || Some(x) == closest(currQ + step)
  {
    var lower := if currQ > step then [closest(currQ - step)] else [];
    Present([Some(currQ)] + lower + [closest(currQ + step)])
  }

  /** NoQIncreaseFirm: current, then lower only above one step. */
  function NoQIncrease(currQ: real, step: real, closest: real -> Option<real>): (r: seq<real>)
    ensures r != [] && r[0] == currQ && |r| <= 2
    ensures forall x :: x in r <==> x == currQ || (currQ > step && Some(x) == closest(currQ - step))
  {
    var lower := if currQ > step then [closest(currQ - step)] else [];
    Present([Some(currQ)] + lower)
  }

  /** NoQReductionFirm: current, then higher. */
  function NoQReduction(currQ: real, step: real, closest: real -> Option<real>): (r: seq<real>)
    ensures r != [] && r[0] == currQ && |r| <= 2
    ensures forall x :: x in r <==> x == currQ || Some(x) == closest(currQ + step)
  {
    Present([Some(currQ), closest(currQ + step)])
  }

  /** IncreaseQFirm: only the higher quality; the current one is not an option. */
  function IncreaseQ(currQ: real, step: real, closest: real -> Option<real>): (r: seq<real>)
    ensures |r| <= 1
    ensures r == [] <==> closest(currQ + step).None?
    ensures forall x :: x in r <==> Some(x) == closest(currQ + step)
  {
    Present([closest(currQ + step)])
  }

  /** NoQChangeFirm: exactly the current quality, with no lookup. */
  function NoQChange(currQ: real): (r: seq<real>)
    ensures |r| == 1 && r[0] == currQ
  {
    [currQ]
  }

  /**
   * How the types' options nest: a no-change firm's single option is the
   * first of every type that keeps its quality; the restricted types only
   * drop options a standard firm has, and a standard firm's options are
   * exactly those of the two one-directional types together.
   */
  lemma {:induction false} OptionsNest(currQ: real, step: real, closest: real -> Option<real>)
    ensures var s := Standard(currQ, step, closest);
      var down := NoQIncrease(currQ, step, closest);
      var up := NoQReduction(currQ, step, closest);
      var inc := IncreaseQ(currQ, step, closest);
      NoQChange(currQ)[0] == s[0] == down[0] == up[0] &&
      (forall x :: x in down ==> x in s) &&
      (forall x :: x in up ==> x in s) &&
      (forall x :: x in inc ==> x in up) &&
      (forall x :: x in s <==> x in down || x in up)
  {
  }
}
