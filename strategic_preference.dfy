// The strategic preference of a firm: the price it picks from a range and
// the real qualities it tries, looked up among the qualities the firms
// occupy (the keys of firmsByQ) with the free-quality searches of the offer.
module StrategicPreference {
  import opened Wrappers
  import Rounding
  import Consumers
  import FirmTypes

  /** selectPriceFromRange: the midpoint, equally far from both ends. */
  function SelectPriceFromRange(lo: real, hi: real): (r: real)
    ensures r - lo == hi - r
    ensures lo <= hi ==> lo <= r <= hi
  {
    (lo + hi) / 2.0
  }

  /** forQuality: the preference always favours quality. */
  const ForQuality: bool := true

  /** The closest free quality at or above q, as the upward search finds it. */
  function Closest(occupied: set<real>, qualityScale: nat): real -> Option<real>
  {
    q => Some(Rounding.HalfUp(Consumers.UpStop(occupied, q, qualityScale), qualityScale))
  }

  /**
   * getClosestAvailableQuality: both searches run; favouring quality, the
   * upward result is taken when present, which it always is. From a quality
   * on the grid the result is therefore a free quality at or above q.
   */
  method ClosestAvailableQuality(occupied: set<real>, q: real, qualityScale: nat)
    returns (r: Option<real>)
    ensures r == Closest(occupied, qualityScale)(q)
    ensures Rounding.OnGrid(q, qualityScale) ==> r.Some? && r.value !in occupied && r.value >= q
  {
    var up := Consumers.UpwardClosestAvailableQuality(occupied, q, qualityScale);
    var down := Consumers.DownwardClosestAvailableQuality(occupied, q, qualityScale);
    if ForQuality {
      if up.Some? {
        r := up;
      } else {
        r := down;
      }
    } else {
      if down.Some? {
        r := down;
      } else {
        r := up;
      }
    }
    if Rounding.OnGrid(q, qualityScale) {
      Consumers.UpwardSearchMeaning(occupied, q, qualityScale);
    }
  }

  /**
   * getRealQualityOptions: the current quality, then the closest free
   * quality to one step below, then to one step above. No lookup is ever
   * empty, so there are always three options, and with the quality and the
   * step on the grid the two looked-up ones are free and at or above their
   * starts. Above one step this is the standard firm's list.
   */
  method RealQualityOptions(occupied: set<real>, currQ: real, step: real, qualityScale: nat)
    returns (r: seq<real>)
    ensures |r| == 3 && r[0] == currQ
    ensures r[1] == Closest(occupied, qualityScale)(currQ - step).value
    ensures r[2] == Closest(occupied, qualityScale)(currQ + step).value
    ensures Rounding.OnGrid(currQ, qualityScale) && Rounding.OnGrid(step, qualityScale) ==>
      r[1] !in occupied && r[1] >= currQ - step && r[2] !in occupied && r[2] >= currQ + step
    ensures currQ > step ==> r == FirmTypes.Standard(currQ, step, Closest(occupied, qualityScale))
  {
    if Rounding.OnGrid(currQ, qualityScale) && Rounding.OnGrid(step, qualityScale) {
      Rounding.OnGridSum(currQ, step, qualityScale);
    }
    var lower := ClosestAvailableQuality(occupied, currQ - step, qualityScale);
    var higher := ClosestAvailableQuality(occupied, currQ + step, qualityScale);
    r := FirmTypes.Present([Some(currQ), lower, higher]);
    FirmTypes.PresentOfThree(currQ, lower.value, higher.value);
    if currQ > step {
      assert [Some(currQ)] + [lower] + [higher] == [Some(currQ), lower, higher];
    }
  }
}
