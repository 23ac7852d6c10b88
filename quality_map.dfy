// The market's firms keyed by their real quality (firmsByQ, a TreeMap) and
// its strictly-lower and strictly-higher entry lookups.
module QualityMap {
  import opened Wrappers
  import opened Values

  type FirmsByQ = map<real, FirmView>

  ghost function Greatest(s: set<real>): (g: real)
    requires exists x :: x in s
    ensures g in s && forall x :: x in s ==> x <= g
  {
    var y :| y in s;
    if exists x :: x in s && x != y then
      var x :| x in s && x != y;
      assert x in s - {y};
      var g' := Greatest(s - {y});
      assert forall z :: z in s ==> z == y || z in s - {y};
      if y > g' then y else g'
    else y
  }

  ghost function Least(s: set<real>): (g: real)
    requires exists x :: x in s
    ensures g in s && forall x :: x in s ==> g <= x
  {
    var y :| y in s;
    if exists x :: x in s && x != y then
      var x :| x in s && x != y;
      assert x in s - {y};
      var g' := Least(s - {y});
      assert forall z :: z in s ==> z == y || z in s - {y};
      if y < g' then y else g'
    else y
  }

  /** The greatest key strictly below q (TreeMap.lowerKey). */
  ghost function LowerKey(m: FirmsByQ, q: real): (r: Option<real>)
    ensures r.None? <==> forall k :: k in m ==> k >= q
    ensures r.Some? ==> r.value in m && r.value < q && forall k :: k in m && k < q ==> k <= r.value
  {
    if exists k :: k in m && k < q then
      var k :| k in m && k < q;
      var below := set k | k in m && k < q;
      assert k in below;
      assert forall x :: x in m && x < q ==> x in below;
      Some(Greatest(below))
    else None
  }

  /** The least key strictly above q (TreeMap.higherKey). */
  ghost function HigherKey(m: FirmsByQ, q: real): (r: Option<real>)
    ensures r.None? <==> forall k :: k in m ==> k <= q
    ensures r.Some? ==> r.value in m && r.value > q && forall k :: k in m && k > q ==> r.value <= k
  {
    if exists k :: k in m && k > q then
      var k :| k in m && k > q;
      var above := set k | k in m && k > q;
      assert k in above;
      assert forall x :: x in m && x > q ==> x in above;
      Some(Least(above))
    else None
  }

  /** The firm of the greatest quality strictly below q, if any. */
  ghost function LowerFirm(m: FirmsByQ, q: real): Option<FirmView>
  {
    match LowerKey(m, q)
    case None => None
    case Some(k) => Some(m[k])
  }

  /** The firm of the least quality strictly above q, if any. */
  ghost function HigherFirm(m: FirmsByQ, q: real): Option<FirmView>
  {
    match HigherKey(m, q)
    case None => None
    case Some(k) => Some(m[k])
  }

  /**
   * Optional.ofNullable(firmsByQ.lowerEntry(q)).map(Entry::getValue): empty
   * when no quality lies below q, else the firm at the greatest such one.
   */
  method LowerEntry(m: FirmsByQ, q: real) returns (r: Option<FirmView>)
    ensures r == LowerFirm(m, q)
    ensures r.None? <==> forall k :: k in m ==> k >= q
    ensures r.Some? ==> exists k :: k in m && k < q && m[k] == r.value &&
                                    forall x :: x in m && x < q ==> x <= k
  {
    if exists k :: k in m && k < q {
      var g := LowerKey(m, q).value;
      var k :| k in m && k < q && forall x :: x in m && x < q ==> x <= k;
      assert k <= g && g <= k;
      r := Some(m[k]);
    } else {
      r := None;
    }
  }

  /**
   * Optional.ofNullable(firmsByQ.higherEntry(q)).map(Entry::getValue): empty
   * when no quality lies above q, else the firm at the least such one.
   */
  method HigherEntry(m: FirmsByQ, q: real) returns (r: Option<FirmView>)
    ensures r == HigherFirm(m, q)
    ensures r.None? <==> forall k :: k in m ==> k <= q
    ensures r.Some? ==> exists k :: k in m && k > q && m[k] == r.value &&
                                    forall x :: x in m && x > q ==> k <= x
  {
    if exists k :: k in m && k > q {
      var g := HigherKey(m, q).value;
      var k :| k in m && k > q && forall x :: x in m && x > q ==> k <= x;
      assert k <= g && g <= k;
      r := Some(m[k]);
    } else {
      r := None;
    }
  }
}
