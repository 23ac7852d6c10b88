// Recessions: a global magnitude in [0, 1) that scales every welfare
// parameter firms perceive (and consumers use), and the schedule that sets
// and resets it from three colon-separated parameter strings.
module RecessionsHandler {
  import opened Wrappers

  /** The welfare parameter once a recession of the given magnitude hits. */
  function Scaled(raw: real, magnitude: real): real
  {
    raw * (1.0 - magnitude)
  }

  /** With no recession the scaling is the identity. */
  lemma NoRecessionIsIdentity(raw: real)
    ensures Scaled(raw, 0.0) == raw
  {
  }

  /**
   * A recession of magnitude below one keeps the order of welfare
   * parameters (so the poorest consumer stays the poorest) and never raises
   * a non-negative one.
   */
  lemma ScaledKeepsOrder(x: real, y: real, magnitude: real)
    ensures 0.0 <= magnitude < 1.0 && x < y ==> Scaled(x, magnitude) < Scaled(y, magnitude)
    ensures 0.0 <= magnitude < 1.0 && x <= y ==> Scaled(x, magnitude) <= Scaled(y, magnitude)
    ensures 0.0 <= magnitude < 1.0 && 0.0 <= x ==> 0.0 <= Scaled(x, magnitude) <= x
  {
    if 0.0 <= magnitude < 1.0 {
      if x < y {
        ScaledStrictlyMonotone(x, y, magnitude);
      }
      if 0.0 <= x {
        ScaledNotAbove(x, magnitude);
      }
    }
  }

  lemma ScaledStrictlyMonotone(x: real, y: real, magnitude: real)
    requires 0.0 <= magnitude < 1.0 && x < y
    ensures Scaled(x, magnitude) < Scaled(y, magnitude)
  {
    var gap := y - x;
    var keep := 1.0 - magnitude;
    MulPositive(gap, keep);
    ScaledGap(x, y, magnitude);
    assert Scaled(y, magnitude) - Scaled(x, magnitude) == gap * keep;
  }

  lemma ScaledNotAbove(x: real, magnitude: real)
    requires 0.0 <= magnitude < 1.0 && 0.0 <= x
    ensures 0.0 <= Scaled(x, magnitude) <= x
  {
    ScaledLoss(x, magnitude);
    MulNonNegative(x, magnitude);
    MulNonNegative(x, 1.0 - magnitude);
  }

  /** Scaling distributes over the gap between two welfare parameters. */
  lemma ScaledGap(x: real, y: real, magnitude: real)
    ensures Scaled(y, magnitude) - Scaled(x, magnitude) == (y - x) * (1.0 - magnitude)
  {
  }

  /** What a recession takes away from a welfare parameter. */
  lemma ScaledLoss(x: real, magnitude: real)
    ensures x - Scaled(x, magnitude) == x * magnitude
  {
  }

  lemma MulPositive(a: real, b: real)
    requires a > 0.0 && b > 0.0
    ensures a * b > 0.0
  {
  }

  lemma MulNonNegative(a: real, b: real)
    requires a >= 0.0 && b >= 0.0
    ensures a * b >= 0.0
  {
  }

  /** One call the handler registers with the simulation's scheduler. */
  datatype Action = SetMagnitude(at: real, magnitude: real)

  /**
   * The ':'-separated fields of s, empty fields included; fields never
   * contain ':'.
   */
  function Fields(s: string): (r: seq<string>)
    ensures |r| >= 1
    ensures forall i :: 0 <= i < |r| ==> ':' !in r[i]
  {
    if s == [] then [""]
    else if s[0] == ':' then [""] + Fields(s[1..])
    else
      var rest := Fields(s[1..]);
      [[s[0]] + rest[0]] + rest[1..]
  }

  /** Concatenates the fields with ':' between them. */
  function Join(fs: seq<string>): string
    requires |fs| >= 1
  {
    if |fs| == 1 then fs[0] else fs[0] + ":" + Join(fs[1..])
  }

  /** Joining the fields back gives the original text. */
  lemma {:induction false} JoinFields(s: string)
    ensures Join(Fields(s)) == s
  {
    if s == [] {
    } else if s[0] == ':' {
      JoinFields(s[1..]);
      assert Fields(s) == [""] + Fields(s[1..]);
      assert Fields(s)[1..] == Fields(s[1..]);
    } else {
      JoinFields(s[1..]);
      var rest := Fields(s[1..]);
      var r := Fields(s);
      assert r == [[s[0]] + rest[0]] + rest[1..];
      if |rest| == 1 {
        assert Join(r) == [s[0]] + rest[0];
      } else {
        assert r[1..] == rest[1..];
        assert Join(r) == [s[0]] + rest[0] + ":" + Join(rest[1..]);
        assert Join(rest) == rest[0] + ":" + Join(rest[1..]);
      }
      assert s == [s[0]] + s[1..];
    }
  }

  function DropTrailingEmpty(fs: seq<string>): (r: seq<string>)
    ensures |r| <= |fs| && r == fs[..|r|]
    ensures |r| > 0 ==> r[|r| - 1] != ""
    ensures forall i :: |r| <= i < |fs| ==> fs[i] == ""
  {
    if |fs| > 0 && fs[|fs| - 1] == "" then DropTrailingEmpty(fs[..|fs| - 1]) else fs
  }

  /**
   * String.split(":"): the text itself when it holds no ':', otherwise its
   * fields with trailing empty fields removed.
   */
  function Split(s: string): (r: seq<string>)
    ensures ':' !in s ==> r == [s]
    ensures ':' in s ==> |r| <= |Fields(s)| && r == Fields(s)[..|r|]
    ensures ':' in s && |r| > 0 ==> r[|r| - 1] != ""
  {
    if ':' !in s then [s] else DropTrailingEmpty(Fields(s))
  }

  /**
   * Double.valueOf on every field; a field `parse` rejects raises
   * NumberFormatException, modelled as None.
   */
  function ParseAll(fs: seq<string>, parse: string -> Option<real>): (r: Option<seq<real>>)
    ensures r.Some? <==> forall i :: 0 <= i < |fs| ==> parse(fs[i]).Some?
    ensures r.Some? ==> |r.value| == |fs|
    ensures r.Some? ==> forall i :: 0 <= i < |fs| ==> r.value[i] == parse(fs[i]).value
  {
    if fs == [] then Some([])
    else
      match (parse(fs[0]), ParseAll(fs[1..], parse))
      case (Some(v), Some(vs)) =>
        assert forall i :: 1 <= i < |fs| ==> fs[i] == fs[1..][i - 1];
        Some([v] + vs)
      case (_, _) =>
        assert forall i :: 1 <= i < |fs| ==> fs[i] == fs[1..][i - 1];
        None
  }

  /** Reads one ':'-separated parameter into an array of doubles. */
  method ParseColonList(text: string, parse: string -> Option<real>) returns (r: Option<seq<real>>)
    ensures r == ParseAll(Split(text), parse)
  {
    var tmp := Split(text);
    var values := new real[|tmp|];
    var i := 0;
    while i < |tmp|
      invariant 0 <= i <= |tmp|
      invariant forall k :: 0 <= k < i ==> parse(tmp[k]).Some? && values[k] == parse(tmp[k]).value
    {
      var v := parse(tmp[i]);
      if v.None? {
        return None;
      }
      values[i] := v.value;
      i := i + 1;
    }
    assert values[..] == ParseAll(tmp, parse).value;
    r := Some(values[..]);
  }

  function Min3(a: nat, b: nat, c: nat): nat
  {
    if a <= b && a <= c then a else if b <= c then b else c
  }

  /**
   * The scheduling loop, once per magnitude: the recession starts at
   * start[i] with magnitude mag[i] and ends at start[i] + dur[i]. A start
   * or duration list shorter than the magnitude list raises
   * ArrayIndexOutOfBoundsException; the actions registered before that
   * stay registered and `completed` is false.
   */
  method Schedule(start: seq<real>, dur: seq<real>, mag: seq<real>)
    returns (actions: seq<Action>, completed: bool)
    ensures completed <==> |mag| <= |start| && |mag| <= |dur|
    ensures var n := Min3(|mag|, |start|, |dur|);
      |actions| == 2 * n + (if n < |mag| && n < |start| then 1 else 0)
    ensures forall i :: 0 <= i < Min3(|mag|, |start|, |dur|) ==>
      actions[2 * i] == SetMagnitude(start[i], mag[i]) &&
      actions[2 * i + 1] == SetMagnitude(start[i] + dur[i], 0.0)
    ensures var n := Min3(|mag|, |start|, |dur|);
      n < |mag| && n < |start| ==> actions[2 * n] == SetMagnitude(start[n], mag[n])
  {
    actions := [];
    var i := 0;
    while i < |mag|
      invariant 0 <= i <= |mag|
      invariant i <= |start| && i <= |dur|
      invariant |actions| == 2 * i
      invariant forall k :: 0 <= k < i ==>
        actions[2 * k] == SetMagnitude(start[k], mag[k]) &&
        actions[2 * k + 1] == SetMagnitude(start[k] + dur[k], 0.0)
    {
      if i >= |start| {
        return actions, false;
      }
      actions := actions + [SetMagnitude(start[i], mag[i])];
      if i >= |dur| {
        return actions, false;
      }
      actions := actions + [SetMagnitude(start[i] + dur[i], 0.0)];
      i := i + 1;
    }
    completed := true;
  }

  class RecessionsHandler {
    var recessionMagnitude: real

    constructor ()
      ensures recessionMagnitude == 0.0
    {
      recessionMagnitude := 0.0;
    }

    method SetRecesMagnitude(mag: real)
      modifies this
      ensures recessionMagnitude == mag
    {
      recessionMagnitude := mag;
    }

    method GetRecesMagnitude() returns (mag: real)
      ensures mag == recessionMagnitude
    {
      mag := recessionMagnitude;
    }

    /** The poorest consumer's welfare parameter as firms perceive it. */
    function MinWelfareParamPerceivedByFirms(minRaw: real): (r: real)
      reads this
      ensures 0.0 <= recessionMagnitude < 1.0 && 0.0 <= minRaw ==> 0.0 <= r <= minRaw
    {
      ScaledKeepsOrder(minRaw, minRaw, recessionMagnitude);
      Scaled(minRaw, recessionMagnitude)
    }

    function WelfareParamPerceivedByFirms(raw: real): (r: real)
      reads this
      ensures 0.0 <= recessionMagnitude < 1.0 && 0.0 <= raw ==> 0.0 <= r <= raw
    {
      ScaledKeepsOrder(raw, raw, recessionMagnitude);
      Scaled(raw, recessionMagnitude)
    }

    function WelfareParamForConsumers(raw: real): (r: real)
      reads this
      ensures r == WelfareParamPerceivedByFirms(raw)
    {
      Scaled(raw, recessionMagnitude)
    }

    /**
     * scheduleRecessions: parses the three parameters, then schedules. A
     * parameter that does not parse aborts before anything is scheduled.
     */
    method ScheduleRecessions(startText: string, durText: string, magText: string,
                              parse: string -> Option<real>)
      returns (actions: seq<Action>, completed: bool)
      ensures var s, d, m := ParseAll(Split(startText), parse), ParseAll(Split(durText), parse),
                             ParseAll(Split(magText), parse);
        if s.None? || d.None? || m.None? then actions == [] && !completed
        else completed <==> |m.value| <= |s.value| && |m.value| <= |d.value|
      ensures completed ==> var s, d, m := ParseAll(Split(startText), parse).value,
                                           ParseAll(Split(durText), parse).value,
                                           ParseAll(Split(magText), parse).value;
        |actions| == 2 * |m| &&
        forall i :: 0 <= i < |m| ==>
          actions[2 * i] == SetMagnitude(s[i], m[i]) &&
          actions[2 * i + 1] == SetMagnitude(s[i] + d[i], 0.0)
    {
      var start := ParseColonList(startText, parse);
      if start.None? {
        return [], false;
      }
      var dur := ParseColonList(durText, parse);
      if dur.None? {
        return [], false;
      }
      var mag := ParseColonList(magText, parse);
      if mag.None? {
        return [], false;
      }
      actions, completed := Schedule(start.value, dur.value, mag.value);
    }
  }
}
