/**
 * The six-feature State of the first agent generation: two angle features,
 * two compass features and two flags. A State object is overwritten by
 * update; its value (StateValue) is what equals compares and what keys a
 * row of the Q-table.
 */
module States {

  /** Array positions read by update. */
  const POSORIENTATION := 0
  const POSDISPLACEMENT := 1
  const POSCOMPASSEW := 2
  const POSCOMPASSNS := 3
  const POSDANGER := 4
  const POSFAST := 5

  /** Compass codes. */
  const NORTH := 0
  const SOUTH := 1
  const EAST := 2
  const WEST := 3

  /** Angle codes: ANGLE0 + k stands for 45 * k degrees. */
  const ANGLE0 := 4
  const ANGLE45 := 5
  const ANGLE90 := 6
  const ANGLE135 := 7
  const ANGLE180 := 8
  const ANGLE225 := 9
  const ANGLE270 := 10
  const ANGLE315 := 11

  /** The six features of a State, compared field by field. */
  datatype StateValue = StateValue(
    orientation: int, displacement: int, compassEW: int, compassNS: int, danger: bool, fast: bool)

  /** The value update gives a State from an array of at least six integers: flags are "non-zero". */
  function Decode(a: seq<int>): (v: StateValue)
    requires |a| >= 6
    ensures v.danger <==> a[POSDANGER] != 0
    ensures v.fast <==> a[POSFAST] != 0
  {
    StateValue(a[POSORIENTATION], a[POSDISPLACEMENT], a[POSCOMPASSEW], a[POSCOMPASSNS],
               a[POSDANGER] != 0, a[POSFAST] != 0)
  }

  /**
   * Two arrays decode to equal states exactly when they agree at positions
   * 0..3 and agree on which of positions 4 and 5 are non-zero.
   */
  lemma DecodeEqualIff(a: seq<int>, b: seq<int>)
    requires |a| >= 6 && |b| >= 6
    ensures Decode(a) == Decode(b) <==>
              a[..4] == b[..4] && (a[4] == 0 <==> b[4] == 0) && (a[5] == 0 <==> b[5] == 0)
  {
    if a[..4] == b[..4] {
      assert a[0] == a[..4][0] == b[..4][0] == b[0];
      assert a[1] == a[..4][1] == b[..4][1] == b[1];
      assert a[2] == a[..4][2] == b[..4][2] == b[2];
      assert a[3] == a[..4][3] == b[..4][3] == b[3];
    }
  }

  class State {
    var orientation: int
    var displacement: int
    var compassEW: int
    var compassNS: int
    var danger: bool
    var fast: bool

    /** The features as a value. */
    function Value(): StateValue
      reads this
    {
      StateValue(orientation, displacement, compassEW, compassNS, danger, fast)
    }

    /** A state with every integer feature 0 and both flags false. */
    constructor ()
      ensures Value() == StateValue(0, 0, 0, 0, false, false)
    {
      orientation, displacement, compassEW, compassNS := 0, 0, 0, 0;
      danger, fast := false, false;
    }

    /** A copy: equal to the original, and a separate object. */
    constructor Copy(obj: State)
      ensures Value() == obj.Value()
      ensures Equals(obj)
    {
      orientation := obj.orientation;
      displacement := obj.displacement;
      compassEW := obj.compassEW;
      compassNS := obj.compassNS;
      danger := obj.danger;
      fast := obj.fast;
    }

    /** A state built from an array, as update reads it. */
    constructor FromArray(a: seq<int>)
      requires |a| >= 6
      ensures Value() == Decode(a)
    {
      new;
      Update(a);
    }

    /** Overwrites every feature from the array. */
    method Update(a: seq<int>)
      requires |a| >= 6
      modifies this
      ensures Value() == Decode(a)
    {
      orientation := a[POSORIENTATION];
      displacement := a[POSDISPLACEMENT];
      compassEW := a[POSCOMPASSEW];
      compassNS := a[POSCOMPASSNS];
      danger := a[POSDANGER] != 0;
      fast := a[POSFAST] != 0;
    }

    /** equals: all six features agree. */
    predicate Equals(other: State)
      reads this, other
      ensures Equals(other) <==> Value() == other.Value()
    {
      && orientation == other.orientation
      && displacement == other.displacement
      && compassEW == other.compassEW
      && compassNS == other.compassNS
      && danger == other.danger
      && fast == other.fast
    }
  }

  /** equals is reflexive, symmetric and transitive. */
  lemma EqualsIsEquivalence(a: State, b: State, c: State)
    ensures a.Equals(a)
    ensures a.Equals(b) ==> b.Equals(a)
    ensures a.Equals(b) && b.Equals(c) ==> a.Equals(c)
  {
  }

  /** The decimal digits of n. */
  function DecimalString(n: nat): (s: string)
    ensures |s| >= 1
  {
    if n < 10 then ["0123456789"[n]]
    else DecimalString(n / 10) + ["0123456789"[n % 10]]
  }

  lemma DecimalOfAngles()
    ensures DecimalString(0) == "0" && DecimalString(45) == "45" && DecimalString(90) == "90"
    ensures DecimalString(135) == "135" && DecimalString(180) == "180" && DecimalString(225) == "225"
    ensures DecimalString(270) == "270" && DecimalString(315) == "315"
  {
    assert DecimalString(13) == "13";
    assert DecimalString(18) == "18";
    assert DecimalString(22) == "22";
    assert DecimalString(27) == "27";
    assert DecimalString(31) == "31";
  }

  /** The degrees an angle code stands for, in decimal; a fallback text otherwise. */
  function OrientationToString(value: int): (s: string)
    ensures ANGLE0 <= value <= ANGLE315 ==> s == DecimalString(45 * (value - ANGLE0))
    ensures !(ANGLE0 <= value <= ANGLE315) ==> s == "Not an orientation value"
  {
    DecimalOfAngles();
    if value == ANGLE0 then "0"
    else if value == ANGLE45 then "45"
    else if value == ANGLE90 then "90"
    else if value == ANGLE135 then "135"
    else if value == ANGLE180 then "180"
    else if value == ANGLE225 then "225"
    else if value == ANGLE270 then "270"
    else if value == ANGLE315 then "315"
    else "Not an orientation value"
  }

  /** The name of a compass code; a fallback text otherwise. */
  function CompassToString(value: int): (s: string)
    ensures value == NORTH ==> s == "North"
    ensures value == SOUTH ==> s == "South"
    ensures value == EAST ==> s == "East"
    ensures value == WEST ==> s == "West"
    ensures !(NORTH <= value <= WEST) ==> s == "Not a compass value"
  {
    if value == NORTH then "North"
    else if value == SOUTH then "South"
    else if value == EAST then "East"
    else if value == WEST then "West"
    else "Not a compass value"
  }

  /** Different codes get different texts, so each text names one code. */
  lemma OrientationNamesAreDistinct(u: int, v: int)
    requires ANGLE0 <= u <= ANGLE315 && ANGLE0 <= v <= ANGLE315 && u != v
    ensures OrientationToString(u) != OrientationToString(v)
    ensures OrientationToString(u) != "Not an orientation value"
  {
  }

  /** Different compass codes get different names, none of them the fallback. */
  lemma CompassNamesAreDistinct(u: int, v: int)
    requires NORTH <= u <= WEST && NORTH <= v <= WEST && u != v
    ensures CompassToString(u) != CompassToString(v)
    ensures CompassToString(u) != "Not a compass value"
  {
  }
}
