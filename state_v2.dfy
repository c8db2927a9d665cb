/**
 * The four-feature State of the third agent generation: orientation and
 * displacement regions (0..9), and the goal and fast flags stored as the
 * integers FALSE/TRUE. update copies the array verbatim.
 */
module StatesV2 {

  const NUMATTRIBUTES := 4
  const POSORIENTATION := 0
  const POSDISPLACEMENT := 1
  const POSGOAL := 2
  const POSFAST := 3

  const NUMZONEVALUES := 10

  const NUMBOOLEANVALUES := 2
  const FALSE := 0
  const TRUE := 1

  /** Sentinels: "no verdict" and "invalid input". */
  const NONE := -1
  const ERROR := -99999

  const errorMessage := "Not a valid value"

  /** The four features of a State, compared field by field. */
  datatype StateValue = StateValue(orientation: int, displacement: int, goal: int, fast: int)

  /** The array update reads: one integer per feature, in position order. */
  function Encode(v: StateValue): (a: seq<int>)
    ensures |a| == NUMATTRIBUTES
  {
    [v.orientation, v.displacement, v.goal, v.fast]
  }

  /** The value update gives a State: the first four integers, verbatim. */
  function Decode(a: seq<int>): (v: StateValue)
    requires |a| >= NUMATTRIBUTES
    ensures Encode(v) == a[..NUMATTRIBUTES]
  {
    StateValue(a[POSORIENTATION], a[POSDISPLACEMENT], a[POSGOAL], a[POSFAST])
  }

  /** Decoding undoes encoding. */
  lemma DecodeEncode(v: StateValue)
    ensures Decode(Encode(v)) == v
  {
  }

  /**
   * Two arrays decode to equal states exactly when their first four
   * integers agree, so distinct generator tuples give unequal states.
   */
  lemma DecodeEqualIff(a: seq<int>, b: seq<int>)
    requires |a| >= NUMATTRIBUTES && |b| >= NUMATTRIBUTES
    ensures Decode(a) == Decode(b) <==> a[..NUMATTRIBUTES] == b[..NUMATTRIBUTES]
  {
  }

  /** The sentinels never collide with a zone or flag value. */
  lemma SentinelsAreNotFeatureValues(v: int)
    requires 0 <= v < NUMZONEVALUES || v == FALSE || v == TRUE
    ensures v != NONE && v != ERROR
  {
  }

  class State {
    var orientation: int
    var displacement: int
    var goal: int
    var fast: int

    /** The features as a value. */
    function Value(): StateValue
      reads this
    {
      StateValue(orientation, displacement, goal, fast)
    }

    /** A state with every feature 0. */
    constructor ()
      ensures Value() == StateValue(0, 0, 0, 0)
    {
      orientation, displacement, goal, fast := 0, 0, 0, 0;
    }

    /** A copy: equal to the original, and a separate object. */
    constructor Copy(obj: State)
      ensures Value() == obj.Value()
      ensures Equals(obj)
    {
      orientation := obj.orientation;
      displacement := obj.displacement;
      goal := obj.goal;
      fast := obj.fast;
    }

    /** A state built from an array, as update reads it. */
    constructor FromArray(a: seq<int>)
      requires |a| >= NUMATTRIBUTES
      ensures Value() == Decode(a)
    {
      new;
      Update(a);
    }

    /** Overwrites every feature from the array. */
    method Update(a: seq<int>)
      requires |a| >= NUMATTRIBUTES
      modifies this
      ensures Value() == Decode(a)
    {
      orientation := a[POSORIENTATION];
      displacement := a[POSDISPLACEMENT];
      goal := a[POSGOAL];
      fast := a[POSFAST];
    }

    /** equals: all four features agree. */
    predicate Equals(other: State)
      reads this, other
      ensures Equals(other) <==> Value() == other.Value()
    {
      && orientation == other.orientation
      && displacement == other.displacement
      && goal == other.goal
      && fast == other.fast
    }
  }

  /** The text of a flag: "true", "false", or the error message for any other integer. */
  function BooleanToString(value: int): (s: string)
    ensures value == TRUE ==> s == "true"
    ensures value == FALSE ==> s == "false"
    ensures value != TRUE && value != FALSE ==> s == errorMessage
  {
    if value == TRUE then "true"
    else if value == FALSE then "false"
    else errorMessage
  }

  /** The two flag values read differently, and neither reads as the error message. */
  lemma BooleanNamesAreDistinct(u: int, v: int)
    requires (u == FALSE || u == TRUE) && (v == FALSE || v == TRUE) && u != v
    ensures BooleanToString(u) != BooleanToString(v)
    ensures BooleanToString(u) != errorMessage
  {
  }
}
