/**
 * The four-feature state that the first AgentState (which extends it) and
 * the GVG_AI_V1 generators build: orientation and displacement zones, one
 * compass code and a fast flag, all integers.
 *
 * The class declaring these constants is not part of this model: the
 * AgentState and the V1 generators name them but their values are not
 * shown. The values chosen here keep every code of one feature distinct
 * and keep the sentinels NONE and ERROR apart from all of them. They also
 * make the zone codes the range 0..4, each equal to its own position, and
 * the compass codes the range 0..3 with NORTH at 0, as the GVG_AI State
 * has it; IsZone, IsCompass and the V1 generator rely on these choices.
 */
module ZoneStates {

  const NUMATTRIBUTES := 4
  const POSORIENTATION := 0
  const POSDISPLACEMENT := 1
  const POSCOMPASS := 2
  const POSFAST := 3

  /** Zone codes for orientation and displacement. */
  const CENTRALGREENZONE := 0
  const LEFTGREENZONE := 1
  const RIGHTGREENZONE := 2
  const LEFTREDZONE := 3
  const RIGHTREDZONE := 4
  const NUMZONEVALUES := 5

  /** Compass codes. */
  const NORTH := 0
  const SOUTH := 1
  const EAST := 2
  const WEST := 3
  const NUMCOMPASSVALUES := 4

  /** Flag codes. */
  const FALSE := 0
  const TRUE := 1
  const NUMBOOLEANVALUES := 2

  /** Sentinels: "no verdict" and "invalid input". */
  const NONE := -1
  const ERROR := -99999

  /** The four features, compared field by field. */
  datatype ZoneState = ZoneState(orientation: int, displacement: int, compass: int, fast: int)

  predicate IsZone(v: int)
  {
    CENTRALGREENZONE <= v <= RIGHTREDZONE
  }

  predicate IsCompass(v: int)
  {
    NORTH <= v <= WEST
  }

  predicate IsFlag(v: int)
  {
    v == FALSE || v == TRUE
  }

  /** Every feature holds one of its codes. */
  predicate InZoneSpace(s: ZoneState)
  {
    IsZone(s.orientation) && IsZone(s.displacement) && IsCompass(s.compass) && IsFlag(s.fast)
  }

  /** The array update reads: one integer per feature, in position order. */
  function Encode(s: ZoneState): (a: seq<int>)
    ensures |a| == NUMATTRIBUTES
  {
    [s.orientation, s.displacement, s.compass, s.fast]
  }

  /** The state update gives from an array: its first four integers, verbatim. */
  function Decode(a: seq<int>): (s: ZoneState)
    requires |a| >= NUMATTRIBUTES
    ensures Encode(s) == a[..NUMATTRIBUTES]
  {
    ZoneState(a[POSORIENTATION], a[POSDISPLACEMENT], a[POSCOMPASS], a[POSFAST])
  }

  /** Decoding undoes encoding. */
  lemma DecodeEncode(s: ZoneState)
    ensures Decode(Encode(s)) == s
  {
  }

  /** The sentinels are never a feature code. */
  lemma SentinelsAreNotCodes(v: int)
    requires IsZone(v) || IsCompass(v) || IsFlag(v)
    ensures v != NONE && v != ERROR
  {
  }
}
