/**
 * StateGenerator of the second agent generation (GVG_AI_V1): the list of
 * every zone state, built as the product zones x zones x compass codes x
 * flags with the first feature varying fastest. VectorStateGenerator of the
 * same generation is the same code over ScalarState, a class with the same
 * four features; it is modelled by this module too.
 */
module GeneratorV1 {
  import opened Combinations
  import opened ZoneStates

  const zoneValues: seq<int> := [CENTRALGREENZONE, LEFTGREENZONE, RIGHTGREENZONE, LEFTREDZONE, RIGHTREDZONE]
  const compassValues: seq<int> := [NORTH, SOUTH, EAST, WEST]
  const booleanValues: seq<int> := [FALSE, TRUE]

  /** The domain of each array position, in position order. */
  const domains: seq<seq<int>> := [zoneValues, zoneValues, compassValues, booleanValues]

  /** The state update gives from each tuple, in order. */
  function StatesOf(combStates: seq<seq<int>>): seq<ZoneState>
    requires forall i :: 0 <= i < |combStates| ==> |combStates[i]| >= NUMATTRIBUTES
  {
    seq(|combStates|, i requires 0 <= i < |combStates| => Decode(combStates[i]))
  }

  /** The states generate lists, in order. */
  function Space(): (r: seq<ZoneState>)
    ensures |r| == |Enum(domains)|
  {
    var combs := Enum(domains);
    assert forall i :: 0 <= i < |combs| ==> |combs[i]| >= NUMATTRIBUTES by {
      forall i | 0 <= i < |combs|
        ensures |combs[i]| >= NUMATTRIBUTES
      {
        EnumTuple(domains, i);
      }
    }
    StatesOf(combs)
  }

  /** toStates: one State per tuple, built by update, in the tuples' order. */
  method ToStates(combStates: seq<seq<int>>) returns (output: seq<ZoneState>)
    requires forall i :: 0 <= i < |combStates| ==> |combStates[i]| >= NUMATTRIBUTES
    ensures output == StatesOf(combStates)
  {
    output := [];
    var indexArray := 0;
    while indexArray < |combStates|
      invariant 0 <= indexArray <= |combStates|
      invariant output == StatesOf(combStates[..indexArray])
    {
      output := output + [Decode(combStates[indexArray])];
      indexArray := indexArray + 1;
    }
    assert combStates[..|combStates|] == combStates;
  }

  /** generate: zone pairs from combnk, then the compass and the fast flag. */
  method Generate() returns (states: seq<ZoneState>)
    ensures states == Space()
  {
    var combStates := Combnk(2, zoneValues);
    assert Repeat(zoneValues, 2) == [zoneValues, zoneValues];
    combStates := AddIntegerToCombination(combStates, compassValues);
    EnumSnoc([zoneValues, zoneValues], compassValues);
    assert [zoneValues, zoneValues] + [compassValues] == [zoneValues, zoneValues, compassValues];
    combStates := AddIntegerToCombination(combStates, booleanValues);
    EnumSnoc([zoneValues, zoneValues, compassValues], booleanValues);
    assert domains == [zoneValues, zoneValues, compassValues] + [booleanValues];
    forall i | 0 <= i < |combStates|
      ensures |combStates[i]| >= NUMATTRIBUTES
    {
      EnumTuple(domains, i);
    }
    states := ToStates(combStates);
  }

  /** The number of tuples over the first k domains. */
  lemma Radices()
    ensures Radix(domains[..1]) == 5 && Radix(domains[..2]) == 25 && Radix(domains[..3]) == 100
    ensures Radix(domains) == 200
  {
    assert domains[..0] == [];
    RadixPrefix(domains, 0);
    RadixPrefix(domains, 1);
    RadixPrefix(domains, 2);
    RadixPrefix(domains, 3);
    assert domains[..4] == domains;
  }

  /** 5 * 5 * 4 * 2 = 200 states. */
  lemma SpaceSize()
    ensures |Space()| == 200
  {
    Radices();
  }

  /** The mixed-radix index over the four domains. */
  lemma IndexFormula(ps: seq<int>)
    requires Positions(ps, domains)
    ensures Index(ps, domains) == ps[0] + 5 * ps[1] + 25 * ps[2] + 100 * ps[3]
  {
    Radices();
    assert ps[..0] == [] && domains[..0] == [];
    IndexPrefix(ps, domains, 0);
    IndexPrefix(ps, domains, 1);
    IndexPrefix(ps, domains, 2);
    IndexPrefix(ps, domains, 3);
    assert ps[..4] == ps && domains[..4] == domains;
  }

  /**
   * The state taking the values at positions p0..p3 of the four domains
   * sits at p0 + 5 p1 + 25 p2 + 100 p3.
   */
  lemma SpaceAt(p0: int, p1: int, p2: int, p3: int)
    requires 0 <= p0 < 5 && 0 <= p1 < 5 && 0 <= p2 < 4 && 0 <= p3 < 2
    ensures p0 + 5 * p1 + 25 * p2 + 100 * p3 < |Space()|
    ensures Space()[p0 + 5 * p1 + 25 * p2 + 100 * p3]
         == ZoneState(zoneValues[p0], zoneValues[p1], compassValues[p2], booleanValues[p3])
  {
    var ps := [p0, p1, p2, p3];
    assert Positions(ps, domains);
    IndexFormula(ps);
    EnumAt(domains, ps);
  }

  /** Every generated state holds a code in every feature. */
  lemma SpaceOnlyCodes(i: int)
    requires 0 <= i < |Space()|
    ensures InZoneSpace(Space()[i])
  {
    EnumTuple(domains, i);
    var t := Enum(domains)[i];
    assert t[0] in zoneValues && t[1] in zoneValues && t[2] in compassValues && t[3] in booleanValues;
  }

  /** Every state holding a code in every feature is generated. */
  lemma SpaceHasCodes(v: ZoneState)
    requires InZoneSpace(v)
    ensures v in Space()
  {
    var t := Encode(v);
    assert zoneValues[v.orientation] == v.orientation && zoneValues[v.displacement] == v.displacement;
    assert compassValues[v.compass] == v.compass && booleanValues[v.fast] == v.fast;
    assert IsTupleOf(t, domains);
    EnumMembership(domains, t);
    var combs := Enum(domains);
    var i :| 0 <= i < |combs| && combs[i] == t;
    assert Space()[i] == Decode(t);
  }

  /** A state is generated exactly when every feature holds one of its codes. */
  lemma SpaceMembers(v: ZoneState)
    ensures v in Space() <==> InZoneSpace(v)
  {
    if v in Space() {
      var i :| 0 <= i < |Space()| && Space()[i] == v;
      SpaceOnlyCodes(i);
    }
    if InZoneSpace(v) {
      SpaceHasCodes(v);
    }
  }

  /** No state is generated twice, so every state has a single Q-table row. */
  lemma SpaceDistinct()
    ensures Distinct(Space())
  {
    var combs := Enum(domains);
    assert forall k :: 0 <= k < |domains| ==> Distinct(domains[k]);
    EnumDistinct(domains);
    forall i, j | 0 <= i < j < |Space()|
      ensures Space()[i] != Space()[j]
    {
      EnumTuple(domains, i);
      EnumTuple(domains, j);
      var a, b := combs[i], combs[j];
      assert Encode(Decode(a)) == a[..NUMATTRIBUTES] == a;
      assert Encode(Decode(b)) == b[..NUMATTRIBUTES] == b;
    }
  }
}
