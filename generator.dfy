/**
 * StateGenerator of the first agent generation (GVG_AI): the list of every
 * six-feature State, built as the product angles x angles x {EAST, WEST} x
 * {NORTH, SOUTH} x flags x flags with the first feature varying fastest.
 *
 * The flag codes FALSE and TRUE that generate names are not declared by
 * the six-feature State; they are taken as 0 and 1 here, so that update
 * reads them as false and true.
 */
module Generator {
  import opened Combinations
  import opened States

  const FALSE := 0
  const TRUE := 1

  const anglesValues: seq<int> := [ANGLE0, ANGLE45, ANGLE90, ANGLE135, ANGLE180, ANGLE225, ANGLE270, ANGLE315]
  const compassEWValues: seq<int> := [EAST, WEST]
  const compassNSValues: seq<int> := [NORTH, SOUTH]
  const booleanValues: seq<int> := [FALSE, TRUE]

  /** The domain of each array position, in position order. */
  const domains: seq<seq<int>> :=
    [anglesValues, anglesValues, compassEWValues, compassNSValues, booleanValues, booleanValues]

  /** The state update gives from each tuple, in order. */
  function StatesOf(combStates: seq<seq<int>>): seq<StateValue>
    requires forall i :: 0 <= i < |combStates| ==> |combStates[i]| >= 6
  {
    seq(|combStates|, i requires 0 <= i < |combStates| => Decode(combStates[i]))
  }

  /** The states generate lists, in order. */
  function Space(): (r: seq<StateValue>)
    ensures |r| == |Enum(domains)|
  {
    var combs := Enum(domains);
    assert forall i :: 0 <= i < |combs| ==> |combs[i]| >= 6 by {
      forall i | 0 <= i < |combs|
        ensures |combs[i]| >= 6
      {
        EnumTuple(domains, i);
      }
    }
    StatesOf(combs)
  }

  /** toStates: one State per tuple, built by update, in the tuples' order. */
  method ToStates(combStates: seq<seq<int>>) returns (output: seq<StateValue>)
    requires forall i :: 0 <= i < |combStates| ==> |combStates[i]| >= 6
    ensures output == StatesOf(combStates)
  {
    output := [];
    var indexArray := 0;
    while indexArray < |combStates|
      invariant 0 <= indexArray <= |combStates|
      invariant output == StatesOf(combStates[..indexArray])
    {
      output := output + [Decode(combStates[indexArray])];
      indexArray := indexArray + 1;
    }
    assert combStates[..|combStates|] == combStates;
  }

  /** generate: angle pairs from combnk, then each further feature in turn. */
  method Generate() returns (states: seq<StateValue>)
    ensures states == Space()
  {
    var combStates := Combnk(2, anglesValues);
    assert Repeat(anglesValues, 2) == [anglesValues, anglesValues];
    combStates := AddIntegerToCombination(combStates, compassEWValues);
    EnumSnoc([anglesValues, anglesValues], compassEWValues);
    assert [anglesValues, anglesValues] + [compassEWValues] == [anglesValues, anglesValues, compassEWValues];
    combStates := AddIntegerToCombination(combStates, compassNSValues);
    EnumSnoc([anglesValues, anglesValues, compassEWValues], compassNSValues);
    assert [anglesValues, anglesValues, compassEWValues] + [compassNSValues]
        == [anglesValues, anglesValues, compassEWValues, compassNSValues];
    combStates := AddIntegerToCombination(combStates, booleanValues);
    EnumSnoc([anglesValues, anglesValues, compassEWValues, compassNSValues], booleanValues);
    assert [anglesValues, anglesValues, compassEWValues, compassNSValues] + [booleanValues]
        == [anglesValues, anglesValues, compassEWValues, compassNSValues, booleanValues];
    combStates := AddIntegerToCombination(combStates, booleanValues);
    EnumSnoc([anglesValues, anglesValues, compassEWValues, compassNSValues, booleanValues], booleanValues);
    assert domains == [anglesValues, anglesValues, compassEWValues, compassNSValues, booleanValues] + [booleanValues];
    forall i | 0 <= i < |combStates|
      ensures |combStates[i]| >= 6
    {
      EnumTuple(domains, i);
    }
    states := ToStates(combStates);
  }

  /** The number of tuples over the first k domains. */
  lemma Radices()
    ensures Radix(domains[..1]) == 8 && Radix(domains[..2]) == 64 && Radix(domains[..3]) == 128
    ensures Radix(domains[..4]) == 256 && Radix(domains[..5]) == 512 && Radix(domains) == 1024
  {
    assert domains[..0] == [];
    RadixPrefix(domains, 0);
    RadixPrefix(domains, 1);
    RadixPrefix(domains, 2);
    RadixPrefix(domains, 3);
    RadixPrefix(domains, 4);
    RadixPrefix(domains, 5);
    assert domains[..6] == domains;
  }

  /** 8 * 8 * 2 * 2 * 2 * 2 = 1024 states. */
  lemma SpaceSize()
    ensures |Space()| == 1024
  {
    Radices();
  }

  /** The mixed-radix index over the six domains. */
  lemma IndexFormula(ps: seq<int>)
    requires Positions(ps, domains)
    ensures Index(ps, domains) == ps[0] + 8 * ps[1] + 64 * ps[2] + 128 * ps[3] + 256 * ps[4] + 512 * ps[5]
  {
    Radices();
    assert ps[..0] == [] && domains[..0] == [];
    IndexPrefix(ps, domains, 0);
    IndexPrefix(ps, domains, 1);
    IndexPrefix(ps, domains, 2);
    IndexPrefix(ps, domains, 3);
    IndexPrefix(ps, domains, 4);
    IndexPrefix(ps, domains, 5);
    assert ps[..6] == ps && domains[..6] == domains;
  }

  /**
   * The state taking the values at positions p0..p5 of the six domains sits
   * at p0 + 8 p1 + 64 p2 + 128 p3 + 256 p4 + 512 p5.
   */
  lemma SpaceAt(p0: int, p1: int, p2: int, p3: int, p4: int, p5: int)
    requires 0 <= p0 < 8 && 0 <= p1 < 8 && 0 <= p2 < 2 && 0 <= p3 < 2 && 0 <= p4 < 2 && 0 <= p5 < 2
    ensures p0 + 8 * p1 + 64 * p2 + 128 * p3 + 256 * p4 + 512 * p5 < |Space()|
    ensures Space()[p0 + 8 * p1 + 64 * p2 + 128 * p3 + 256 * p4 + 512 * p5]
         == StateValue(anglesValues[p0], anglesValues[p1], compassEWValues[p2], compassNSValues[p3], p4 == 1, p5 == 1)
  {
    var ps := [p0, p1, p2, p3, p4, p5];
    assert Positions(ps, domains);
    IndexFormula(ps);
    EnumAt(domains, ps);
    var t := Pick(ps, domains);
    assert t[4] == booleanValues[p4] && t[5] == booleanValues[p5];
  }

  /**
   * A state is generated exactly when its angles are angle codes and its
   * compass features are an east-west and a north-south code; both flags
   * take both values.
   */
  lemma SpaceMembers(v: StateValue)
    ensures v in Space() <==>
      v.orientation in anglesValues && v.displacement in anglesValues &&
      v.compassEW in compassEWValues && v.compassNS in compassNSValues
  {
    var combs := Enum(domains);
    if v in Space() {
      var i :| 0 <= i < |Space()| && Space()[i] == v;
      EnumTuple(domains, i);
    }
    if v.orientation in anglesValues && v.displacement in anglesValues &&
       v.compassEW in compassEWValues && v.compassNS in compassNSValues {
      var t := [v.orientation, v.displacement, v.compassEW, v.compassNS,
                if v.danger then TRUE else FALSE, if v.fast then TRUE else FALSE];
      assert IsTupleOf(t, domains);
      EnumMembership(domains, t);
      var i :| 0 <= i < |combs| && combs[i] == t;
      assert Space()[i] == Decode(t) == v;
    }
  }

  /** On tuples of the domains, update loses nothing: different tuples give different states. */
  lemma DecodeSeparates(a: seq<int>, b: seq<int>)
    requires IsTupleOf(a, domains) && IsTupleOf(b, domains) && a != b
    ensures Decode(a) != Decode(b)
  {
    DecodeEqualIff(a, b);
    assert a == a[..4] + [a[4], a[5]] && b == b[..4] + [b[4], b[5]];
    assert a[4] in booleanValues && a[5] in booleanValues && b[4] in booleanValues && b[5] in booleanValues;
  }

  /** No state is generated twice, so every state has a single Q-table row. */
  lemma SpaceDistinct()
    ensures Distinct(Space())
  {
    var combs := Enum(domains);
    assert forall k :: 0 <= k < |domains| ==> Distinct(domains[k]);
    EnumDistinct(domains);
    forall i, j | 0 <= i < j < |Space()|
      ensures Space()[i] != Space()[j]
    {
      EnumTuple(domains, i);
      EnumTuple(domains, j);
      DecodeSeparates(combs[i], combs[j]);
    }
  }
}
