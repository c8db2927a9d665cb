/**
 * StateGenerator of the third agent generation (GVG_AI_V2): the list of
 * every State, built as the product regions x regions x flags x flags with
 * the first feature varying fastest. The region domain is filled by a loop
 * with the codes 0..NUMZONEVALUES-1. This generation has no filtering step.
 */
module GeneratorV2 {
  import opened Combinations
  import opened StatesV2

  const booleanValues: seq<int> := [FALSE, TRUE]

  /** The region codes 0, 1, ..., NUMZONEVALUES - 1. */
  function Regions(): (r: seq<int>)
    ensures |r| == NUMZONEVALUES && forall i :: 0 <= i < |r| ==> r[i] == i
  {
    seq(NUMZONEVALUES, i => i)
  }

  /** The domain of each array position, in position order. */
  function Domains(): seq<seq<int>>
  {
    [Regions(), Regions(), booleanValues, booleanValues]
  }

  /** The state update gives from each tuple, in order. */
  function StatesOf(combStates: seq<seq<int>>): seq<StateValue>
    requires forall i :: 0 <= i < |combStates| ==> |combStates[i]| >= NUMATTRIBUTES
  {
    seq(|combStates|, i requires 0 <= i < |combStates| => Decode(combStates[i]))
  }

  /** The states generate lists, in order. */
  function Space(): (r: seq<StateValue>)
    ensures |r| == |Enum(Domains())|
  {
    var combs := Enum(Domains());
    assert forall i :: 0 <= i < |combs| ==> |combs[i]| >= NUMATTRIBUTES by {
      forall i | 0 <= i < |combs|
        ensures |combs[i]| >= NUMATTRIBUTES
      {
        EnumTuple(Domains(), i);
      }
    }
    StatesOf(combs)
  }

  /** The loop that fills zoneValues: entry i holds i. */
  method ZoneValues() returns (zoneValues: seq<int>)
    ensures zoneValues == Regions()
  {
    zoneValues := [];
    var i := 0;
    while i < NUMZONEVALUES
      invariant 0 <= i <= NUMZONEVALUES
      invariant zoneValues == Regions()[..i]
    {
      zoneValues := zoneValues + [i];
      i := i + 1;
    }
  }

  /** toStates: one State per tuple, built by update, in the tuples' order. */
  method ToStates(combStates: seq<seq<int>>) returns (output: seq<StateValue>)
    requires forall i :: 0 <= i < |combStates| ==> |combStates[i]| >= NUMATTRIBUTES
    ensures output == StatesOf(combStates)
  {
    output := [];
    var indexArray := 0;
    while indexArray < |combStates|
      invariant 0 <= indexArray <= |combStates|
      invariant output == StatesOf(combStates[..indexArray])
    {
      output := output + [Decode(combStates[indexArray])];
      indexArray := indexArray + 1;
    }
    assert combStates[..|combStates|] == combStates;
  }

  /** generate: region pairs from combnk, then the goal and the fast flag. */
  method Generate() returns (states: seq<StateValue>)
    ensures states == Space()
  {
    var zoneValues := ZoneValues();
    var combStates := Combnk(2, zoneValues);
    assert Repeat(zoneValues, 2) == [zoneValues, zoneValues];
    combStates := AddIntegerToCombination(combStates, booleanValues);
    EnumSnoc([zoneValues, zoneValues], booleanValues);
    assert [zoneValues, zoneValues] + [booleanValues] == [zoneValues, zoneValues, booleanValues];
    combStates := AddIntegerToCombination(combStates, booleanValues);
    EnumSnoc([zoneValues, zoneValues, booleanValues], booleanValues);
    assert Domains() == [zoneValues, zoneValues, booleanValues] + [booleanValues];
    forall i | 0 <= i < |combStates|
      ensures |combStates[i]| >= NUMATTRIBUTES
    {
      EnumTuple(Domains(), i);
    }
    states := ToStates(combStates);
  }

  /** The number of tuples over the first k domains. */
  lemma Radices()
    ensures Radix(Domains()[..1]) == 10 && Radix(Domains()[..2]) == 100 && Radix(Domains()[..3]) == 200
    ensures Radix(Domains()) == 400
  {
    var ds := Domains();
    assert ds[..0] == [];
    RadixPrefix(ds, 0);
    RadixPrefix(ds, 1);
    RadixPrefix(ds, 2);
    RadixPrefix(ds, 3);
    assert ds[..4] == ds;
  }

  /** 10 * 10 * 2 * 2 = 400 states. */
  lemma SpaceSize()
    ensures |Space()| == 400
  {
    Radices();
  }

  /** The mixed-radix index over the four domains. */
  lemma IndexFormula(ps: seq<int>)
    requires Positions(ps, Domains())
    ensures Index(ps, Domains()) == ps[0] + 10 * ps[1] + 100 * ps[2] + 200 * ps[3]
  {
    var ds := Domains();
    Radices();
    assert ps[..0] == [] && ds[..0] == [];
    IndexPrefix(ps, ds, 0);
    IndexPrefix(ps, ds, 1);
    IndexPrefix(ps, ds, 2);
    IndexPrefix(ps, ds, 3);
    assert ps[..4] == ps && ds[..4] == ds;
  }

  /**
   * The state with regions o and d and flags g and f sits at
   * o + 10 d + 100 g + 200 f.
   */
  lemma SpaceAt(o: int, d: int, g: int, f: int)
    requires 0 <= o < NUMZONEVALUES && 0 <= d < NUMZONEVALUES && (g == FALSE || g == TRUE) && (f == FALSE || f == TRUE)
    ensures o + 10 * d + 100 * g + 200 * f < |Space()|
    ensures Space()[o + 10 * d + 100 * g + 200 * f] == StateValue(o, d, g, f)
  {
    var ps := [o, d, g, f];
    assert Positions(ps, Domains());
    IndexFormula(ps);
    EnumAt(Domains(), ps);
  }

  /** The states the third agent perceives: regions 0..9 and two flags. */
  predicate Perceivable(v: StateValue)
  {
    && 0 <= v.orientation < NUMZONEVALUES && 0 <= v.displacement < NUMZONEVALUES
    && (v.goal == FALSE || v.goal == TRUE) && (v.fast == FALSE || v.fast == TRUE)
  }

  /** Every generated state is perceivable. */
  lemma SpaceOnlyPerceivable(i: int)
    requires 0 <= i < |Space()|
    ensures Perceivable(Space()[i])
  {
    EnumTuple(Domains(), i);
    var t := Enum(Domains())[i];
    assert t[0] in Regions() && t[1] in Regions() && t[2] in booleanValues && t[3] in booleanValues;
  }

  /** Every perceivable state is generated. */
  lemma SpaceHasPerceivable(v: StateValue)
    requires Perceivable(v)
    ensures v in Space()
  {
    SpaceAt(v.orientation, v.displacement, v.goal, v.fast);
  }

  /** A state is generated exactly when it is perceivable. */
  lemma SpaceMembers(v: StateValue)
    ensures v in Space() <==> Perceivable(v)
  {
    if v in Space() {
      var i :| 0 <= i < |Space()| && Space()[i] == v;
      SpaceOnlyPerceivable(i);
    }
    if Perceivable(v) {
      SpaceHasPerceivable(v);
    }
  }

  /** No state is generated twice, so every state has a single Q-table row. */
  lemma SpaceDistinct()
    ensures Distinct(Space())
  {
    var combs := Enum(Domains());
    assert forall k :: 0 <= k < |Domains()| ==> Distinct(Domains()[k]);
    EnumDistinct(Domains());
    forall i, j | 0 <= i < j < |Space()|
      ensures Space()[i] != Space()[j]
    {
      EnumTuple(Domains(), i);
      EnumTuple(Domains(), j);
      var a, b := combs[i], combs[j];
      assert Encode(Decode(a)) == a[..NUMATTRIBUTES] == a;
      assert Encode(Decode(b)) == b[..NUMATTRIBUTES] == b;
    }
  }
}
