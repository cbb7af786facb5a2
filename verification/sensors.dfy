/** Observation shapes of the RL agent's sensors (src/simulate/assets/sensors.py):
    the state-sensor property table, the normalisation of the `properties`
    argument, and the observation dimension of state and raycast sensors. */
module Sensors {
  import opened Wrappers

  /** The number of scalar features each state-sensor property contributes. */
  const StatePropertyFeatures: map<string, nat> := map[
    "position" := 3,
    "position.x" := 1,
    "position.y" := 1,
    "position.z" := 1,
    "velocity" := 3,
    "velocity.x" := 1,
    "velocity.y" := 1,
    "velocity.z" := 1,
    "rotation" := 3,
    "rotation.x" := 1,
    "rotation.y" := 1,
    "rotation.z" := 1,
    "angular_velocity" := 3,
    "angular_velocity.x" := 1,
    "angular_velocity.y" := 1,
    "angular_velocity.z" := 1,
    "distance" := 1
  ]

  /** The properties that are whole 3-vectors. */
  const VectorProperties: set<string> := {"position", "velocity", "rotation", "angular_velocity"}

  /** The exceptions of this module: the ValueError raised at construction for
      an unknown name in a property list, and the KeyError the table lookup
      raises when the observation space is computed. */
  datatype SensorError = InvalidProperties(properties: seq<string>) | UnknownProperty(name: string)

  predicate Allowed(name: string) {
    name in StatePropertyFeatures
  }

  predicate AllAllowed(props: seq<string>) {
    forall i :: 0 <= i < |props| ==> Allowed(props[i])
  }

  /** Vectors weigh three features; every axis component and `distance`
      weighs one. */
  lemma FeatureWeights()
    ensures VectorProperties <= StatePropertyFeatures.Keys
    ensures forall name :: Allowed(name) ==>
              StatePropertyFeatures[name] == (if name in VectorProperties then 3 else 1)
  {
  }

  /** The number of features of a property list, as the lookup loop computes
      it: the sum of the table weights, or a KeyError for the first name that
      is not in the table. */
  function FeatureCount(props: seq<string>): (r: Result<nat, SensorError>)
    ensures r.Ok? <==> AllAllowed(props)
    ensures r.Ok? ==> |props| <= r.value <= 3 * |props|
    ensures r.Err? ==> exists i :: 0 <= i < |props| && r.error == UnknownProperty(props[i])
                                   && !Allowed(props[i]) && AllAllowed(props[..i])
  {
    if |props| == 0 then
      Ok(0)
    else if !Allowed(props[0]) then
      assert AllAllowed(props[..0]);
      Err(UnknownProperty(props[0]))
    else
      match FeatureCount(props[1..])
      case Err(e) =>
        ghost var i :| 0 <= i < |props[1..]| && e == UnknownProperty(props[1..][i])
                       && !Allowed(props[1..][i]) && AllAllowed(props[1..][..i]);
        assert props[..i + 1] == [props[0]] + props[1..][..i];
        Err(e)
      case Ok(rest) =>
        assert StatePropertyFeatures[props[0]] <= 3 by { FeatureWeights(); }
        Ok(StatePropertyFeatures[props[0]] + rest)
  }

  /** The sum over a concatenation is the sum of the sums; the first unknown
      name of the concatenation is the first unknown name of the first list
      that has one. */
  lemma {:induction false} FeatureCountAppend(a: seq<string>, b: seq<string>)
    ensures AllAllowed(a) && AllAllowed(b) ==>
              FeatureCount(a + b) == Ok(FeatureCount(a).value + FeatureCount(b).value)
    ensures FeatureCount(a).Err? ==> FeatureCount(a + b) == FeatureCount(a)
    ensures FeatureCount(a).Ok? && FeatureCount(b).Err? ==> FeatureCount(a + b) == FeatureCount(b)
  {
    if |a| == 0 {
      assert a + b == b;
    } else {
      assert (a + b)[0] == a[0];
      assert (a + b)[1..] == a[1..] + b;
      FeatureCountAppend(a[1..], b);
    }
  }

  /** Taking one entry out of a list: the list has a feature count exactly when
      the entry is allowed and the rest has one, and the entry's weight is
      added to the rest's count. */
  lemma FeatureCountRemove(s: seq<string>, k: nat)
    requires k < |s|
    ensures var rest := s[..k] + s[k + 1..];
            && (FeatureCount(s).Ok? <==> Allowed(s[k]) && FeatureCount(rest).Ok?)
            && (FeatureCount(s).Ok? ==>
                  FeatureCount(s).value == StatePropertyFeatures[s[k]] + FeatureCount(rest).value)
  {
    assert s == s[..k] + [s[k]] + s[k + 1..];
    FeatureCountAppend(s[..k], [s[k]]);
    FeatureCountAppend(s[..k] + [s[k]], s[k + 1..]);
    FeatureCountAppend(s[..k], s[k + 1..]);
    assert [s[k]][1..] == [];
  }

  lemma MultisetRemove(a: seq<string>, b: seq<string>, k: nat)
    requires |a| > 0 && k < |b| && b[k] == a[0]
    requires multiset(a) == multiset(b)
    ensures multiset(a[1..]) == multiset(b[..k] + b[k + 1..])
  {
    assert a == [a[0]] + a[1..];
    assert b == b[..k] + [b[k]] + b[k + 1..];
    assert multiset(a[1..]) == multiset(a) - multiset{a[0]};
    assert multiset(b[..k] + b[k + 1..]) == multiset(b) - multiset{b[k]};
  }

  /** Reordering the property list does not change the observation dimension. */
  lemma {:induction false} FeatureCountPermutation(a: seq<string>, b: seq<string>)
    requires multiset(a) == multiset(b)
    ensures FeatureCount(a).Ok? <==> FeatureCount(b).Ok?
    ensures FeatureCount(a).Ok? ==> FeatureCount(a).value == FeatureCount(b).value
    decreases |a|
  {
    if |a| > 0 {
      assert a[0] in multiset(b);
      var k :| 0 <= k < |b| && b[k] == a[0];
      MultisetRemove(a, b, k);
      FeatureCountPermutation(a[1..], b[..k] + b[k + 1..]);
      FeatureCountRemove(a, 0);
      assert a[..0] + a[1..] == a[1..];
      FeatureCountRemove(b, k);
    } else {
      assert b == [];
    }
  }

  /** How many entries of the list name whole vectors. */
  function VectorCount(props: seq<string>): (r: nat)
    ensures r <= |props|
  {
    if |props| == 0 then 0
    else (if props[0] in VectorProperties then 1 else 0) + VectorCount(props[1..])
  }

  /** Vectors contribute three features and every component and `distance`
      one, so the dimension is the list length plus twice the vector count. */
  lemma {:induction false} FeatureCountByKind(props: seq<string>)
    requires AllAllowed(props)
    ensures FeatureCount(props) == Ok(|props| + 2 * VectorCount(props))
  {
    if |props| > 0 {
      FeatureWeights();
      FeatureCountByKind(props[1..]);
    }
  }

  /** `get_state_sensor_n_properties`: the accumulation loop over the list. */
  method CountFeatures(props: seq<string>) returns (r: Result<nat, SensorError>)
    ensures r == FeatureCount(props)
  {
    var n: nat := 0;
    var i := 0;
    while i < |props|
      invariant 0 <= i <= |props|
      invariant FeatureCount(props[..i]) == Ok(n)
    {
      if !Allowed(props[i]) {
        FeatureCountAppend(props[..i], props[i..]);
        assert props[..i] + props[i..] == props;
        return Err(UnknownProperty(props[i]));
      }
      FeatureCountAppend(props[..i], [props[i]]);
      assert props[..i] + [props[i]] == props[..i + 1];
      n := n + StatePropertyFeatures[props[i]];
      i := i + 1;
    }
    assert props[..i] == props;
    r := Ok(n);
  }

  /** The `properties` argument as the caller passes it: omitted (`None`), a
      list or tuple of names, or any single other value. A non-string value
      behaves as a name outside the table when it is hashable. */
  datatype PropertiesArg = Omitted | PropertyList(names: seq<string>) | SingleValue(name: string)

  const DefaultProperties: seq<string> := ["distance"]

  /** The property normalisation of `StateSensor.__post_init__`: the default
      list, wrapping of a single value (with no membership check), and the
      rejection of a list holding an unknown name. */
  function NormaliseProperties(arg: PropertiesArg): (r: Result<seq<string>, SensorError>)
    ensures arg.Omitted? ==> r == Ok(DefaultProperties)
    ensures arg.SingleValue? ==> r == Ok([arg.name])
    ensures arg.PropertyList? ==> (r.Ok? <==> AllAllowed(arg.names))
    ensures arg.PropertyList? && r.Ok? ==> r.value == arg.names
    ensures arg.PropertyList? && r.Err? ==> r.error == InvalidProperties(arg.names)
  {
    match arg
    case Omitted => Ok(DefaultProperties)
    case SingleValue(name) => Ok([name])
    case PropertyList(names) =>
      if exists i :: 0 <= i < |names| && !Allowed(names[i]) then Err(InvalidProperties(names))
      else Ok(names)
  }

  /** A state sensor: two entity references and its normalised property list. */
  datatype StateSensor<E> = StateSensor(target: Option<E>, reference: Option<E>,
                                        properties: seq<string>, sensorTag: string)

  const StateSensorTag: string := "StateSensor"

  function NewStateSensor<E>(target: Option<E>, reference: Option<E>, properties: PropertiesArg)
    : (r: Result<StateSensor<E>, SensorError>)
    ensures r.Ok? <==> NormaliseProperties(properties).Ok?
    ensures r.Ok? ==> r.value == StateSensor(target, reference, NormaliseProperties(properties).value, StateSensorTag)
    ensures r.Err? ==> r.error == NormaliseProperties(properties).error
  {
    var props :- NormaliseProperties(properties);
    Ok(StateSensor(target, reference, props, StateSensorTag))
  }

  /** The shape of the state sensor's observation space: one axis whose length
      is the feature count of its properties. */
  function StateObservationShape<E>(s: StateSensor<E>): (r: Result<seq<nat>, SensorError>)
    ensures r.Ok? <==> AllAllowed(s.properties)
    ensures r.Ok? ==> |r.value| == 1 && Ok(r.value[0]) == FeatureCount(s.properties)
    ensures r.Err? ==> r.error == FeatureCount(s.properties).error
  {
    var n :- FeatureCount(s.properties);
    Ok([n])
  }

  /** Omitting `properties` gives the single `distance` feature. */
  lemma DefaultStateSensor<E>(target: Option<E>, reference: Option<E>)
    ensures NewStateSensor(target, reference, Omitted).Ok?
    ensures NewStateSensor(target, reference, Omitted).value.properties == ["distance"]
    ensures StateObservationShape(NewStateSensor(target, reference, Omitted).value) == Ok([1])
  {
  }

  /** A sensor built from a list (or from the default) always has an
      observation space; a single value is accepted unchecked, and an unknown
      one only fails later, when the observation space is computed. */
  lemma ConstructionDecidesShape<E>(target: Option<E>, reference: Option<E>, properties: PropertiesArg)
    ensures !properties.SingleValue? && NewStateSensor(target, reference, properties).Ok? ==>
              StateObservationShape(NewStateSensor(target, reference, properties).value).Ok?
    ensures properties.SingleValue? ==>
              && NewStateSensor(target, reference, properties).Ok?
              && (StateObservationShape(NewStateSensor(target, reference, properties).value).Ok?
                  <==> Allowed(properties.name))
    ensures properties.SingleValue? && !Allowed(properties.name) ==>
              StateObservationShape(NewStateSensor(target, reference, properties).value)
              == Err(UnknownProperty(properties.name))
  {
    if properties.SingleValue? {
      assert [properties.name][..0] == [];
    }
  }

  /** A raycast sensor's ray grid and field of view. */
  datatype RaycastSensor = RaycastSensor(nHorizontalRays: int, nVerticalRays: int, horizontalFov: real,
                                         verticalFov: real, rayLength: real, sensorTag: string)

  const DefaultRaycastSensor: RaycastSensor := RaycastSensor(1, 1, 0.0, 0.0, 100.0, "RaycastSensor")

  /** The shape of the raycast sensor's observation space: a single axis with
      one entry per ray, so for non-negative counts its length is the size of
      the ray grid. */
  function RaycastObservationShape(s: RaycastSensor): (r: seq<int>)
    ensures r == [s.nHorizontalRays * s.nVerticalRays]
    ensures s.nHorizontalRays >= 0 && s.nVerticalRays >= 0 ==>
              r[0] == |RayGrid(s.nHorizontalRays, s.nVerticalRays)|
  {
    assert s.nHorizontalRays >= 0 && s.nVerticalRays >= 0 ==>
             |RayGrid(s.nHorizontalRays, s.nVerticalRays)| == s.nHorizontalRays * s.nVerticalRays by {
      if s.nHorizontalRays >= 0 && s.nVerticalRays >= 0 {
        RayGridLength(s.nHorizontalRays, s.nVerticalRays);
      }
    }
    [s.nHorizontalRays * s.nVerticalRays]
  }

  /** The rays of an h-by-v grid as (horizontal, vertical) index pairs. The
      enumeration order is this model's own convention; only which pairs
      occur, and how many entries there are, is meant. */
  function RayGrid(h: nat, v: nat): seq<(nat, nat)>
  {
    if h == 0 then [] else RayGrid(h - 1, v) + seq(v, j requires 0 <= j < v => (h - 1, j))
  }

  lemma {:induction false} RayGridLength(h: nat, v: nat)
    ensures |RayGrid(h, v)| == h * v
  {
    if h > 0 {
      RayGridLength(h - 1, v);
      assert h * v == (h - 1) * v + v;
    }
  }

  /** The grid holds exactly the in-range index pairs. */
  lemma {:induction false} RayGridMembers(h: nat, v: nat)
    ensures forall p: (nat, nat) :: p in RayGrid(h, v) <==> p.0 < h && p.1 < v
  {
    if h > 0 {
      RayGridMembers(h - 1, v);
      var g: seq<(nat, nat)> := RayGrid(h - 1, v);
      var row: seq<(nat, nat)> := seq(v, j requires 0 <= j < v => (h - 1, j));
      assert RayGrid(h, v) == g + row;
      forall p: (nat, nat)
        ensures p in row <==> p.0 == h - 1 && p.1 < v
      {
        if p.0 == h - 1 && p.1 < v {
          assert row[p.1] == p;
        }
      }
    }
  }

  /** The raycast observation has one entry per ray of the grid, and the grid
      holds every (horizontal, vertical) index pair in range and nothing else. */
  lemma RaycastShapeCountsRays(s: RaycastSensor)
    requires s.nHorizontalRays >= 0 && s.nVerticalRays >= 0
    ensures RaycastObservationShape(s) == [|RayGrid(s.nHorizontalRays, s.nVerticalRays)|]
    ensures forall p: (nat, nat) :: p in RayGrid(s.nHorizontalRays, s.nVerticalRays) <==>
              p.0 < s.nHorizontalRays && p.1 < s.nVerticalRays
  {
    RayGridMembers(s.nHorizontalRays, s.nVerticalRays);
  }

  /** With the default single horizontal and vertical ray the shape is `[1]`. */
  lemma DefaultRaycastShape()
    ensures RaycastObservationShape(DefaultRaycastSensor) == [1]
  {
  }
}
