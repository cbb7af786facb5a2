/** The transform components of a scene asset (src/simenv/assets/asset.py).
    Each setter takes the asset class's dimensionality and an optional Python
    sequence and either stores a tuple or raises. Tuples are `seq<real>`. */
module Assets {
  import opened Wrappers
  import opened Quaternions

  /** The exceptions the setters raise. `NotIterable` is the TypeError that
      `tuple(None)` raises when the dimensionality is neither 2 nor 3. */
  datatype AssetError = ValueError(message: string) | NotImplementedError | NotIterable

  const TranslationSizeMessage: string := "Translation should be of size 3 (X, Y, Z)"
  const RotationSizeMessage: string := "Rotation should be of size 3 (Euler angles) or 4 (Quaternions"
  const ScaleSizeMessage: string := "Scale should be of size 1 (Uniform scale) or 3 (X, Y, Z)"

  /** The dimensionality of `Asset` and of `World3D`. */
  const Dimensionality3D: int := 3

  /** The value `tuple(value)` stores when no branch applies. */
  function StoreAsIs(value: Option<seq<real>>): Result<seq<real>, AssetError> {
    match value
    case Some(v) => Ok(v)
    case None => Err(NotIterable)
  }

  /** The `translation` setter. */
  function Translation(dim: int, value: Option<seq<real>>): (r: Result<seq<real>, AssetError>)
    ensures dim == 2 ==> r == Err(NotImplementedError)
    ensures dim == 3 && value.None? ==> r == Ok([0.0, 0.0, 0.0])
    ensures dim == 3 && value.Some? ==>
              (r.Ok? <==> |value.value| == 3)
              && (r.Ok? ==> r.value == value.value)
              && (r.Err? ==> r.error == ValueError(TranslationSizeMessage))
  {
    if dim == 3 then
      match value
      case None => Ok([0.0, 0.0, 0.0])
      case Some(v) => if |v| != 3 then Err(ValueError(TranslationSizeMessage)) else Ok(v)
    else if dim == 2 then
      Err(NotImplementedError)
    else
      StoreAsIs(value)
  }

  /** The `rotation` setter: Euler angles (radians) are converted, a quaternion
      is stored without renormalisation, and the default is all zeros. */
  function Rotation(dim: int, value: Option<seq<real>>, trig: Trig): (r: Result<seq<real>, AssetError>)
    ensures dim == 2 ==> r == Err(NotImplementedError)
    ensures dim == 3 && value.None? ==> r == Ok([0.0, 0.0, 0.0, 0.0])
    ensures dim == 3 && value.Some? ==>
              (r.Ok? <==> |value.value| in {3, 4})
              && (|value.value| == 3 ==>
                    r == Ok(QuatFromEuler(trig, value.value[0], value.value[1], value.value[2]).Components()))
              && (|value.value| == 4 ==> r == Ok(value.value))
              && (r.Err? ==> r.error == ValueError(RotationSizeMessage))
    ensures dim == 3 && r.Ok? ==> |r.value| == 4
  {
    if dim == 3 then
      match value
      case None => Ok([0.0, 0.0, 0.0, 0.0])
      case Some(v) =>
        if |v| == 3 then Ok(QuatFromEuler(trig, v[0], v[1], v[2]).Components())
        else if |v| != 4 then Err(ValueError(RotationSizeMessage))
        else Ok(v)
    else if dim == 2 then
      Err(NotImplementedError)
    else
      StoreAsIs(value)
  }

  /** A stored scale entry: a number, or the whole supplied list, which is what
      the uniform-scale branch of the source stores. */
  datatype ScaleEntry = Number(x: real) | Nested(items: seq<real>)

  function Numbers(v: seq<real>): seq<ScaleEntry> {
    seq(|v|, i requires 0 <= i < |v| => Number(v[i]))
  }

  /** The `scale` setter as written: a length-1 input `value` is replaced by
      `[value, value, value]`, a triple of lists. */
  function ScaleAsWritten(dim: int, value: Option<seq<real>>): (r: Result<seq<ScaleEntry>, AssetError>)
    ensures dim == 2 ==> r == Err(NotImplementedError)
    ensures dim == 3 && value.Some? && |value.value| == 1 ==>
              r == Ok([Nested(value.value), Nested(value.value), Nested(value.value)])
  {
    if dim == 3 then
      match value
      case None => Ok(Numbers([1.0, 1.0, 1.0]))
      case Some(v) =>
        if |v| == 1 then Ok([Nested(v), Nested(v), Nested(v)])
        else if |v| != 3 then Err(ValueError(ScaleSizeMessage))
        else Ok(Numbers(v))
    else if dim == 2 then
      Err(NotImplementedError)
    else
      match value
      case Some(v) => Ok(Numbers(v))
      case None => Err(NotIterable)
  }

  /** The `scale` setter with the uniform scale broadcast to all three axes. */
  function Scale(dim: int, value: Option<seq<real>>): (r: Result<seq<real>, AssetError>)
    ensures dim == 2 ==> r == Err(NotImplementedError)
    ensures dim == 3 && value.None? ==> r == Ok([1.0, 1.0, 1.0])
    ensures dim == 3 && value.Some? ==>
              (r.Ok? <==> |value.value| in {1, 3})
              && (|value.value| == 1 ==> r == Ok([value.value[0], value.value[0], value.value[0]]))
              && (|value.value| == 3 ==> r == Ok(value.value))
              && (r.Err? ==> r.error == ValueError(ScaleSizeMessage))
    ensures dim == 3 && r.Ok? ==> |r.value| == 3
  {
    if dim == 3 then
      match value
      case None => Ok([1.0, 1.0, 1.0])
      case Some(v) =>
        if |v| == 1 then Ok([v[0], v[0], v[0]])
        else if |v| != 3 then Err(ValueError(ScaleSizeMessage))
        else Ok(v)
    else if dim == 2 then
      Err(NotImplementedError)
    else
      StoreAsIs(value)
  }

  /** `name or self.__class__.__name__`: a missing or empty name falls back
      to the class name. */
  function AssetName(name: Option<string>, className: string): (r: string)
    ensures name.Some? && name.value != "" ==> r == name.value
    ensures name.None? || name.value == "" ==> r == className
    ensures r == "" ==> className == ""
  {
    match name
    case Some(n) => if n != "" then n else className
    case None => className
  }

  /** The state `Asset.__init__` leaves behind, without identifier and tree links. */
  datatype Asset = Asset(name: string, translation: seq<real>, rotation: seq<real>, scale: seq<real>)

  /** A 3-D transform: three translation components, a four-component
      quaternion and three scale factors. */
  predicate WellShaped(a: Asset) {
    |a.translation| == 3 && |a.rotation| == 4 && |a.scale| == 3
  }

  /** `Asset.__init__`: the name default, then the translation, rotation and
      scale setters in that order, so the first failing setter's exception is
      the one raised. */
  function NewAsset(dim: int, className: string, name: Option<string>,
                    translation: Option<seq<real>>, rotation: Option<seq<real>>,
                    scale: Option<seq<real>>, trig: Trig): (r: Result<Asset, AssetError>)
    ensures r.Ok? <==> Translation(dim, translation).Ok? && Rotation(dim, rotation, trig).Ok?
                       && Scale(dim, scale).Ok?
    ensures Translation(dim, translation).Err? ==> r == Translation(dim, translation).PropagateFailure()
    ensures Translation(dim, translation).Ok? && Rotation(dim, rotation, trig).Err? ==>
              r == Rotation(dim, rotation, trig).PropagateFailure()
    ensures Translation(dim, translation).Ok? && Rotation(dim, rotation, trig).Ok? && Scale(dim, scale).Err? ==>
              r == Scale(dim, scale).PropagateFailure()
    ensures r.Ok? ==> r.value == Asset(AssetName(name, className), Translation(dim, translation).value,
                                       Rotation(dim, rotation, trig).value, Scale(dim, scale).value)
    ensures r.Ok? && dim == 3 ==> WellShaped(r.value)
    ensures dim == 2 ==> r == Err(NotImplementedError)
  {
    var t :- Translation(dim, translation);
    var q :- Rotation(dim, rotation, trig);
    var s :- Scale(dim, scale);
    Ok(Asset(AssetName(name, className), t, q, s))
  }

  /** Reading a component back and assigning it again stores the same value:
      in 3-D every setter is idempotent on what it stored. */
  lemma SettersIdempotent(value: Option<seq<real>>, trig: Trig)
    ensures Translation(3, value).Ok? ==>
              Translation(3, Some(Translation(3, value).value)) == Translation(3, value)
    ensures Rotation(3, value, trig).Ok? ==>
              Rotation(3, Some(Rotation(3, value, trig).value), trig) == Rotation(3, value, trig)
    ensures Scale(3, value).Ok? ==> Scale(3, Some(Scale(3, value).value)) == Scale(3, value)
  {
  }

  /** In 3-D, defaults fill every component: translation at the origin, an
      all-zero quaternion (not the identity), unit scale. */
  lemma DefaultTransform(className: string, trig: Trig)
    ensures NewAsset(3, className, None, None, None, None, trig)
            == Ok(Asset(className, [0.0, 0.0, 0.0], [0.0, 0.0, 0.0, 0.0], [1.0, 1.0, 1.0]))
  {
  }

  /** Converted Euler angles always give a unit quaternion, while the default
      rotation has norm zero. */
  lemma RotationNorm(v: seq<real>, trig: Trig)
    requires Pythagorean(trig)
    requires |v| == 3
    ensures var q := Rotation(3, Some(v), trig).value;
            q[0] * q[0] + q[1] * q[1] + q[2] * q[2] + q[3] * q[3] == 1.0
    ensures var q := Rotation(3, None, trig).value;
            q[0] * q[0] + q[1] * q[1] + q[2] * q[2] + q[3] * q[3] == 0.0
  {
  }

  /** The as-written scale setter does not broadcast: for input `[s]` it stores
      three copies of the list `[s]`, never the number `s`. */
  lemma ScaleAsWrittenNestsUniform(s: real)
    ensures ScaleAsWritten(3, Some([s])).Ok?
    ensures forall i :: 0 <= i < 3 ==> ScaleAsWritten(3, Some([s])).value[i] != Number(s)
    ensures Scale(3, Some([s])) == Ok([s, s, s])
  {
  }

  /** Outside the uniform branch the as-written and corrected scale setters
      agree entry for entry. */
  lemma ScaleAgreesOffUniform(dim: int, value: Option<seq<real>>)
    requires !(dim == 3 && value.Some? && |value.value| == 1)
    ensures ScaleAsWritten(dim, value).Ok? <==> Scale(dim, value).Ok?
    ensures Scale(dim, value).Ok? ==> ScaleAsWritten(dim, value).value == Numbers(Scale(dim, value).value)
    ensures Scale(dim, value).Err? ==> ScaleAsWritten(dim, value).error == Scale(dim, value).error
  {
  }
}
