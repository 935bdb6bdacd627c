/** The scene builder of the renderer (`src/scene/scene_builder.rs`).

    The builder reads the JSON documents the converter writes (one block of
    tokens per `token_i` key, and their number under `length`) and walks
    the blocks in order. Each block's first token selects a directive, and
    the directive updates the builder's state: the current graphics state,
    the stack of saved graphics states, the named coordinate systems, the
    film and camera entities and the shapes to be turned into primitives.

    The specification half describes one builder state as the value
    `Builder` and every directive as a function from state to state, with
    every `panic!`, failed `assert_eq!` and `unwrap` on a missing value as
    an `Err`. The imperative half is the class `SceneBuilder`, whose
    methods update its fields as `parse_file` does and are proved to agree
    with those functions.

    Transforms are kept as the matrix expressions that built them: which
    matrices were multiplied, inverted or transposed, not the numbers. */
module Scene {
  import opened Wrappers
  import opened Json
  import PbrtParser

  // ---------------------------------------------------------------------
  // Vectors and transforms (`src/euclidean_space/transform.rs`)

  datatype Vector3 = Vector3(x: real, y: real, z: real)

  const Zero := Vector3(0.0, 0.0, 0.0)

  function Sub(a: Vector3, b: Vector3): Vector3
  {
    Vector3(a.x - b.x, a.y - b.y, a.z - b.z)
  }

  function Scaled(k: real, v: Vector3): Vector3
  {
    Vector3(k * v.x, k * v.y, k * v.z)
  }

  function Cross(a: Vector3, b: Vector3): Vector3
  {
    Vector3(a.y * b.z - a.z * b.y, a.z * b.x - a.x * b.z, a.x * b.y - a.y * b.x)
  }

  /** A 4×4 matrix, as the expression that built it. */
  datatype Matrix =
    | IdentityMatrix
    | Product(left: Matrix, right: Matrix)
    | Transposed(m: Matrix)
    | Inverted(m: Matrix)
    | TranslateMatrix(dx: real, dy: real, dz: real)
    | RotateMatrix(angle: real, ax: real, ay: real, az: real)
    | ScaleMatrix(sx: real, sy: real, sz: real)
      /** The matrix with `1/x`, `1/y`, `1/z` on its diagonal. */
    | InverseScaleMatrix(sx: real, sy: real, sz: real)
    | RowMajor(values: seq<real>)
      /** `world_from_camera` of `build_look_at_transform`. */
    | LookAtMatrix(pos: Vector3, look: Vector3, up: Vector3)
      /** The translation by the point the origin is mapped to by `m`. */
    | CameraTranslation(m: Matrix)
    | InverseCameraTranslation(m: Matrix)

  /** A transform carries its matrix and the inverse of that matrix. */
  datatype Transform = Transform(matrix: Matrix, invertedMatrix: Matrix)

  function Identity(): Transform
  {
    Transform(IdentityMatrix, IdentityMatrix)
  }

  /** `inverse`: the two matrices swap places. */
  function Inverse(t: Transform): Transform
  {
    Transform(t.invertedMatrix, t.matrix)
  }

  /** `impl Mul for Transform`: the inverse of a product is the product of
      the inverses in the opposite order. */
  function Mul(a: Transform, b: Transform): Transform
  {
    Transform(Product(a.matrix, b.matrix), Product(b.invertedMatrix, a.invertedMatrix))
  }

  function Transpose(t: Transform): Transform
  {
    Transform(Transposed(t.matrix), Transposed(t.invertedMatrix))
  }

  /** `Transform::new`: the inverse is computed from the matrix. */
  function FromMatrix(m: Matrix): Transform
  {
    Transform(m, Inverted(m))
  }

  function Translation(x: real, y: real, z: real): Transform
  {
    Transform(TranslateMatrix(x, y, z), TranslateMatrix(-x, -y, -z))
  }

  /** A rotation's inverse is its transpose. */
  function Rotation(angle: real, x: real, y: real, z: real): Transform
  {
    Transform(RotateMatrix(angle, x, y, z), Transposed(RotateMatrix(angle, x, y, z)))
  }

  function Scaling(x: real, y: real, z: real): Transform
  {
    Transform(ScaleMatrix(x, y, z), InverseScaleMatrix(x, y, z))
  }

  /** `build_look_at_transform`: camera-from-world, whose inverse is the
      world-from-camera matrix built from the three vectors. */
  function LookAtTransform(pos: Vector3, look: Vector3, up: Vector3): Transform
  {
    Transform(Inverted(LookAtMatrix(pos, look, up)), LookAtMatrix(pos, look, up))
  }

  /** The panic of `build_look_at_transform`: the normalised `up` crossed
      with the normalised viewing direction has length zero. Normalising a
      zero vector gives NaN, and a NaN length is not zero, so a zero `up` or
      a `look` equal to `pos` does not panic. */
  predicate Degenerate(pos: Vector3, look: Vector3, up: Vector3)
  {
    up != Zero && look != pos && Cross(up, Sub(look, pos)) == Zero
  }

  lemma InverseInvolutive(t: Transform)
    ensures Inverse(Inverse(t)) == t
  {
  }

  lemma InverseOfProduct(a: Transform, b: Transform)
    ensures Inverse(Mul(a, b)) == Mul(Inverse(b), Inverse(a))
  {
  }

  /** An `up` vector along the viewing direction makes `LookAt` panic. */
  lemma {:induction false} LookAtAlongUp(pos: Vector3, up: Vector3, k: real)
    requires up != Zero && k != 0.0
    ensures Degenerate(pos, Vector3(pos.x + k * up.x, pos.y + k * up.y, pos.z + k * up.z), up)
  {
    var look := Vector3(pos.x + k * up.x, pos.y + k * up.y, pos.z + k * up.z);
    var d := Sub(look, pos);
    assert d == Scaled(k, up);
    assert look != pos by {
      if up.x != 0.0 {
        assert k * up.x != 0.0;
      } else if up.y != 0.0 {
        assert k * up.y != 0.0;
      } else {
        assert up.z != 0.0;
        assert k * up.z != 0.0;
      }
    }
    assert up.y * (k * up.z) - up.z * (k * up.y) == 0.0;
    assert up.z * (k * up.x) - up.x * (k * up.z) == 0.0;
    assert up.x * (k * up.y) - up.y * (k * up.x) == 0.0;
  }

  // ---------------------------------------------------------------------
  // The builder's state

  /** `GraphicsState`: copied whole when pushed. */
  datatype GraphicsState = GraphicsState(currentTransform: Transform, reverseOrientation: bool)

  /** `GraphicsState::new`. */
  const InitialGraphicsState := GraphicsState(Identity(), false)

  /** `CameraTransform::new` with the camera-world rendering space. */
  datatype CameraTransform = CameraTransform(worldFromRender: Transform, renderFromCamera: Transform)

  function CameraWorld(worldFromCamera: Transform): CameraTransform
  {
    var worldFromRender := Transform(CameraTranslation(worldFromCamera.matrix),
                                     InverseCameraTranslation(worldFromCamera.matrix));
    CameraTransform(worldFromRender, Mul(Inverse(worldFromRender), worldFromCamera))
  }

  /** `SceneEntity`: the parameter list the entity's dictionary is built
      from; `None` stands for `CameraTransform::nan()`. */
  datatype SceneEntity = SceneEntity(initialized: bool, name: string, parameters: seq<Json>,
                                     cameraTransform: Option<CameraTransform>)

  const UnsetEntity := SceneEntity(false, "", [], None)

  /** A shape whose primitives `parse_shape` pushes: its name, its
      render-from-object transform, the orientation flag and its parameters. */
  datatype ShapeRecord = ShapeRecord(name: string, renderFromObject: Transform, reverseOrientation: bool,
                                     parameters: seq<Json>)

  /** The fields of `SceneBuilder`. */
  datatype Builder = Builder(
    graphicsState: GraphicsState,
    pushedGraphicsState: seq<GraphicsState>,
    namedCoordinateSystems: map<string, Transform>,
    renderFromWorld: Transform,
    shapes: seq<ShapeRecord>,
    film: SceneEntity,
    camera: SceneEntity)

  /** `SceneBuilder::default`. */
  const DefaultBuilder := Builder(InitialGraphicsState, [], map[], Identity(), [], UnsetEntity, UnsetEntity)

  const WorldName: string := "world"
  const CameraName: string := "camera"
  const RgbFilm: string := "rgb"

  // ---------------------------------------------------------------------
  // Directives

  /** The directives `parse_file` dispatches on. */
  datatype Directive =
    | AttributeBegin | AttributeEnd | Camera | CoordSysTransform | Film | Include | LookAt
    | Rotate | ReverseOrientation | PixelFilter | Scale | Shape | SetTransform | Translate
    | WorldBegin | AreaLightSource | Filter | Integrator | LightSource | Material
    | MakeNamedMaterial | NamedMaterial | Sampler | Texture | Unknown

  /** The name of each directive in a scene file. */
  function DirectiveName(d: Directive): string
  {
    match d
    case AttributeBegin => "AttributeBegin"
    case AttributeEnd => "AttributeEnd"
    case Camera => "Camera"
    case CoordSysTransform => "CoordSysTransform"
    case Film => "Film"
    case Include => "Include"
    case LookAt => "LookAt"
    case Rotate => "Rotate"
    case ReverseOrientation => "ReverseOrientation"
    case PixelFilter => "PixelFilter"
    case Scale => "Scale"
    case Shape => "Shape"
    case SetTransform => "Transform"
    case Translate => "Translate"
    case WorldBegin => "WorldBegin"
    case AreaLightSource => "AreaLightSource"
    case Filter => "Filter"
    case Integrator => "Integrator"
    case LightSource => "LightSource"
    case Material => "Material"
    case MakeNamedMaterial => "MakeNamedMaterial"
    case NamedMaterial => "NamedMaterial"
    case Sampler => "Sampler"
    case Texture => "Texture"
    case Unknown => ""
  }

  /** The `match first_token` of `parse_file`. */
  function DirectiveOf(t: string): (d: Directive)
    ensures d != Unknown ==> DirectiveName(d) == t
  {
    if t == "AttributeBegin" then AttributeBegin
    else if t == "AttributeEnd" then AttributeEnd
    else if t == "Camera" then Camera
    else if t == "CoordSysTransform" then CoordSysTransform
    else if t == "Film" then Film
    else if t == "Include" then Include
    else if t == "LookAt" then LookAt
    else if t == "Rotate" then Rotate
    else if t == "ReverseOrientation" then ReverseOrientation
    else if t == "PixelFilter" then PixelFilter
    else if t == "Scale" then Scale
    else if t == "Shape" then Shape
    else if t == "Transform" then SetTransform
    else if t == "Translate" then Translate
    else if t == "WorldBegin" then WorldBegin
    else if t == "AreaLightSource" then AreaLightSource
    else if t == "Filter" then Filter
    else if t == "Integrator" then Integrator
    else if t == "LightSource" then LightSource
    else if t == "Material" then Material
    else if t == "MakeNamedMaterial" then MakeNamedMaterial
    else if t == "NamedMaterial" then NamedMaterial
    else if t == "Sampler" then Sampler
    else if t == "Texture" then Texture
    else Unknown
  }

  /** Every directive is recognised by its own name. */
  lemma {:induction false} DirectiveNameRoundTrip(d: Directive)
    requires d != Unknown
    ensures DirectiveOf(DirectiveName(d)) == d
  {
    if d == AttributeBegin || d == AttributeEnd || d == Camera {
      NamesRecognisedFirst(d);
    } else if d == CoordSysTransform || d == Film || d == Include {
      NamesRecognisedSecond(d);
    } else if d == LookAt || d == Rotate || d == ReverseOrientation {
      NamesRecognisedThird(d);
    } else if d == PixelFilter || d == Scale || d == Shape {
      NamesRecognisedFourth(d);
    } else if d == SetTransform || d == Translate || d == WorldBegin {
      NamesRecognisedFifth(d);
    } else if d == AreaLightSource || d == Filter || d == Integrator {
      NamesRecognisedSixth(d);
    } else if d == LightSource || d == Material || d == MakeNamedMaterial {
      NamesRecognisedSeventh(d);
    } else {
      NamesRecognisedEighth(d);
    }
  }

  /** The round trip for directives `AttributeBegin`, `AttributeEnd`, `Camera`. */
  lemma {:induction false} NamesRecognisedFirst(d: Directive)
    requires d == AttributeBegin || d == AttributeEnd || d == Camera
    ensures DirectiveOf(DirectiveName(d)) == d
  {
  }

  /** The round trip for directives `CoordSysTransform`, `Film`, `Include`. */
  lemma {:induction false} NamesRecognisedSecond(d: Directive)
    requires d == CoordSysTransform || d == Film || d == Include
    ensures DirectiveOf(DirectiveName(d)) == d
  {
  }

  /** The round trip for directives `LookAt`, `Rotate`, `ReverseOrientation`. */
  lemma {:induction false} NamesRecognisedThird(d: Directive)
    requires d == LookAt || d == Rotate || d == ReverseOrientation
    ensures DirectiveOf(DirectiveName(d)) == d
  {
  }

  /** The round trip for directives `PixelFilter`, `Scale`, `Shape`. */
  lemma {:induction false} NamesRecognisedFourth(d: Directive)
    requires d == PixelFilter || d == Scale || d == Shape
    ensures DirectiveOf(DirectiveName(d)) == d
  {
  }

  /** The round trip for directives `Transform`, `Translate`, `WorldBegin`. */
  lemma {:induction false} NamesRecognisedFifth(d: Directive)
    requires d == SetTransform || d == Translate || d == WorldBegin
    ensures DirectiveOf(DirectiveName(d)) == d
  {
  }

  /** The round trip for directives `AreaLightSource`, `Filter`, `Integrator`. */
  lemma {:induction false} NamesRecognisedSixth(d: Directive)
    requires d == AreaLightSource || d == Filter || d == Integrator
    ensures DirectiveOf(DirectiveName(d)) == d
  {
  }

  /** The round trip for directives `LightSource`, `Material`, `MakeNamedMaterial`. */
  lemma {:induction false} NamesRecognisedSeventh(d: Directive)
    requires d == LightSource || d == Material || d == MakeNamedMaterial
    ensures DirectiveOf(DirectiveName(d)) == d
  {
  }

  /** The round trip for directives `NamedMaterial`, `Sampler`, `Texture`. */
  lemma {:induction false} NamesRecognisedEighth(d: Directive)
    requires d == NamedMaterial || d == Sampler || d == Texture
    ensures DirectiveOf(DirectiveName(d)) == d
  {
  }

  /** The directives `parse_file` accepts and leaves without effect. */
  predicate Ignored(d: Directive)
  {
    d == PixelFilter || d == AreaLightSource || d == Filter || d == Integrator || d == LightSource ||
    d == Material || d == MakeNamedMaterial || d == NamedMaterial || d == Sampler || d == Texture
  }

  /** The directives that change the current transform only. */
  predicate TransformDirective(d: Directive)
  {
    d == CoordSysTransform || d == LookAt || d == Rotate || d == Scale || d == SetTransform || d == Translate
  }

  // ---------------------------------------------------------------------
  // Errors

  /** The ways the builder stops: each a `panic!`, a failed `assert_eq!`,
      an out-of-range index or an `unwrap` of a missing value. */
  datatype BuildError =
    | MissingFile(path: string)
    | BadLength
    | BadBlock(index: nat)
    | EmptyBlock
    | NotText(value: Json)
    | NotAnArray(value: Json)
    | EmptyToken
    | NameMismatch(directive: Directive)
    | WrongTokenCount(directive: Directive, count: nat)
    | WrongValueCount(count: nat)
    | MissingArgument(directive: Directive)
    | BadFloat(text: string)
    | ParallelUp
    | UnknownCoordinateSystem(name: string)
    | UnmatchedAttributeEnd
    | UnknownShape(name: string)
    | UnknownToken(token: string)
    | IncludeTooDeep
    | NoFilm
    | NoCamera

  // ---------------------------------------------------------------------
  // Reading tokens

  /** `json_value_to_string`: the value must be a JSON string. */
  function Text(v: Json): (r: Result<string, BuildError>)
    ensures r.Ok? <==> v.JStr?
    ensures r.Ok? ==> v == JStr(r.value)
    ensures r.Err? ==> r.error == NotText(v)
  {
    match v
    case JStr(s) => Ok(s)
    case _ => Err(NotText(v))
  }

  /** `trim_quote(json_value_to_string(tokens[0]))`: the block must have a
      first token, it must be a string, and `trim_quote` panics on an empty
      one. */
  function FirstToken(tokens: seq<Json>): (r: Result<string, BuildError>)
    ensures r.Ok? <==> |tokens| > 0 && tokens[0].JStr? && |tokens[0].s| > 0
    ensures r.Ok? ==> r.value == PbrtParser.TrimQuote(tokens[0].s)
  {
    if |tokens| == 0 then Err(EmptyBlock)
    else match Text(tokens[0])
      case Err(e) => Err(e)
      case Ok(s) => if |s| == 0 then Err(EmptyToken) else Ok(PbrtParser.TrimQuote(s))
  }

  /** One number of a transform directive: a string, unquoted, then parsed
      by `float` (`str::parse::<Float>`). */
  function FloatOf(v: Json, float: string -> Option<real>): Result<real, BuildError>
  {
    match Text(v)
    case Err(e) => Err(e)
    case Ok(s) =>
      if |s| == 0 then Err(EmptyToken)
      else match float(PbrtParser.TrimQuote(s))
        case None => Err(BadFloat(PbrtParser.TrimQuote(s)))
        case Some(x) => Ok(x)
  }

  /** All the numbers of `values` in order, or the failure of the first
      that is not one. */
  function Floats(values: seq<Json>, float: string -> Option<real>): (r: Result<seq<real>, BuildError>)
    ensures r.Ok? ==> |r.value| == |values| &&
                      forall i :: 0 <= i < |values| ==> FloatOf(values[i], float) == Ok(r.value[i])
    decreases |values|
  {
    if |values| == 0 then Ok([])
    else
      var n := |values| - 1;
      var init := values[..n];
      assert forall i :: 0 <= i < n ==> init[i] == values[i];
      match Floats(init, float)
      case Err(e) => Err(e)
      case Ok(xs) =>
        match FloatOf(values[n], float)
        case Err(e) => Err(e)
        case Ok(x) => Ok(xs + [x])
  }

  /** A failure is the failure of the first value that is not a number. */
  lemma {:induction false} FloatsFailure(values: seq<Json>, float: string -> Option<real>)
    requires Floats(values, float).Err?
    ensures exists i :: 0 <= i < |values| && FloatOf(values[i], float) == Err(Floats(values, float).error) &&
                        forall j :: 0 <= j < i ==> FloatOf(values[j], float).Ok?
    decreases |values|
  {
    var n := |values| - 1;
    var init := values[..n];
    if Floats(init, float).Err? {
      FloatsFailure(init, float);
      var i :| 0 <= i < |init| && FloatOf(init[i], float) == Err(Floats(init, float).error) &&
               forall j :: 0 <= j < i ==> FloatOf(init[j], float).Ok?;
      assert values[i] == init[i];
      assert forall j :: 0 <= j < i ==> values[j] == init[j];
    } else {
      var xs := Floats(init, float).value;
      assert forall j :: 0 <= j < n ==> FloatOf(values[j], float) == FloatOf(init[j], float);
      assert FloatOf(values[n], float) == Err(Floats(values, float).error);
    }
  }

  /** A failure among the first `k` values is the failure of the whole list. */
  lemma {:induction false} FloatsPrefixFailure(values: seq<Json>, k: nat, float: string -> Option<real>)
    requires k <= |values| && Floats(values[..k], float).Err?
    ensures Floats(values, float) == Floats(values[..k], float)
    decreases |values|
  {
    if k < |values| {
      var n := |values| - 1;
      assert values[..n][..k] == values[..k];
      FloatsPrefixFailure(values[..n], k, float);
      assert Floats(values[..n], float).Err?;
    } else {
      assert values[..k] == values;
    }
  }

  // ---------------------------------------------------------------------
  // The directives as functions of the builder's state

  /** `parse_camera`: the current transform is camera-from-world; its
      inverse is recorded as the `camera` coordinate system and becomes the
      camera's world-from-camera transform. */
  function CameraStep(b: Builder, tokens: seq<Json>, first: string): Result<Builder, BuildError>
    requires |tokens| > 0
  {
    if tokens[0] != JStr(first) then Err(NameMismatch(Camera))
    else if |tokens| < 2 then Err(MissingArgument(Camera))
    else match Text(tokens[1])
      case Err(e) => Err(e)
      case Ok(name) =>
        var cameraFromWorld := b.graphicsState.currentTransform;
        var cameraTransform := CameraWorld(Inverse(cameraFromWorld));
        Ok(b.(namedCoordinateSystems := b.namedCoordinateSystems[CameraName := Inverse(cameraFromWorld)],
              renderFromWorld := Inverse(cameraTransform.worldFromRender),
              camera := SceneEntity(true, name, tokens[2..], Some(cameraTransform))))
  }

  /** `parse_coord_sys_transform`: the current transform becomes the named
      coordinate system, which must have been recorded. */
  function CoordSysStep(b: Builder, tokens: seq<Json>, first: string): Result<Builder, BuildError>
    requires |tokens| > 0
  {
    if tokens[0] != JStr(first) then Err(NameMismatch(CoordSysTransform))
    else if |tokens| < 2 then Err(MissingArgument(CoordSysTransform))
    else match Text(tokens[1])
      case Err(e) => Err(e)
      case Ok(name) =>
        if name !in b.namedCoordinateSystems then Err(UnknownCoordinateSystem(name))
        else Ok(b.(graphicsState := b.graphicsState.(currentTransform := b.namedCoordinateSystems[name])))
  }

  /** `parse_film`: only the `rgb` film exists, whatever the name given. */
  function FilmStep(b: Builder, tokens: seq<Json>, first: string): Result<Builder, BuildError>
    requires |tokens| > 0
  {
    if tokens[0] != JStr(first) then Err(NameMismatch(Film))
    else if |tokens| < 2 then Err(MissingArgument(Film))
    else match Text(tokens[1])
      case Err(e) => Err(e)
      case Ok(_) => Ok(b.(film := SceneEntity(true, RgbFilm, tokens[2..], b.film.cameraTransform)))
  }

  /** `parse_look_at`: nine numbers, the look-at transform composed on the
      right of the current one. */
  function LookAtStep(b: Builder, tokens: seq<Json>, first: string, float: string -> Option<real>): Result<Builder, BuildError>
    requires |tokens| > 0
  {
    if tokens[0] != JStr(first) then Err(NameMismatch(LookAt))
    else if |tokens| != 10 then Err(WrongTokenCount(LookAt, |tokens|))
    else match Floats(tokens[1..], float)
      case Err(e) => Err(e)
      case Ok(d) =>
        var pos := Vector3(d[0], d[1], d[2]);
        var look := Vector3(d[3], d[4], d[5]);
        var up := Vector3(d[6], d[7], d[8]);
        if Degenerate(pos, look, up) then Err(ParallelUp)
        else Ok(b.(graphicsState := b.graphicsState.(currentTransform :=
                   Mul(b.graphicsState.currentTransform, LookAtTransform(pos, look, up)))))
  }

  /** `parse_rotate`: five tokens (angle and axis), composed on the right. */
  function RotateStep(b: Builder, tokens: seq<Json>, first: string, float: string -> Option<real>): Result<Builder, BuildError>
    requires |tokens| > 0
  {
    if |tokens| != 5 then Err(WrongTokenCount(Rotate, |tokens|))
    else if tokens[0] != JStr(first) then Err(NameMismatch(Rotate))
    else match Floats(tokens[1..], float)
      case Err(e) => Err(e)
      case Ok(f) =>
        Ok(b.(graphicsState := b.graphicsState.(currentTransform :=
              Mul(b.graphicsState.currentTransform, Rotation(f[0], f[1], f[2], f[3])))))
  }

  /** `parse_scale`: four tokens, composed on the right. */
  function ScaleStep(b: Builder, tokens: seq<Json>, first: string, float: string -> Option<real>): Result<Builder, BuildError>
    requires |tokens| > 0
  {
    if |tokens| != 4 then Err(WrongTokenCount(Scale, |tokens|))
    else if tokens[0] != JStr(first) then Err(NameMismatch(Scale))
    else match Floats(tokens[1..], float)
      case Err(e) => Err(e)
      case Ok(f) =>
        Ok(b.(graphicsState := b.graphicsState.(currentTransform :=
              Mul(b.graphicsState.currentTransform, Scaling(f[0], f[1], f[2])))))
  }

  /** `parse_translate`: four tokens, composed on the right. */
  function TranslateStep(b: Builder, tokens: seq<Json>, first: string, float: string -> Option<real>): Result<Builder, BuildError>
    requires |tokens| > 0
  {
    if |tokens| != 4 then Err(WrongTokenCount(Translate, |tokens|))
    else if tokens[0] != JStr(first) then Err(NameMismatch(Translate))
    else match Floats(tokens[1..], float)
      case Err(e) => Err(e)
      case Ok(f) =>
        Ok(b.(graphicsState := b.graphicsState.(currentTransform :=
              Mul(b.graphicsState.currentTransform, Translation(f[0], f[1], f[2])))))
  }

  /** `parse_transform`: one list of sixteen numbers, read row by row and
      transposed; it replaces the current transform. */
  function SetTransformStep(b: Builder, tokens: seq<Json>, first: string, float: string -> Option<real>): Result<Builder, BuildError>
    requires |tokens| > 0
  {
    if |tokens| != 2 then Err(WrongTokenCount(SetTransform, |tokens|))
    else if tokens[0] != JStr(first) then Err(NameMismatch(SetTransform))
    else if !tokens[1].JArr? then Err(NotAnArray(tokens[1]))
    else match Floats(tokens[1].items, float)
      case Err(e) => Err(e)
      case Ok(values) =>
        if |values| != 16 then Err(WrongValueCount(|values|))
        else Ok(b.(graphicsState := b.graphicsState.(currentTransform := Transpose(FromMatrix(RowMajor(values))))))
  }

  /** The shapes `parse_shape` knows besides `disk`, which it skips. */
  predicate BuiltShape(name: string)
  {
    name == "loopsubdiv" || name == "sphere" || name == "trianglemesh" || name == "plymesh"
  }

  /** `render_from_object`. */
  function RenderFromObject(b: Builder): Transform
  {
    Mul(b.renderFromWorld, b.graphicsState.currentTransform)
  }

  /** `parse_shape`: a known shape is recorded with the transform and
      orientation in force; `disk` is skipped; any other name panics. */
  function ShapeStep(b: Builder, tokens: seq<Json>, first: string): Result<Builder, BuildError>
    requires |tokens| > 0
  {
    if tokens[0] != JStr(first) then Err(NameMismatch(Shape))
    else if |tokens| < 2 then Err(MissingArgument(Shape))
    else match Text(tokens[1])
      case Err(e) => Err(e)
      case Ok(name) =>
        if name == "disk" then Ok(b)
        else if BuiltShape(name) then
          Ok(b.(shapes := b.shapes + [ShapeRecord(name, RenderFromObject(b), b.graphicsState.reverseOrientation, tokens[2..])]))
        else Err(UnknownShape(name))
  }

  /** `AttributeBegin`: a copy of the graphics state is pushed. */
  function PushStep(b: Builder): Builder
  {
    b.(pushedGraphicsState := b.pushedGraphicsState + [b.graphicsState])
  }

  /** `AttributeEnd`: the last state pushed is popped and restored; an
      empty stack panics. */
  function PopStep(b: Builder): Result<Builder, BuildError>
  {
    var stack := b.pushedGraphicsState;
    if |stack| == 0 then Err(UnmatchedAttributeEnd)
    else Ok(b.(graphicsState := stack[|stack| - 1], pushedGraphicsState := stack[..|stack| - 1]))
  }

  /** `ReverseOrientation`. */
  function ReverseStep(b: Builder): Builder
  {
    b.(graphicsState := b.graphicsState.(reverseOrientation := !b.graphicsState.reverseOrientation))
  }

  /** `WorldBegin`: the identity becomes the current transform and the
      `world` coordinate system. */
  function WorldBeginStep(b: Builder): Builder
  {
    b.(graphicsState := b.graphicsState.(currentTransform := Identity()),
       namedCoordinateSystems := b.namedCoordinateSystems[WorldName := Identity()])
  }

  /** `Include`: exactly one path, relative to `root`, parsed as a file
      into the same builder. */
  function IncludeStep(b: Builder, tokens: seq<Json>, root: string, files: map<string, Json>,
                       float: string -> Option<real>, fuel: nat): Result<Builder, BuildError>
    decreases fuel, 0, 0
  {
    if |tokens| != 2 then Err(WrongTokenCount(Include, |tokens|))
    else match Text(tokens[1])
      case Err(e) => Err(e)
      case Ok(included) =>
        if fuel == 0 then Err(IncludeTooDeep)
        else RunFile(b, JoinPath(root, included), root, files, float, fuel - 1)
  }

  /** `format!("{}/{}", root, included_path)`. */
  function JoinPath(root: string, path: string): string
  {
    root + "/" + path
  }

  /** One block of `parse_file`. `files` holds the JSON documents by path,
      `float` parses numbers, and `fuel` bounds the depth of `Include`s. */
  function Apply(b: Builder, tokens: seq<Json>, root: string, files: map<string, Json>,
                 float: string -> Option<real>, fuel: nat): Result<Builder, BuildError>
    decreases fuel, 0, 1
  {
    match FirstToken(tokens)
    case Err(e) => Err(e)
    case Ok(first) =>
      if DirectiveOf(first) == Include then IncludeStep(b, tokens, root, files, float, fuel)
      else Step(b, DirectiveOf(first), tokens, first, float)
  }

  /** One block of any directive `d` but `Include`, whose first token is
      `first`. */
  function Step(b: Builder, d: Directive, tokens: seq<Json>, first: string,
                float: string -> Option<real>): Result<Builder, BuildError>
    requires |tokens| > 0 && d != Include
  {
    match d
    case AttributeBegin => Ok(PushStep(b))
    case AttributeEnd => PopStep(b)
    case Camera => CameraStep(b, tokens, first)
    case CoordSysTransform => CoordSysStep(b, tokens, first)
    case Film => FilmStep(b, tokens, first)
    case LookAt => LookAtStep(b, tokens, first, float)
    case Rotate => RotateStep(b, tokens, first, float)
    case ReverseOrientation => Ok(ReverseStep(b))
    case Scale => ScaleStep(b, tokens, first, float)
    case Shape => ShapeStep(b, tokens, first)
    case SetTransform => SetTransformStep(b, tokens, first, float)
    case Translate => TranslateStep(b, tokens, first, float)
    case WorldBegin => Ok(WorldBeginStep(b))
    case Unknown => Err(UnknownToken(first))
    case _ => Ok(b)
  }

  /** `blocks["length"]` read as a `usize`. */
  function BlockCount(doc: Json): Result<nat, BuildError>
  {
    if doc.JObj? && PbrtParser.LengthKey in doc.fields && doc.fields[PbrtParser.LengthKey].JNum?
    then Ok(doc.fields[PbrtParser.LengthKey].n)
    else Err(BadLength)
  }

  /** `blocks["token_{idx}"].as_array().unwrap()`. */
  function BlockAt(doc: Json, idx: nat): Result<seq<Json>, BuildError>
  {
    if doc.JObj? && PbrtParser.TokenKey(idx) in doc.fields && doc.fields[PbrtParser.TokenKey(idx)].JArr?
    then Ok(doc.fields[PbrtParser.TokenKey(idx)].items)
    else Err(BadBlock(idx))
  }

  /** `parse_file` from block `idx` on. */
  function RunBlocks(b: Builder, doc: Json, idx: nat, n: nat, root: string, files: map<string, Json>,
                     float: string -> Option<real>, fuel: nat): Result<Builder, BuildError>
    decreases fuel, 1, n - idx
  {
    if idx >= n then Ok(b)
    else match BlockAt(doc, idx)
      case Err(e) => Err(e)
      case Ok(tokens) =>
        match Apply(b, tokens, root, files, float, fuel)
        case Err(e) => Err(e)
        case Ok(next) => RunBlocks(next, doc, idx + 1, n, root, files, float, fuel)
  }

  /** `parse_file`: the document at `path`, all its blocks in order. */
  function RunFile(b: Builder, path: string, root: string, files: map<string, Json>,
                   float: string -> Option<real>, fuel: nat): Result<Builder, BuildError>
    decreases fuel, 2, 0
  {
    if path !in files then Err(MissingFile(path))
    else match BlockCount(files[path])
      case Err(e) => Err(e)
      case Ok(n) => RunBlocks(b, files[path], 0, n, root, files, float, fuel)
  }

  /** `parse_scene` up to the building of the renderer: the file is parsed
      and then a film and a camera must have been declared. */
  function SceneOf(b: Builder, path: string, root: string, files: map<string, Json>,
                   float: string -> Option<real>, fuel: nat): Result<Builder, BuildError>
  {
    match RunFile(b, path, root, files, float, fuel)
    case Err(e) => Err(e)
    case Ok(parsed) =>
      if !parsed.film.initialized then Err(NoFilm)
      else if !parsed.camera.initialized then Err(NoCamera)
      else Ok(parsed)
  }

  /** `r` reports the outcome `spec`, and on success `now` is its state. */
  predicate Agrees(r: Result<(), BuildError>, now: Builder, spec: Result<Builder, BuildError>)
  {
    (r.Ok? <==> spec.Ok?) && (r.Err? ==> r.error == spec.error) && (spec.Ok? ==> now == spec.value)
  }

  // ---------------------------------------------------------------------
  // Properties of the directives

  /** The directives that change the current graphics state only. */
  predicate GraphicsOnly(d: Directive)
  {
    TransformDirective(d) || d == ReverseOrientation
  }

  /** A transform directive or `ReverseOrientation` leaves everything but
      the current graphics state as it was; a transform directive also
      keeps the orientation flag. */
  lemma {:induction false} GraphicsOnlyKeepsTheRest(b: Builder, d: Directive, tokens: seq<Json>, first: string,
                                                   float: string -> Option<real>)
    requires |tokens| > 0 && GraphicsOnly(d) && Step(b, d, tokens, first, float).Ok?
    ensures var after := Step(b, d, tokens, first, float).value;
            after == b.(graphicsState := after.graphicsState) &&
            (d != ReverseOrientation ==> after.graphicsState.reverseOrientation == b.graphicsState.reverseOrientation)
  {
    match d
    case CoordSysTransform =>
    case LookAt =>
    case Rotate =>
    case Scale =>
    case SetTransform =>
    case Translate =>
    case ReverseOrientation =>
  }

  /** `AttributeEnd` pops what the matching `AttributeBegin` pushed: once the
      stack is back to what the push left, the graphics state saved there is
      restored and the stack is as before the push. */
  lemma {:induction false} AttributeEndRestores(b: Builder, later: Builder)
    requires later.pushedGraphicsState == PushStep(b).pushedGraphicsState
    ensures PopStep(later) == Ok(later.(graphicsState := b.graphicsState, pushedGraphicsState := b.pushedGraphicsState))
  {
    var stack := later.pushedGraphicsState;
    assert stack[..|stack| - 1] == b.pushedGraphicsState;
  }

  /** `AttributeEnd` panics exactly when nothing was pushed. */
  lemma {:induction false} UnmatchedAttributeEndPanics(b: Builder)
    ensures PopStep(b) == Err(UnmatchedAttributeEnd) <==> |b.pushedGraphicsState| == 0
  {
  }

  /** `AttributeBegin`, one directive that changes only the graphics state,
      then `AttributeEnd` leave the builder as it was. */
  lemma {:induction false} AttributeScope(b: Builder, begin: seq<Json>, body: seq<Json>, end: seq<Json>,
                                          root: string, files: map<string, Json>,
                                          float: string -> Option<real>, fuel: nat)
    requires FirstToken(begin).Ok? && DirectiveOf(FirstToken(begin).value) == AttributeBegin
    requires FirstToken(body).Ok? && GraphicsOnly(DirectiveOf(FirstToken(body).value))
    requires FirstToken(end).Ok? && DirectiveOf(FirstToken(end).value) == AttributeEnd
    ensures Apply(b, begin, root, files, float, fuel) == Ok(PushStep(b))
    ensures var inner := Apply(PushStep(b), body, root, files, float, fuel);
            inner.Ok? ==> Apply(inner.value, end, root, files, float, fuel) == Ok(b)
  {
    var inner := Apply(PushStep(b), body, root, files, float, fuel);
    if inner.Ok? {
      var first := FirstToken(body).value;
      GraphicsOnlyKeepsTheRest(PushStep(b), DirectiveOf(first), body, first, float);
      AttributeEndRestores(b, inner.value);
    }
  }

  /** `ReverseOrientation` twice is no change at all. */
  lemma ReverseTwice(b: Builder)
    ensures ReverseStep(ReverseStep(b)) == b
    ensures ReverseStep(b).graphicsState.reverseOrientation != b.graphicsState.reverseOrientation
  {
  }

  /** `CoordSysTransform` replaces the current transform by a recorded
      coordinate system and panics on a name never recorded. */
  lemma {:induction false} CoordSysTransformLookup(b: Builder, tokens: seq<Json>, first: string, name: string)
    requires |tokens| >= 2 && tokens[0] == JStr(first) && tokens[1] == JStr(name)
    ensures CoordSysStep(b, tokens, first) == Err(UnknownCoordinateSystem(name)) <==> name !in b.namedCoordinateSystems
    ensures CoordSysStep(b, tokens, first).Ok? <==> name in b.namedCoordinateSystems
    ensures CoordSysStep(b, tokens, first).Ok? ==>
              CoordSysStep(b, tokens, first).value ==
              b.(graphicsState := b.graphicsState.(currentTransform := b.namedCoordinateSystems[name]))
  {
  }

  /** After `WorldBegin`, `CoordSysTransform "world"` finds the identity,
      which is already the current transform. */
  lemma {:induction false} WorldBeginRecordsWorld(b: Builder, tokens: seq<Json>, first: string)
    requires |tokens| >= 2 && tokens[0] == JStr(first) && tokens[1] == JStr(WorldName)
    ensures WorldBeginStep(b).graphicsState.currentTransform == Identity()
    ensures CoordSysStep(WorldBeginStep(b), tokens, first) == Ok(WorldBeginStep(b))
  {
    var after := WorldBeginStep(b);
    assert after.namedCoordinateSystems[WorldName] == Identity();
    assert after.graphicsState.(currentTransform := Identity()) == after.graphicsState;
  }

  /** After `Camera`, `CoordSysTransform "camera"` makes the current
      transform world-from-camera: the inverse of the transform current when
      the camera was declared. */
  lemma {:induction false} CameraRecordsCameraSystem(b: Builder, camera: seq<Json>, cameraFirst: string,
                                                     tokens: seq<Json>, first: string)
    requires |camera| > 0 && CameraStep(b, camera, cameraFirst).Ok?
    requires |tokens| >= 2 && tokens[0] == JStr(first) && tokens[1] == JStr(CameraName)
    ensures var after := CameraStep(b, camera, cameraFirst).value;
            after.camera.initialized && after.graphicsState == b.graphicsState &&
            CoordSysStep(after, tokens, first).Ok? &&
            CoordSysStep(after, tokens, first).value.graphicsState.currentTransform == Inverse(b.graphicsState.currentTransform) &&
            Inverse(CoordSysStep(after, tokens, first).value.graphicsState.currentTransform) == b.graphicsState.currentTransform
  {
    var after := CameraStep(b, camera, cameraFirst).value;
    assert after.namedCoordinateSystems[CameraName] == Inverse(b.graphicsState.currentTransform);
    InverseInvolutive(b.graphicsState.currentTransform);
  }

  /** `Film` succeeds exactly when it has a name, and then records an
      initialised `rgb` film with the remaining tokens as its parameters,
      changing nothing else. */
  lemma {:induction false} FilmIsRgb(b: Builder, tokens: seq<Json>, first: string)
    requires |tokens| > 0
    ensures FilmStep(b, tokens, first).Ok? <==> tokens[0] == JStr(first) && |tokens| >= 2 && tokens[1].JStr?
    ensures FilmStep(b, tokens, first).Ok? ==>
              var after := FilmStep(b, tokens, first).value;
              after.film.initialized && after.film.name == RgbFilm && after.film.parameters == tokens[2..] &&
              after == b.(film := after.film)
  {
  }

  /** `Include` takes exactly one path and parses that file, relative to
      the root folder, into the same builder. */
  lemma {:induction false} IncludeParsesFile(b: Builder, tokens: seq<Json>, root: string, files: map<string, Json>,
                                             float: string -> Option<real>, fuel: nat)
    requires FirstToken(tokens).Ok? && DirectiveOf(FirstToken(tokens).value) == Include
    ensures |tokens| != 2 ==> Apply(b, tokens, root, files, float, fuel) == Err(WrongTokenCount(Include, |tokens|))
    ensures |tokens| == 2 && tokens[1].JStr? && fuel > 0 ==>
              Apply(b, tokens, root, files, float, fuel) ==
              RunFile(b, JoinPath(root, tokens[1].s), root, files, float, fuel - 1)
  {
  }

  /** The only `UnknownToken` failure is a block whose first token names
      no directive, however deep in the included files it sits. */
  lemma {:induction false} UnknownTokenIsUnknown(b: Builder, tokens: seq<Json>, root: string, files: map<string, Json>,
                                                 float: string -> Option<real>, fuel: nat, token: string)
    requires Apply(b, tokens, root, files, float, fuel) == Err(UnknownToken(token))
    ensures DirectiveOf(token) == Unknown
    decreases fuel, 0, 1
  {
    var first := FirstToken(tokens).value;
    if DirectiveOf(first) == Include {
      IncludeUnknownToken(b, tokens, root, files, float, fuel, token);
    } else {
      StepUnknownToken(b, DirectiveOf(first), tokens, first, float, token);
    }
  }

  /** Only a directive that is no directive fails with `UnknownToken`. */
  lemma {:induction false} StepUnknownToken(b: Builder, d: Directive, tokens: seq<Json>, first: string,
                                            float: string -> Option<real>, token: string)
    requires |tokens| > 0 && d != Include && Step(b, d, tokens, first, float) == Err(UnknownToken(token))
    ensures d == Unknown && token == first
  {
    if (d == LookAt || d == Rotate || d == Scale || d == Translate) && Floats(tokens[1..], float).Err? {
      FloatsFailure(tokens[1..], float);
    } else if d == SetTransform && |tokens| == 2 && tokens[1].JArr? && Floats(tokens[1].items, float).Err? {
      FloatsFailure(tokens[1].items, float);
    }
  }

  lemma {:induction false} IncludeUnknownToken(b: Builder, tokens: seq<Json>, root: string, files: map<string, Json>,
                                               float: string -> Option<real>, fuel: nat, token: string)
    requires IncludeStep(b, tokens, root, files, float, fuel) == Err(UnknownToken(token))
    ensures DirectiveOf(token) == Unknown
    decreases fuel, 0, 0
  {
    RunFileUnknownToken(b, JoinPath(root, tokens[1].s), root, files, float, fuel - 1, token);
  }

  lemma {:induction false} RunFileUnknownToken(b: Builder, path: string, root: string, files: map<string, Json>,
                                               float: string -> Option<real>, fuel: nat, token: string)
    requires RunFile(b, path, root, files, float, fuel) == Err(UnknownToken(token))
    ensures DirectiveOf(token) == Unknown
    decreases fuel, 2, 0
  {
    RunBlocksUnknownToken(b, files[path], 0, BlockCount(files[path]).value, root, files, float, fuel, token);
  }

  lemma {:induction false} RunBlocksUnknownToken(b: Builder, doc: Json, idx: nat, n: nat, root: string,
                                                 files: map<string, Json>, float: string -> Option<real>,
                                                 fuel: nat, token: string)
    requires RunBlocks(b, doc, idx, n, root, files, float, fuel) == Err(UnknownToken(token))
    ensures DirectiveOf(token) == Unknown
    decreases fuel, 1, n - idx
  {
    var tokens := BlockAt(doc, idx).value;
    var step := Apply(b, tokens, root, files, float, fuel);
    if step.Err? {
      UnknownTokenIsUnknown(b, tokens, root, files, float, fuel, token);
    } else {
      RunBlocksUnknownToken(step.value, doc, idx + 1, n, root, files, float, fuel, token);
    }
  }

  /** A block panics with "unknown token" exactly when its first token
      names no directive. */
  lemma {:induction false} UnknownDirectivePanics(b: Builder, tokens: seq<Json>, root: string, files: map<string, Json>,
                                                  float: string -> Option<real>, fuel: nat)
    requires FirstToken(tokens).Ok?
    ensures Apply(b, tokens, root, files, float, fuel) == Err(UnknownToken(FirstToken(tokens).value)) <==>
            DirectiveOf(FirstToken(tokens).value) == Unknown
  {
    if Apply(b, tokens, root, files, float, fuel) == Err(UnknownToken(FirstToken(tokens).value)) {
      UnknownTokenIsUnknown(b, tokens, root, files, float, fuel, FirstToken(tokens).value);
    }
  }

  // ---------------------------------------------------------------------
  // What a parsed scene holds

  /** What every state the builder reaches from its default satisfies: a
      declared film is the `rgb` film, a declared camera has its transform
      and the `camera` coordinate system, and every recorded shape is one
      of the shapes that build primitives. */
  ghost predicate Consistent(b: Builder)
  {
    (b.film.initialized ==> b.film.name == RgbFilm) &&
    (b.camera.initialized ==> b.camera.cameraTransform.Some? && CameraName in b.namedCoordinateSystems) &&
    (forall i :: 0 <= i < |b.shapes| ==> BuiltShape(b.shapes[i].name))
  }

  lemma DefaultConsistent()
    ensures Consistent(DefaultBuilder)
  {
  }

  lemma {:induction false} ApplyConsistent(b: Builder, tokens: seq<Json>, root: string, files: map<string, Json>,
                                           float: string -> Option<real>, fuel: nat)
    requires Consistent(b) && Apply(b, tokens, root, files, float, fuel).Ok?
    ensures Consistent(Apply(b, tokens, root, files, float, fuel).value)
    decreases fuel, 0, 1
  {
    var first := FirstToken(tokens).value;
    var d := DirectiveOf(first);
    if d == Include {
      IncludeConsistent(b, tokens, root, files, float, fuel);
    } else {
      StepConsistent(b, d, tokens, first, float);
    }
  }

  lemma {:induction false} StepConsistent(b: Builder, d: Directive, tokens: seq<Json>, first: string,
                                          float: string -> Option<real>)
    requires |tokens| > 0 && d != Include && Consistent(b) && Step(b, d, tokens, first, float).Ok?
    ensures Consistent(Step(b, d, tokens, first, float).value)
  {
    if d == Shape {
      ShapeConsistent(b, tokens, first);
    } else if GraphicsOnly(d) {
      GraphicsOnlyKeepsTheRest(b, d, tokens, first, float);
    }
  }

  lemma {:induction false} ShapeConsistent(b: Builder, tokens: seq<Json>, first: string)
    requires |tokens| > 0 && Consistent(b) && ShapeStep(b, tokens, first).Ok?
    ensures Consistent(ShapeStep(b, tokens, first).value)
  {
    var after := ShapeStep(b, tokens, first).value;
    if BuiltShape(tokens[1].s) {
      assert after.shapes == b.shapes + [after.shapes[|b.shapes|]];
    }
  }

  lemma {:induction false} IncludeConsistent(b: Builder, tokens: seq<Json>, root: string, files: map<string, Json>,
                                             float: string -> Option<real>, fuel: nat)
    requires Consistent(b) && IncludeStep(b, tokens, root, files, float, fuel).Ok?
    ensures Consistent(IncludeStep(b, tokens, root, files, float, fuel).value)
    decreases fuel, 0, 0
  {
    RunFileConsistent(b, JoinPath(root, tokens[1].s), root, files, float, fuel - 1);
  }

  lemma {:induction false} RunFileConsistent(b: Builder, path: string, root: string, files: map<string, Json>,
                                             float: string -> Option<real>, fuel: nat)
    requires Consistent(b) && RunFile(b, path, root, files, float, fuel).Ok?
    ensures Consistent(RunFile(b, path, root, files, float, fuel).value)
    decreases fuel, 2, 0
  {
    RunBlocksConsistent(b, files[path], 0, BlockCount(files[path]).value, root, files, float, fuel);
  }

  lemma {:induction false} RunBlocksConsistent(b: Builder, doc: Json, idx: nat, n: nat, root: string,
                                               files: map<string, Json>, float: string -> Option<real>, fuel: nat)
    requires Consistent(b) && RunBlocks(b, doc, idx, n, root, files, float, fuel).Ok?
    ensures Consistent(RunBlocks(b, doc, idx, n, root, files, float, fuel).value)
    decreases fuel, 1, n - idx
  {
    if idx < n {
      var tokens := BlockAt(doc, idx).value;
      ApplyConsistent(b, tokens, root, files, float, fuel);
      RunBlocksConsistent(Apply(b, tokens, root, files, float, fuel).value, doc, idx + 1, n, root, files, float, fuel);
    }
  }

  /** `parse_scene` from a fresh builder gets past its checks only with an
      `rgb` film and a camera whose `camera` coordinate system is recorded;
      otherwise it panics on the film first, then on the camera. */
  lemma {:induction false} SceneHasFilmAndCamera(path: string, root: string, files: map<string, Json>,
                                                 float: string -> Option<real>, fuel: nat)
    ensures var parsed := RunFile(DefaultBuilder, path, root, files, float, fuel);
            var scene := SceneOf(DefaultBuilder, path, root, files, float, fuel);
            (parsed.Err? ==> scene == parsed) &&
            (parsed.Ok? ==> (scene == Err(NoFilm) <==> !parsed.value.film.initialized) &&
                            (scene == Err(NoCamera) <==> parsed.value.film.initialized && !parsed.value.camera.initialized)) &&
            (scene.Ok? ==> Consistent(scene.value) && scene.value.film.initialized && scene.value.film.name == RgbFilm &&
                           scene.value.camera.initialized && CameraName in scene.value.namedCoordinateSystems)
  {
    var parsed := RunFile(DefaultBuilder, path, root, files, float, fuel);
    if parsed.Ok? {
      DefaultConsistent();
      RunFileConsistent(DefaultBuilder, path, root, files, float, fuel);
    }
  }

  // ---------------------------------------------------------------------
  // Reading what the converter writes

  /** The blocks applied one after the other. */
  function RunAll(b: Builder, blocks: seq<seq<Json>>, root: string, files: map<string, Json>,
                  float: string -> Option<real>, fuel: nat): Result<Builder, BuildError>
    decreases |blocks|
  {
    if |blocks| == 0 then Ok(b)
    else match Apply(b, blocks[0], root, files, float, fuel)
      case Err(e) => Err(e)
      case Ok(next) => RunAll(next, blocks[1..], root, files, float, fuel)
  }

  lemma {:induction false} ReadsBlocksFrom(b: Builder, blocks: seq<seq<Json>>, idx: nat, root: string,
                                           files: map<string, Json>, float: string -> Option<real>, fuel: nat)
    requires idx <= |blocks|
    requires forall i :: 0 <= i < |blocks| ==> BlockAt(JObj(PbrtParser.DocumentOf(blocks)), i) == Ok(blocks[i])
    ensures RunBlocks(b, JObj(PbrtParser.DocumentOf(blocks)), idx, |blocks|, root, files, float, fuel) ==
            RunAll(b, blocks[idx..], root, files, float, fuel)
    decreases |blocks| - idx
  {
    if idx < |blocks| {
      assert blocks[idx..][0] == blocks[idx];
      assert blocks[idx..][1..] == blocks[idx + 1..];
      var step := Apply(b, blocks[idx], root, files, float, fuel);
      if step.Ok? {
        ReadsBlocksFrom(step.value, blocks, idx + 1, root, files, float, fuel);
      }
    }
  }

  /** The builder reads back a document the converter assembled from
      `blocks` as exactly those blocks, in the order they were written. */
  lemma {:induction false} ReadsConvertedDocument(b: Builder, path: string, blocks: seq<seq<Json>>, root: string,
                                                  files: map<string, Json>, float: string -> Option<real>, fuel: nat)
    requires path in files && files[path] == JObj(PbrtParser.DocumentOf(blocks))
    ensures RunFile(b, path, root, files, float, fuel) == RunAll(b, blocks, root, files, float, fuel)
  {
    var doc := JObj(PbrtParser.DocumentOf(blocks));
    PbrtParser.DocumentOfSpec(blocks);
    assert BlockCount(doc) == Ok(|blocks|);
    forall i | 0 <= i < |blocks|
      ensures BlockAt(doc, i) == Ok(blocks[i])
    {
      assert PbrtParser.DocumentOf(blocks)[PbrtParser.TokenKey(i)] == JArr(blocks[i]);
    }
    ReadsBlocksFrom(b, blocks, 0, root, files, float, fuel);
    assert blocks[0..] == blocks;
  }

  // ---------------------------------------------------------------------
  // The builder

  class SceneBuilder {
    var graphicsState: GraphicsState
    var pushedGraphicsState: seq<GraphicsState>
    var namedCoordinateSystems: map<string, Transform>
    var renderFromWorld: Transform
    var shapes: seq<ShapeRecord>
    var filmEntity: SceneEntity
    var cameraEntity: SceneEntity

    function State(): Builder
      reads this
    {
      Builder(graphicsState, pushedGraphicsState, namedCoordinateSystems, renderFromWorld, shapes,
              filmEntity, cameraEntity)
    }

    /** `SceneBuilder::default`. */
    constructor Default()
      ensures State() == DefaultBuilder
    {
      graphicsState := InitialGraphicsState;
      pushedGraphicsState := [];
      namedCoordinateSystems := map[];
      renderFromWorld := Identity();
      shapes := [];
      filmEntity := UnsetEntity;
      cameraEntity := UnsetEntity;
    }

    /** `parse_scene`: `root` is the folder of `path`. */
    method ParseScene(path: string, root: string, files: map<string, Json>,
                      float: string -> Option<real>, fuel: nat) returns (r: Result<(), BuildError>)
      modifies this
      ensures Agrees(r, State(), SceneOf(old(State()), path, root, files, float, fuel))
    {
      r := ParseFile(path, root, files, float, fuel);
      if r.Err? {
        return;
      }
      if !filmEntity.initialized {
        return Err(NoFilm);
      }
      if !cameraEntity.initialized {
        return Err(NoCamera);
      }
    }

    /** `parse_file`: every block of the document, in order. */
    method ParseFile(path: string, root: string, files: map<string, Json>,
                     float: string -> Option<real>, fuel: nat) returns (r: Result<(), BuildError>)
      modifies this
      ensures Agrees(r, State(), RunFile(old(State()), path, root, files, float, fuel))
      decreases fuel, 2, 0
    {
      if path !in files {
        return Err(MissingFile(path));
      }
      var doc := files[path];
      var count := BlockCount(doc);
      if count.Err? {
        return Err(count.error);
      }
      var n := count.value;
      var idx := 0;
      while idx < n
        invariant idx <= n
        invariant RunFile(old(State()), path, root, files, float, fuel) ==
                  RunBlocks(State(), doc, idx, n, root, files, float, fuel)
      {
        var block := BlockAt(doc, idx);
        if block.Err? {
          return Err(block.error);
        }
        r := ParseBlock(block.value, root, files, float, fuel);
        if r.Err? {
          return;
        }
        idx := idx + 1;
      }
      r := Ok(());
    }

    /** The body of the loop of `parse_file`: one block. */
    method ParseBlock(tokens: seq<Json>, root: string, files: map<string, Json>,
                      float: string -> Option<real>, fuel: nat) returns (r: Result<(), BuildError>)
      modifies this
      ensures Agrees(r, State(), Apply(old(State()), tokens, root, files, float, fuel))
      decreases fuel, 1, 0
    {
      var first := FirstToken(tokens);
      if first.Err? {
        return Err(first.error);
      }
      var t := first.value;
      if DirectiveOf(t) == Include {
        r := ParseInclude(tokens, root, files, float, fuel);
      } else {
        r := ParseDirective(DirectiveOf(t), tokens, t, float);
      }
    }

    /** The `match first_token` of `parse_file` for every directive but
        `Include`. */
    method ParseDirective(d: Directive, tokens: seq<Json>, t: string, float: string -> Option<real>)
      returns (r: Result<(), BuildError>)
      requires |tokens| > 0 && d != Include
      modifies this
      ensures Agrees(r, State(), Step(old(State()), d, tokens, t, float))
    {
      match d
      case AttributeBegin =>
        PushGraphicsState();
        r := Ok(());
      case AttributeEnd =>
        r := PopGraphicsState();
      case Camera =>
        r := ParseCamera(tokens, t);
      case CoordSysTransform =>
        r := ParseCoordSysTransform(tokens, t);
      case Film =>
        r := ParseFilm(tokens, t);
      case LookAt =>
        r := ParseLookAt(tokens, t, float);
      case Rotate =>
        r := ParseRotate(tokens, t, float);
      case ReverseOrientation =>
        graphicsState := graphicsState.(reverseOrientation := !graphicsState.reverseOrientation);
        r := Ok(());
      case Scale =>
        r := ParseScale(tokens, t, float);
      case Shape =>
        r := ParseShape(tokens, t);
      case SetTransform =>
        r := ParseTransform(tokens, t, float);
      case Translate =>
        r := ParseTranslate(tokens, t, float);
      case WorldBegin =>
        WorldBegin();
        r := Ok(());
      case Unknown =>
        r := Err(UnknownToken(t));
      case _ =>
        r := Ok(());
    }

    /** `AttributeBegin`: `Vec::push` of a copy of the graphics state. */
    method PushGraphicsState()
      modifies this
      ensures State() == PushStep(old(State()))
    {
      pushedGraphicsState := pushedGraphicsState + [graphicsState];
    }

    /** `AttributeEnd`: `Vec::pop`, panicking on an empty stack. */
    method PopGraphicsState() returns (r: Result<(), BuildError>)
      modifies this
      ensures Agrees(r, State(), PopStep(old(State())))
    {
      if |pushedGraphicsState| == 0 {
        return Err(UnmatchedAttributeEnd);
      }
      graphicsState := pushedGraphicsState[|pushedGraphicsState| - 1];
      pushedGraphicsState := pushedGraphicsState[..|pushedGraphicsState| - 1];
      r := Ok(());
    }

    /** `WorldBegin`. */
    method WorldBegin()
      modifies this
      ensures State() == WorldBeginStep(old(State()))
    {
      graphicsState := graphicsState.(currentTransform := Identity());
      namedCoordinateSystems := namedCoordinateSystems[WorldName := graphicsState.currentTransform];
    }

    /** `Include`: the included file is parsed by a recursive `parse_file`. */
    method ParseInclude(tokens: seq<Json>, root: string, files: map<string, Json>,
                        float: string -> Option<real>, fuel: nat) returns (r: Result<(), BuildError>)
      modifies this
      ensures Agrees(r, State(), IncludeStep(old(State()), tokens, root, files, float, fuel))
      decreases fuel, 0, 0
    {
      if |tokens| != 2 {
        return Err(WrongTokenCount(Include, |tokens|));
      }
      var included := Text(tokens[1]);
      if included.Err? {
        return Err(included.error);
      }
      if fuel == 0 {
        return Err(IncludeTooDeep);
      }
      r := ParseFile(JoinPath(root, included.value), root, files, float, fuel - 1);
    }

    /** `parse_camera`. */
    method ParseCamera(tokens: seq<Json>, first: string) returns (r: Result<(), BuildError>)
      requires |tokens| > 0
      modifies this
      ensures Agrees(r, State(), CameraStep(old(State()), tokens, first))
    {
      if tokens[0] != JStr(first) {
        return Err(NameMismatch(Camera));
      }
      if |tokens| < 2 {
        return Err(MissingArgument(Camera));
      }
      var name := Text(tokens[1]);
      if name.Err? {
        return Err(name.error);
      }
      var parameters := tokens[2..];
      var cameraFromWorld := graphicsState.currentTransform;
      var worldFromCamera := Inverse(cameraFromWorld);
      namedCoordinateSystems := namedCoordinateSystems[CameraName := Inverse(cameraFromWorld)];
      var cameraTransform := CameraWorld(worldFromCamera);
      renderFromWorld := Inverse(cameraTransform.worldFromRender);
      cameraEntity := cameraEntity.(initialized := true, name := name.value, cameraTransform := Some(cameraTransform),
                                    parameters := parameters);
      r := Ok(());
    }

    /** `parse_coord_sys_transform`. */
    method ParseCoordSysTransform(tokens: seq<Json>, first: string) returns (r: Result<(), BuildError>)
      requires |tokens| > 0
      modifies this
      ensures Agrees(r, State(), CoordSysStep(old(State()), tokens, first))
    {
      if tokens[0] != JStr(first) {
        return Err(NameMismatch(CoordSysTransform));
      }
      if |tokens| < 2 {
        return Err(MissingArgument(CoordSysTransform));
      }
      var name := Text(tokens[1]);
      if name.Err? {
        return Err(name.error);
      }
      if name.value !in namedCoordinateSystems {
        return Err(UnknownCoordinateSystem(name.value));
      }
      graphicsState := graphicsState.(currentTransform := namedCoordinateSystems[name.value]);
      r := Ok(());
    }

    /** `parse_film`; the warning for a film other than `rgb` is not modelled. */
    method ParseFilm(tokens: seq<Json>, first: string) returns (r: Result<(), BuildError>)
      requires |tokens| > 0
      modifies this
      ensures Agrees(r, State(), FilmStep(old(State()), tokens, first))
    {
      if tokens[0] != JStr(first) {
        return Err(NameMismatch(Film));
      }
      if |tokens| < 2 {
        return Err(MissingArgument(Film));
      }
      filmEntity := filmEntity.(initialized := true);
      var name := Text(tokens[1]);
      if name.Err? {
        return Err(name.error);
      }
      filmEntity := filmEntity.(name := name.value);
      if filmEntity.name != RgbFilm {
        filmEntity := filmEntity.(name := RgbFilm);
      }
      filmEntity := filmEntity.(parameters := tokens[2..]);
      r := Ok(());
    }

    /** `parse_look_at`. */
    method ParseLookAt(tokens: seq<Json>, first: string, float: string -> Option<real>) returns (r: Result<(), BuildError>)
      requires |tokens| > 0
      modifies this
      ensures Agrees(r, State(), LookAtStep(old(State()), tokens, first, float))
    {
      if tokens[0] != JStr(first) {
        return Err(NameMismatch(LookAt));
      }
      if |tokens| != 10 {
        return Err(WrongTokenCount(LookAt, |tokens|));
      }
      var data := ReadFloats(tokens[1..], float);
      if data.Err? {
        return Err(data.error);
      }
      var d := data.value;
      var pos := Vector3(d[0], d[1], d[2]);
      var look := Vector3(d[3], d[4], d[5]);
      var up := Vector3(d[6], d[7], d[8]);
      if Degenerate(pos, look, up) {
        return Err(ParallelUp);
      }
      graphicsState := graphicsState.(currentTransform := Mul(graphicsState.currentTransform, LookAtTransform(pos, look, up)));
      r := Ok(());
    }

    /** `parse_rotate`. */
    method ParseRotate(tokens: seq<Json>, first: string, float: string -> Option<real>) returns (r: Result<(), BuildError>)
      requires |tokens| > 0
      modifies this
      ensures Agrees(r, State(), RotateStep(old(State()), tokens, first, float))
    {
      if |tokens| != 5 {
        return Err(WrongTokenCount(Rotate, |tokens|));
      }
      if tokens[0] != JStr(first) {
        return Err(NameMismatch(Rotate));
      }
      var floats := ReadFloats(tokens[1..], float);
      if floats.Err? {
        return Err(floats.error);
      }
      var f := floats.value;
      graphicsState := graphicsState.(currentTransform := Mul(graphicsState.currentTransform, Rotation(f[0], f[1], f[2], f[3])));
      r := Ok(());
    }

    /** `parse_scale`. */
    method ParseScale(tokens: seq<Json>, first: string, float: string -> Option<real>) returns (r: Result<(), BuildError>)
      requires |tokens| > 0
      modifies this
      ensures Agrees(r, State(), ScaleStep(old(State()), tokens, first, float))
    {
      if |tokens| != 4 {
        return Err(WrongTokenCount(Scale, |tokens|));
      }
      if tokens[0] != JStr(first) {
        return Err(NameMismatch(Scale));
      }
      var floats := ReadFloats(tokens[1..], float);
      if floats.Err? {
        return Err(floats.error);
      }
      var f := floats.value;
      graphicsState := graphicsState.(currentTransform := Mul(graphicsState.currentTransform, Scaling(f[0], f[1], f[2])));
      r := Ok(());
    }

    /** `parse_transform`. */
    method ParseTransform(tokens: seq<Json>, first: string, float: string -> Option<real>) returns (r: Result<(), BuildError>)
      requires |tokens| > 0
      modifies this
      ensures Agrees(r, State(), SetTransformStep(old(State()), tokens, first, float))
    {
      if |tokens| != 2 {
        return Err(WrongTokenCount(SetTransform, |tokens|));
      }
      if tokens[0] != JStr(first) {
        return Err(NameMismatch(SetTransform));
      }
      if !tokens[1].JArr? {
        return Err(NotAnArray(tokens[1]));
      }
      var values := ReadFloats(tokens[1].items, float);
      if values.Err? {
        return Err(values.error);
      }
      if |values.value| != 16 {
        return Err(WrongValueCount(|values.value|));
      }
      graphicsState := graphicsState.(currentTransform := Transpose(FromMatrix(RowMajor(values.value))));
      r := Ok(());
    }

    /** `parse_translate`. */
    method ParseTranslate(tokens: seq<Json>, first: string, float: string -> Option<real>) returns (r: Result<(), BuildError>)
      requires |tokens| > 0
      modifies this
      ensures Agrees(r, State(), TranslateStep(old(State()), tokens, first, float))
    {
      if |tokens| != 4 {
        return Err(WrongTokenCount(Translate, |tokens|));
      }
      if tokens[0] != JStr(first) {
        return Err(NameMismatch(Translate));
      }
      var floats := ReadFloats(tokens[1..], float);
      if floats.Err? {
        return Err(floats.error);
      }
      var f := floats.value;
      graphicsState := graphicsState.(currentTransform := Mul(graphicsState.currentTransform, Translation(f[0], f[1], f[2])));
      r := Ok(());
    }

    /** `parse_shape`; the primitives themselves are not built here. */
    method ParseShape(tokens: seq<Json>, first: string) returns (r: Result<(), BuildError>)
      requires |tokens| > 0
      modifies this
      ensures Agrees(r, State(), ShapeStep(old(State()), tokens, first))
    {
      if tokens[0] != JStr(first) {
        return Err(NameMismatch(Shape));
      }
      if |tokens| < 2 {
        return Err(MissingArgument(Shape));
      }
      var parameters := tokens[2..];
      var renderFromObject := Mul(renderFromWorld, graphicsState.currentTransform);
      var reverseOrientation := graphicsState.reverseOrientation;
      var name := Text(tokens[1]);
      if name.Err? {
        return Err(name.error);
      }
      if name.value == "disk" {
        r := Ok(());
      } else if BuiltShape(name.value) {
        shapes := shapes + [ShapeRecord(name.value, renderFromObject, reverseOrientation, parameters)];
        r := Ok(());
      } else {
        r := Err(UnknownShape(name.value));
      }
    }
  }

  /** The numbers of a directive, read one by one in order, stopping at the
      first that is not one. */
  method ReadFloats(values: seq<Json>, float: string -> Option<real>) returns (r: Result<seq<real>, BuildError>)
    ensures r == Floats(values, float)
  {
    var out := [];
    for i := 0 to |values|
      invariant Floats(values[..i], float) == Ok(out)
    {
      var f := FloatOf(values[i], float);
      assert values[..i + 1][..i] == values[..i];
      if f.Err? {
        FloatsPrefixFailure(values, i + 1, float);
        return Err(f.error);
      }
      out := out + [f.value];
    }
    assert values[..|values|] == values;
    r := Ok(out);
  }
}
