/** The typed parameter lists of scene directives (`src/scene/parameter_dict.rs`).

    A directive such as `Shape "trianglemesh" "point3 P" [ ... ]` carries
    pairs of a declaration (`"<type> <name>"`) and a value (one string or a
    list of strings). `BuildFrom` states what the pairs make of a dictionary;
    the `ParameterDict` class keeps one map per type, as the source does, and
    its getters answer with the stored value, the caller's default or a
    failure. Numbers are parsed by the caller's parsers (Rust's
    `str::parse`, foreign code here); textures are opaque handles. */
module SceneParameters {
  import opened Wrappers
  import opened Strings
  import opened Json
  import PbrtParser

  datatype Point2 = Point2(x: real, y: real)
  datatype Point3 = Point3(x: real, y: real, z: real)
  datatype Normal3 = Normal3(x: real, y: real, z: real)
  datatype Rgb = Rgb(r: real, g: real, b: real)

  /** A shared handle on a named texture; the textures themselves are not
      part of this model. */
  datatype TextureRef = TextureRef(handle: nat)

  /** The panics of the source, one per cause. */
  datatype ParamError =
    | NotAString(value: Json)
    | EmptyDeclaration
    | NotTypeAndName(token: string)
    | MissingValue(token: string)
    | NotANumber(text: string)
    | WrongCount(name: string, count: nat)
    | IncompleteTuple
    | TextureNotFound(id: string)
    | UnknownType(typeName: string)
    | NotSingle(key: string, count: nat)
    | KeyNotFound(key: string)
    | DuplicateKey(key: string)

  /** The number parsers `convert_string` calls (`str::parse::<i32>` and
      `str::parse::<Float>`); `None` is a failed parse. */
  datatype Parsers = Parsers(integer: string -> Option<int>, float: string -> Option<real>)

  // ---------------------------------------------------------------------
  // Reading the declarations and values

  /** `json_value_to_string`: the text of a JSON string; any other value
      makes the source panic. */
  function JsonText(v: Json): (r: Result<string, ParamError>)
    ensures r.Ok? <==> v.JStr?
    ensures r.Ok? ==> v == JStr(r.value)
  {
    match v
    case JStr(s) => Ok(s)
    case _ => Err(NotAString(v))
  }

  /** `trim_quote` on a declaration: one pair of matching quotes removed;
      the source panics on an empty token. */
  function TrimDeclaration(token: string): (r: Result<string, ParamError>)
    ensures r.Ok? <==> |token| > 0
    ensures r.Ok? ==> r.value == PbrtParser.TrimQuote(token)
  {
    if |token| == 0 then Err(EmptyDeclaration) else Ok(PbrtParser.TrimQuote(token))
  }

  /** `split_variable_type_name`: the two whitespace-separated words of a
      declaration; any other number of words fails the assertion. */
  function SplitVariableTypeName(token: string): (r: Result<(string, string), ParamError>)
    ensures r.Ok? <==> |SplitWhere(token, IsRustWhitespace)| == 2
    ensures r.Ok? ==> [r.value.0, r.value.1] == SplitWhere(token, IsRustWhitespace)
  {
    var parts := SplitWhere(token, IsRustWhitespace);
    if |parts| != 2 then Err(NotTypeAndName(token)) else Ok((parts[0], parts[1]))
  }

  /** The texts of a list of JSON strings, or the first value that is not one. */
  function Texts(items: seq<Json>): (r: Result<seq<string>, ParamError>)
    ensures r.Ok? <==> forall k :: 0 <= k < |items| ==> items[k].JStr?
    ensures r.Ok? ==> |r.value| == |items| && forall k :: 0 <= k < |items| ==> items[k] == JStr(r.value[k])
  {
    if |items| == 0 then Ok([])
    else
      match JsonText(items[0])
      case Err(e) => Err(e)
      case Ok(s) =>
        match Texts(items[1..])
        case Err(e) =>
          assert !items[1..][FirstNonText(items[1..])].JStr?;
          Err(e)
        case Ok(rest) => Ok([s] + rest)
  }

  /** The index of some element of `items` that is not a JSON string. */
  ghost function FirstNonText(items: seq<Json>): (k: nat)
    requires exists k :: 0 <= k < |items| && !items[k].JStr?
    ensures k < |items| && !items[k].JStr?
  {
    var k :| 0 <= k < |items| && !items[k].JStr?; k
  }

  /** `fetch_variable_value`: a list of strings, or a single string as a
      list of one. */
  function FetchVariableValue(v: Json): (r: Result<seq<string>, ParamError>)
    ensures v.JStr? ==> r == Ok([v.s])
    ensures v.JArr? ==> r == Texts(v.items)
    ensures !v.JStr? && !v.JArr? ==> r.Err?
  {
    match v
    case JArr(items) => Texts(items)
    case _ =>
      match JsonText(v)
      case Err(e) => Err(e)
      case Ok(s) => Ok([s])
  }

  /** `convert_string`: every text parsed; the source unwraps each parse. */
  function ConvertAll<T>(texts: seq<string>, parse: string -> Option<T>): (r: Result<seq<T>, ParamError>)
    ensures r.Ok? <==> forall k :: 0 <= k < |texts| ==> parse(texts[k]).Some?
    ensures r.Ok? ==> |r.value| == |texts| && forall k :: 0 <= k < |texts| ==> parse(texts[k]) == Some(r.value[k])
  {
    if |texts| == 0 then Ok([])
    else
      match parse(texts[0])
      case None => Err(NotANumber(texts[0]))
      case Some(x) =>
        match ConvertAll(texts[1..], parse)
        case Err(e) =>
          assert exists k :: 0 <= k < |texts[1..]| && parse(texts[1..][k]).None?;
          Err(e)
        case Ok(rest) => Ok([x] + rest)
  }

  // ---------------------------------------------------------------------
  // Grouping numbers into points

  /** The `point2` loop: the numbers taken two at a time; an odd count makes
      the source index past the end. */
  function Pairs(fs: seq<real>): (r: Result<seq<Point2>, ParamError>)
    ensures r.Ok? <==> |fs| % 2 == 0
    ensures r.Err? ==> r.error == IncompleteTuple
    ensures r.Ok? ==> |r.value| * 2 == |fs|
    ensures r.Ok? ==> forall k :: 0 <= k < |r.value| ==> r.value[k] == Point2(fs[2 * k], fs[2 * k + 1])
  {
    if |fs| % 2 != 0 then Err(IncompleteTuple)
    else Ok(seq(|fs| / 2, k requires 0 <= k < |fs| / 2 => Point2(fs[2 * k], fs[2 * k + 1])))
  }

  /** The `point3` and `normal` loops: the numbers taken three at a time,
      each triple made into a point by `make`. */
  function Triples<T>(fs: seq<real>, make: (real, real, real) -> T): (r: Result<seq<T>, ParamError>)
    ensures r.Ok? <==> |fs| % 3 == 0
    ensures r.Err? ==> r.error == IncompleteTuple
    ensures r.Ok? ==> |r.value| * 3 == |fs|
    ensures r.Ok? ==> forall k :: 0 <= k < |r.value| ==> r.value[k] == make(fs[3 * k], fs[3 * k + 1], fs[3 * k + 2])
  {
    if |fs| % 3 != 0 then Err(IncompleteTuple)
    else Ok(seq(|fs| / 3, k requires 0 <= k < |fs| / 3 => make(fs[3 * k], fs[3 * k + 1], fs[3 * k + 2])))
  }

  /** The `point2` loop of `build_parameter_dict`. */
  method GroupPairs(fs: seq<real>) returns (r: Result<seq<Point2>, ParamError>)
    ensures r == Pairs(fs)
  {
    var points := [];
    var idx := 0;
    while idx < |fs|
      invariant idx % 2 == 0 && idx <= |fs| && |points| * 2 == idx
      invariant forall k :: 0 <= k < |points| ==> points[k] == Point2(fs[2 * k], fs[2 * k + 1])
    {
      if idx + 1 >= |fs| {
        assert |fs| == idx + 1;
        return Err(IncompleteTuple);
      }
      points := points + [Point2(fs[idx], fs[idx + 1])];
      idx := idx + 2;
    }
    assert Pairs(fs).Ok?;
    assert Pairs(fs).value == points;
    r := Ok(points);
  }

  /** The `point3` and `normal` loops of `build_parameter_dict`. */
  method GroupTriples<T>(fs: seq<real>, make: (real, real, real) -> T) returns (r: Result<seq<T>, ParamError>)
    ensures r == Triples(fs, make)
  {
    var points := [];
    var idx := 0;
    while idx < |fs|
      invariant idx % 3 == 0 && idx <= |fs| && |points| * 3 == idx
      invariant forall k :: 0 <= k < |points| ==> points[k] == make(fs[3 * k], fs[3 * k + 1], fs[3 * k + 2])
    {
      if idx + 2 >= |fs| {
        assert |fs| == idx + 1 || |fs| == idx + 2;
        return Err(IncompleteTuple);
      }
      points := points + [make(fs[idx], fs[idx + 1], fs[idx + 2])];
      idx := idx + 3;
    }
    assert Triples(fs, make).Ok?;
    assert Triples(fs, make).value == points;
    r := Ok(points);
  }

  // ---------------------------------------------------------------------
  // One declaration and its value

  /** What one (declaration, value) pair binds. */
  datatype Binding =
    | BString(name: string, text: string)
    | BIntegers(name: string, integers: seq<int>)
    | BFloats(name: string, floats: seq<real>)
    | BPoint2s(name: string, point2s: seq<Point2>)
    | BPoint3s(name: string, point3s: seq<Point3>)
    | BNormals(name: string, normals: seq<Normal3>)
    | BRgb(name: string, rgb: Rgb)
    | BTexture(name: string, texture: TextureRef)

  /** The text a `string` parameter stores: a `filename` is put under the
      scene's directory when there is one. */
  function StoredText(name: string, text: string, dir: Option<string>): string
  {
    if name == "filename" && dir.Some? then dir.value + "/" + text else text
  }

  /** The `match variable_type` of `build_parameter_dict`. */
  function ValueBinding(typeName: string, name: string, values: seq<string>,
                        named: map<string, TextureRef>, dir: Option<string>, parsers: Parsers): Result<Binding, ParamError>
  {
    if typeName == "string" then
      if |values| != 1 then Err(WrongCount(name, |values|)) else Ok(BString(name, StoredText(name, values[0], dir)))
    else if typeName == "integer" then
      match ConvertAll(values, parsers.integer)
      case Err(e) => Err(e)
      case Ok(ints) => Ok(BIntegers(name, ints))
    else if typeName == "float" then
      match ConvertAll(values, parsers.float)
      case Err(e) => Err(e)
      case Ok(fs) => Ok(BFloats(name, fs))
    else if typeName == "point2" then
      match ConvertAll(values, parsers.float)
      case Err(e) => Err(e)
      case Ok(fs) =>
        match Pairs(fs)
        case Err(e) => Err(e)
        case Ok(ps) => Ok(BPoint2s(name, ps))
    else if typeName == "point3" then
      match ConvertAll(values, parsers.float)
      case Err(e) => Err(e)
      case Ok(fs) =>
        match Triples(fs, (x, y, z) => Point3(x, y, z))
        case Err(e) => Err(e)
        case Ok(ps) => Ok(BPoint3s(name, ps))
    else if typeName == "normal" then
      match ConvertAll(values, parsers.float)
      case Err(e) => Err(e)
      case Ok(fs) =>
        match Triples(fs, (x, y, z) => Normal3(x, y, z))
        case Err(e) => Err(e)
        case Ok(ns) => Ok(BNormals(name, ns))
    else if typeName == "rgb" then
      match ConvertAll(values, parsers.float)
      case Err(e) => Err(e)
      case Ok(fs) =>
        if |fs| != 3 then Err(WrongCount(name, |fs|)) else Ok(BRgb(name, Rgb(fs[0], fs[1], fs[2])))
    else if typeName == "texture" then
      if |values| != 1 then Err(WrongCount(name, |values|))
      else if values[0] !in named then Err(TextureNotFound(values[0]))
      else Ok(BTexture(name, named[values[0]]))
    else
      Err(UnknownType(typeName))
  }

  /** One turn of the loop of `build_parameter_dict`: the declaration is
      read, trimmed and split before the value is looked up, and `value` is
      `None` when the declaration is the last element. */
  function EntryBinding(decl: Json, value: Option<Json>, named: map<string, TextureRef>,
                        dir: Option<string>, parsers: Parsers): Result<Binding, ParamError>
  {
    match JsonText(decl)
    case Err(e) => Err(e)
    case Ok(text) =>
      match TrimDeclaration(text)
      case Err(e) => Err(e)
      case Ok(token) =>
        match SplitVariableTypeName(token)
        case Err(e) => Err(e)
        case Ok((typeName, name)) =>
          match value
          case None => Err(MissingValue(token))
          case Some(v) =>
            match FetchVariableValue(v)
            case Err(e) => Err(e)
            case Ok(values) => ValueBinding(typeName, name, values, named, dir, parsers)
  }

  // ---------------------------------------------------------------------
  // The dictionary as a value

  /** The nine maps of a dictionary. */
  datatype Params = Params(
    integers: map<string, seq<int>>,
    floats: map<string, seq<real>>,
    strings: map<string, string>,
    point2s: map<string, seq<Point2>>,
    point3s: map<string, seq<Point3>>,
    normal3s: map<string, seq<Normal3>>,
    rgbs: map<string, Rgb>,
    textures: map<string, TextureRef>,
    bools: map<string, seq<bool>>)

  const EmptyParams := Params(map[], map[], map[], map[], map[], map[], map[], map[], map[])

  /** `HashMap::insert` of one binding into the map of its type: a name
      bound before is overwritten, and the other maps are left as they are. */
  function Bind(p: Params, b: Binding): Params
  {
    Params(if b.BIntegers? then p.integers[b.name := b.integers] else p.integers,
           if b.BFloats? then p.floats[b.name := b.floats] else p.floats,
           if b.BString? then p.strings[b.name := b.text] else p.strings,
           if b.BPoint2s? then p.point2s[b.name := b.point2s] else p.point2s,
           if b.BPoint3s? then p.point3s[b.name := b.point3s] else p.point3s,
           if b.BNormals? then p.normal3s[b.name := b.normals] else p.normal3s,
           if b.BRgb? then p.rgbs[b.name := b.rgb] else p.rgbs,
           if b.BTexture? then p.textures[b.name := b.texture] else p.textures,
           p.bools)
  }

  /** The element after `idx`, if any. */
  function ValueAfter(entries: seq<Json>, idx: nat): Option<Json>
  {
    if idx + 1 < |entries| then Some(entries[idx + 1]) else None
  }

  /** What reads one pair: its declaration, and its value unless the
      declaration is the last element. */
  type Reader = (Json, Option<Json>) -> Result<Binding, ParamError>

  /** `build_parameter_dict` from index `idx` on: the pairs read by `read`
      and bound in order (`step_by(2)`), the first failure ending it. */
  function BuildFrom(entries: seq<Json>, idx: nat, p: Params, read: Reader): Result<Params, ParamError>
    decreases |entries| - idx
  {
    if idx >= |entries| then Ok(p)
    else
      match read(entries[idx], ValueAfter(entries, idx))
      case Err(e) => Err(e)
      case Ok(b) => BuildFrom(entries, idx + 2, Bind(p, b), read)
  }

  /** The reader of `build_parameter_dict`, for the scene's named textures,
      the directory of `filename` parameters and the number parsers. */
  function EntryReader(named: map<string, TextureRef>, dir: Option<string>, parsers: Parsers): Reader
  {
    (decl, value) => EntryBinding(decl, value, named, dir, parsers)
  }

  /** The dictionary `build_parameter_dict` makes of `entries`. */
  function Build(entries: seq<Json>, named: map<string, TextureRef>, dir: Option<string>,
                 parsers: Parsers): Result<Params, ParamError>
  {
    BuildFrom(entries, 0, EmptyParams, EntryReader(named, dir, parsers))
  }

  // ---------------------------------------------------------------------
  // Lookups

  /** `get_one_val`: a stored value must be a list of exactly one, and then
      wins over the default; an absent key gives the default. */
  function GetOneVal<T>(key: string, default: Option<T>, dict: map<string, seq<T>>): (r: Result<T, ParamError>)
    ensures key in dict ==> (r.Ok? <==> |dict[key]| == 1)
    ensures key in dict && r.Ok? ==> r.value == dict[key][0]
    ensures key !in dict ==> (r.Ok? <==> default.Some?) && (r.Ok? ==> r.value == default.value)
  {
    if key in dict then
      if |dict[key]| != 1 then Err(NotSingle(key, |dict[key]|)) else Ok(dict[key][0])
    else if default.Some? then Ok(default.value)
    else Err(KeyNotFound(key))
  }

  /** `get_array`: a copy of the stored list; an absent key panics. */
  function GetArray<T>(key: string, dict: map<string, seq<T>>): (r: Result<seq<T>, ParamError>)
    ensures r.Ok? <==> key in dict
    ensures r.Ok? ==> r.value == dict[key]
  {
    if key in dict then Ok(dict[key]) else Err(KeyNotFound(key))
  }

  /** The lookup of `get_rgb` and `get_string`: the stored value first, then
      the default. */
  function GetOrDefault<T>(key: string, default: Option<T>, dict: map<string, T>): (r: Result<T, ParamError>)
    ensures r.Ok? <==> key in dict || default.Some?
    ensures key in dict ==> r == Ok(dict[key])
    ensures key !in dict && default.Some? ==> r == Ok(default.value)
  {
    if key in dict then Ok(dict[key])
    else if default.Some? then Ok(default.value)
    else Err(KeyNotFound(key))
  }

  // ---------------------------------------------------------------------
  // The dictionary object

  class ParameterDict {
    var integers: map<string, seq<int>>
    var floats: map<string, seq<real>>
    var strings: map<string, string>
    var point2s: map<string, seq<Point2>>
    var point3s: map<string, seq<Point3>>
    var normal3s: map<string, seq<Normal3>>
    var rgbs: map<string, Rgb>
    var textures: map<string, TextureRef>
    var bools: map<string, seq<bool>>

    /** The dictionary's maps as a value. */
    ghost function Contents(): Params
      reads this
    {
      Params(integers, floats, strings, point2s, point3s, normal3s, rgbs, textures, bools)
    }

    /** `ParameterDict::default`: every map empty. */
    constructor ()
      ensures Contents() == EmptyParams
    {
      integers, floats, strings := map[], map[], map[];
      point2s, point3s, normal3s := map[], map[], map[];
      rgbs, textures, bools := map[], map[], map[];
    }

    /** The struct literal closing `build_parameter_dict`. */
    constructor FromParams(p: Params)
      ensures Contents() == p
    {
      integers, floats, strings := p.integers, p.floats, p.strings;
      point2s, point3s, normal3s := p.point2s, p.point3s, p.normal3s;
      rgbs, textures, bools := p.rgbs, p.textures, p.bools;
    }

    /** `clone`: a new dictionary with the same maps. */
    method Clone() returns (c: ParameterDict)
      ensures fresh(c) && c.Contents() == Contents()
    {
      c := new ParameterDict.FromParams(Params(integers, floats, strings, point2s, point3s,
                                               normal3s, rgbs, textures, bools));
    }

    function HasRgb(name: string): (r: bool)
      reads this
      ensures r <==> name in rgbs
    {
      name in rgbs
    }

    function HasTexture(name: string): (r: bool)
      reads this
      ensures r <==> name in textures
    {
      name in textures
    }

    /** `insert_integer`: a new key is added and nothing else changes; a key
        already present panics. */
    method InsertInteger(name: string, value: seq<int>) returns (r: Result<(), ParamError>)
      modifies this
      ensures name in old(integers) ==> r == Err(DuplicateKey(name)) && Contents() == old(Contents())
      ensures name !in old(integers) ==> r.Ok? && Contents() == old(Contents()).(integers := old(integers)[name := value])
    {
      if name in integers {
        return Err(DuplicateKey(name));
      }
      integers := integers[name := value];
      r := Ok(());
    }

    /** `insert_float`, as `InsertInteger`. */
    method InsertFloat(name: string, value: seq<real>) returns (r: Result<(), ParamError>)
      modifies this
      ensures name in old(floats) ==> r == Err(DuplicateKey(name)) && Contents() == old(Contents())
      ensures name !in old(floats) ==> r.Ok? && Contents() == old(Contents()).(floats := old(floats)[name := value])
    {
      if name in floats {
        return Err(DuplicateKey(name));
      }
      floats := floats[name := value];
      r := Ok(());
    }

    /** `insert_string`, as `InsertInteger`. */
    method InsertString(name: string, value: string) returns (r: Result<(), ParamError>)
      modifies this
      ensures name in old(strings) ==> r == Err(DuplicateKey(name)) && Contents() == old(Contents())
      ensures name !in old(strings) ==> r.Ok? && Contents() == old(Contents()).(strings := old(strings)[name := value])
    {
      if name in strings {
        return Err(DuplicateKey(name));
      }
      strings := strings[name := value];
      r := Ok(());
    }

    function GetRgb(key: string, default: Option<Rgb>): (r: Result<Rgb, ParamError>)
      reads this
      ensures r == GetOrDefault(key, default, rgbs)
    {
      GetOrDefault(key, default, rgbs)
    }

    function GetString(key: string, default: Option<string>): (r: Result<string, ParamError>)
      reads this
      ensures r == GetOrDefault(key, default, strings)
    {
      GetOrDefault(key, default, strings)
    }

    /** `get_texture`: the stored handle; an absent key panics. */
    function GetTexture(key: string): (r: Result<TextureRef, ParamError>)
      reads this
      ensures r.Ok? <==> key in textures
      ensures r.Ok? ==> r.value == textures[key]
    {
      if key in textures then Ok(textures[key]) else Err(KeyNotFound(key))
    }

    function GetOneFloat(key: string, default: Option<real>): (r: Result<real, ParamError>)
      reads this
      ensures r == GetOneVal(key, default, floats)
    {
      GetOneVal(key, default, floats)
    }

    function GetOneInteger(key: string, default: Option<int>): (r: Result<int, ParamError>)
      reads this
      ensures r == GetOneVal(key, default, integers)
    {
      GetOneVal(key, default, integers)
    }

    function GetOneBool(key: string, default: Option<bool>): (r: Result<bool, ParamError>)
      reads this
      ensures r == GetOneVal(key, default, bools)
    {
      GetOneVal(key, default, bools)
    }

    /** `get_one_point3`: the rule of `get_one_val`, with `unreachable!` in
        place of its panics. */
    function GetOnePoint3(key: string, default: Option<Point3>): (r: Result<Point3, ParamError>)
      reads this
      ensures r == GetOneVal(key, default, point3s)
    {
      match (if key in point3s then Some(point3s[key]) else None, default)
      case (Some(val), _) => if |val| == 1 then Ok(val[0]) else Err(NotSingle(key, |val|))
      case (None, Some(val)) => Ok(val)
      case _ => Err(KeyNotFound(key))
    }

    function GetIntegerArray(key: string): (r: Result<seq<int>, ParamError>)
      reads this
      ensures r == GetArray(key, integers)
    {
      GetArray(key, integers)
    }

    function GetPoint2Array(key: string): (r: Result<seq<Point2>, ParamError>)
      reads this
      ensures r == GetArray(key, point2s)
    {
      GetArray(key, point2s)
    }

    function GetPoint3Array(key: string): (r: Result<seq<Point3>, ParamError>)
      reads this
      ensures r == GetArray(key, point3s)
    {
      GetArray(key, point3s)
    }

    /** `get_normal3_array`: unlike the other entries getters, an absent key
        gives an empty list. */
    function GetNormal3Array(key: string): (r: seq<Normal3>)
      reads this
      ensures key in normal3s ==> r == normal3s[key]
      ensures key !in normal3s ==> r == []
    {
      if key in normal3s then normal3s[key] else []
    }
  }

  // ---------------------------------------------------------------------
  // Building a dictionary

  /** The `match variable_type` in the loop of `build_parameter_dict`,
      with its loops grouping points. */
  method ReadValue(typeName: string, name: string, values: seq<string>, named: map<string, TextureRef>,
                   dir: Option<string>, parsers: Parsers) returns (r: Result<Binding, ParamError>)
    ensures r == ValueBinding(typeName, name, values, named, dir, parsers)
  {
    if typeName == "point2" {
      var fs :- ConvertAll(values, parsers.float);
      var points :- GroupPairs(fs);
      r := Ok(BPoint2s(name, points));
    } else if typeName == "point3" {
      var fs :- ConvertAll(values, parsers.float);
      var points :- GroupTriples(fs, (x, y, z) => Point3(x, y, z));
      r := Ok(BPoint3s(name, points));
    } else if typeName == "normal" {
      var fs :- ConvertAll(values, parsers.float);
      var normals :- GroupTriples(fs, (x, y, z) => Normal3(x, y, z));
      r := Ok(BNormals(name, normals));
    } else {
      r := ValueBinding(typeName, name, values, named, dir, parsers);
    }
  }

  /** The body of the loop of `build_parameter_dict` for one pair. */
  method ReadEntry(decl: Json, value: Option<Json>, named: map<string, TextureRef>,
                   dir: Option<string>, parsers: Parsers) returns (r: Result<Binding, ParamError>)
    ensures r == EntryBinding(decl, value, named, dir, parsers)
  {
    var text :- JsonText(decl);
    var token :- TrimDeclaration(text);
    var parts :- SplitVariableTypeName(token);
    if value.None? {
      return Err(MissingValue(token));
    }
    var values :- FetchVariableValue(value.value);
    r := ReadValue(parts.0, parts.1, values, named, dir, parsers);
  }

  /** `build_parameter_dict`: the pairs of `array` bound in order into a new
      dictionary. `named` holds the scene's named textures and `dir` the
      directory `filename` parameters are relative to. */
  method BuildParameterDict(entries: seq<Json>, named: map<string, TextureRef>, dir: Option<string>,
                            parsers: Parsers) returns (r: Result<ParameterDict, ParamError>)
    ensures var spec := Build(entries, named, dir, parsers);
            r.Err? == spec.Err? && (r.Ok? ==> fresh(r.value) && r.value.Contents() == spec.value)
  {
    var p := EmptyParams;
    var idx := 0;
    while idx < |entries|
      invariant Build(entries, named, dir, parsers) == BuildFrom(entries, idx, p, EntryReader(named, dir, parsers))
    {
      var binding := ReadEntry(entries[idx], ValueAfter(entries, idx), named, dir, parsers);
      if binding.Err? {
        return Err(binding.error);
      }
      p := Bind(p, binding.value);
      idx := idx + 2;
    }
    var dict := new ParameterDict.FromParams(p);
    r := Ok(dict);
  }

  // ---------------------------------------------------------------------
  // Properties

  /** The builder never binds a `bool`: whatever it reads, the `bools` map
      it starts from is the one it ends with. */
  lemma {:induction false} BuildKeepsBools(entries: seq<Json>, idx: nat, p: Params, read: Reader)
    ensures BuildFrom(entries, idx, p, read).Ok? ==> BuildFrom(entries, idx, p, read).value.bools == p.bools
    decreases |entries| - idx
  {
    if idx < |entries| {
      var b := read(entries[idx], ValueAfter(entries, idx));
      if b.Ok? {
        BuildKeepsBools(entries, idx + 2, Bind(p, b.value), read);
      }
    }
  }

  /** So `get_one_bool` on a built dictionary only ever answers with the
      caller's default, or fails without one. */
  lemma BuiltBoolIsDefault(entries: seq<Json>, named: map<string, TextureRef>, dir: Option<string>,
                           parsers: Parsers, key: string, default: Option<bool>)
    requires Build(entries, named, dir, parsers).Ok?
    ensures GetOneVal(key, default, Build(entries, named, dir, parsers).value.bools) ==
              (if default.Some? then Ok(default.value) else Err(KeyNotFound(key)))
  {
    BuildKeepsBools(entries, 0, EmptyParams, EntryReader(named, dir, parsers));
  }

  /** Building from pairs followed by more pairs is building from the first
      and continuing with the rest: the pairs are bound strictly in order,
      so a later declaration of a name overrides an earlier one. */
  lemma {:induction false} BuildAppend(a: seq<Json>, b: seq<Json>, idx: nat, p: Params, read: Reader)
    requires |a| % 2 == 0 && idx % 2 == 0 && idx <= |a|
    ensures BuildFrom(a + b, idx, p, read) ==
              match BuildFrom(a, idx, p, read)
              case Err(e) => Err(e)
              case Ok(q) => BuildFrom(b, 0, q, read)
    decreases |a| - idx
  {
    if idx < |a| {
      assert (a + b)[idx] == a[idx];
      assert ValueAfter(a + b, idx) == ValueAfter(a, idx) by {
        assert (a + b)[idx + 1] == a[idx + 1];
      }
      var e := read(a[idx], ValueAfter(a, idx));
      if e.Ok? {
        BuildAppend(a, b, idx + 2, Bind(p, e.value), read);
      }
    } else {
      BuildShift(a, b, 0, p, read);
    }
  }

  /** Building from `a + b` past the end of `a` is building from `b`. */
  lemma {:induction false} BuildShift(a: seq<Json>, b: seq<Json>, i: nat, p: Params, read: Reader)
    ensures BuildFrom(a + b, |a| + i, p, read) == BuildFrom(b, i, p, read)
    decreases |b| - i
  {
    if i < |b| {
      assert (a + b)[|a| + i] == b[i];
      assert ValueAfter(a + b, |a| + i) == ValueAfter(b, i) by {
        if i + 1 < |b| {
          assert (a + b)[|a| + i + 1] == b[i + 1];
        }
      }
      var e := read(b[i], ValueAfter(b, i));
      if e.Ok? {
        BuildShift(a, b, i + 2, Bind(p, e.value), read);
      }
    }
  }

  /** A declaration `"<type> <name>"` of two words splits into those words. */
  lemma TypeNameRoundTrip(typeName: string, name: string)
    requires |typeName| > 0 && |name| > 0
    requires NoneWhere(typeName, IsRustWhitespace) && NoneWhere(name, IsRustWhitespace)
    ensures SplitVariableTypeName(typeName + " " + name) == Ok((typeName, name))
  {
    SplitWhereTwo(typeName, ' ', name, IsRustWhitespace);
  }

  /** Adding a new key and reading it back: `get_one_val` then answers with
      the single inserted value, or fails on a list of another length,
      whatever the default; every other key answers as before. */
  lemma InsertThenGetOne<T>(dict: map<string, seq<T>>, name: string, value: seq<T>, key: string, default: Option<T>)
    requires name !in dict
    ensures key == name ==> (GetOneVal(key, default, dict[name := value]).Ok? <==> |value| == 1)
    ensures key == name && |value| == 1 ==> GetOneVal(key, default, dict[name := value]) == Ok(value[0])
    ensures key != name ==> GetOneVal(key, default, dict[name := value]) == GetOneVal(key, default, dict)
  {
  }

  /** A `string` declaration of one word binds that name to the text, put
      under the scene's directory when the name is `filename`. */
  lemma StringEntry(name: string, text: string, named: map<string, TextureRef>, dir: Option<string>, parsers: Parsers)
    requires |name| > 0 && NoneWhere(name, IsRustWhitespace)
    ensures EntryBinding(JStr("string " + name), Some(JStr(text)), named, dir, parsers)
         == Ok(BString(name, StoredText(name, text, dir)))
  {
    var decl := "string " + name;
    assert decl == "string" + " " + name;
    assert !PbrtParser.Wrapped(decl) by {
      assert decl[0] == 's';
    }
    assert TrimDeclaration(decl) == Ok(decl);
    TypeNameRoundTrip("string", name);
    assert FetchVariableValue(JStr(text)) == Ok([text]);
  }

  /** A `string` parameter declared last is stored whatever came before
      it, under the scene's directory when it is a `filename`. */
  lemma LastStringWins(a: seq<Json>, name: string, text: string, named: map<string, TextureRef>,
                       dir: Option<string>, parsers: Parsers)
    requires |a| % 2 == 0 && Build(a, named, dir, parsers).Ok?
    requires |name| > 0 && NoneWhere(name, IsRustWhitespace)
    ensures var b := Build(a + [JStr("string " + name), JStr(text)], named, dir, parsers);
            b.Ok? && name in b.value.strings && b.value.strings[name] == StoredText(name, text, dir)
  {
    var read := EntryReader(named, dir, parsers);
    var tail := [JStr("string " + name), JStr(text)];
    BuildAppend(a, tail, 0, EmptyParams, read);
    StringEntry(name, text, named, dir, parsers);
    assert read(tail[0], ValueAfter(tail, 0)) == Ok(BString(name, StoredText(name, text, dir)));
  }
}
