/** The enum tables of the domain (integer codes, names, labels) and `coerce_enum`, which
    turns a loosely typed value into an enum member. */
module Enums {
  import opened Wrappers
  import opened PyValues
  import opened References

  // ---------------------------------------------------------------------------------------
  // Tables
  // ---------------------------------------------------------------------------------------

  /** A string-valued enum: how HY-8 interprets the flow definition. */
  datatype FlowMethod = MinDesignMax | MinMaxIncrement | UserDefined {
    function Name(): string {
      match this
      case MinDesignMax => "MIN_DESIGN_MAX"
      case MinMaxIncrement => "MIN_MAX_INCREMENT"
      case UserDefined => "USER_DEFINED"
    }
    function Value(): string {
      match this
      case MinDesignMax => "min-design-max"
      case MinMaxIncrement => "min-max-increment"
      case UserDefined => "user-defined"
    }
  }

  const FlowMethods: seq<FlowMethod> := [MinDesignMax, MinMaxIncrement, UserDefined]

  datatype TailwaterType = Rectangular | Trapezoidal | Triangular | Irregular | RatingCurve | Constant {
    function Name(): string {
      match this
      case Rectangular => "RECTANGULAR"
      case Trapezoidal => "TRAPEZOIDAL"
      case Triangular => "TRIANGULAR"
      case Irregular => "IRREGULAR"
      case RatingCurve => "RATING_CURVE"
      case Constant => "CONSTANT"
    }
    function Code(): int {
      match this
      case Rectangular => 1
      case Trapezoidal => 2
      case Triangular => 3
      case Irregular => 4
      case RatingCurve => 5
      case Constant => 6
    }
  }

  const TailwaterTypes: seq<TailwaterType> :=
    [Rectangular, Trapezoidal, Triangular, Irregular, RatingCurve, Constant]

  datatype RoadwaySurface = Paved | Gravel | UserDefinedSurface {
    function Name(): string {
      match this
      case Paved => "PAVED"
      case Gravel => "GRAVEL"
      case UserDefinedSurface => "USER_DEFINED"
    }
    function Code(): int {
      match this
      case Paved => 1
      case Gravel => 2
      case UserDefinedSurface => 3
    }
  }

  const RoadwaySurfaces: seq<RoadwaySurface> := [Paved, Gravel, UserDefinedSurface]

  datatype CulvertShape = Circle | Box {
    function Name(): string {
      match this
      case Circle => "CIRCLE"
      case Box => "BOX"
    }
    function Code(): int {
      match this
      case Circle => 1
      case Box => 2
    }
  }

  const CulvertShapes: seq<CulvertShape> := [Circle, Box]

  datatype CulvertMaterial = Concrete | CorrugatedSteel | Hdpe {
    function Name(): string {
      match this
      case Concrete => "CONCRETE"
      case CorrugatedSteel => "CORRUGATED_STEEL"
      case Hdpe => "HDPE"
    }
    function Code(): int {
      match this
      case Concrete => 1
      case CorrugatedSteel => 2
      case Hdpe => 5
    }
  }

  const CulvertMaterials: seq<CulvertMaterial> := [Concrete, CorrugatedSteel, Hdpe]

  /** The described integer enums keep an integer code and a label. */
  datatype InletType = NotSet | Straight | SideTapered | SlopeTapered | SingleBrokenBack | DoubleBrokenBack {
    function Code(): int {
      match this
      case NotSet => 0
      case Straight => 1
      case SideTapered => 2
      case SlopeTapered => 3
      case SingleBrokenBack => 4
      case DoubleBrokenBack => 5
    }
    function Name(): string {
      match this
      case NotSet => "NOT_SET"
      case Straight => "STRAIGHT"
      case SideTapered => "SIDE_TAPERED"
      case SlopeTapered => "SLOPE_TAPERED"
      case SingleBrokenBack => "SINGLE_BROKEN_BACK"
      case DoubleBrokenBack => "DOUBLE_BROKEN_BACK"
    }
    function Label(): string {
      match this
      case NotSet => "Not set"
      case Straight => "Straight"
      case SideTapered => "Side tapered"
      case SlopeTapered => "Slope tapered"
      case SingleBrokenBack => "Single broken-back"
      case DoubleBrokenBack => "Double broken-back"
    }
  }

  const InletTypes: seq<InletType> :=
    [NotSet, Straight, SideTapered, SlopeTapered, SingleBrokenBack, DoubleBrokenBack]

  datatype InletEdgeType =
    | ThinEdgeProjecting | GroovedEndProjecting | GroovedEndWithHeadwall | BeveledEdge
    | SquareEdgeWithHeadwall | MiteredToSlope | Headwall
  {
    function Code(): int {
      match this
      case ThinEdgeProjecting => 0
      case GroovedEndProjecting => 1
      case GroovedEndWithHeadwall => 2
      case BeveledEdge => 3
      case SquareEdgeWithHeadwall => 4
      case MiteredToSlope => 5
      case Headwall => 6
    }
    function Name(): string {
      match this
      case ThinEdgeProjecting => "THIN_EDGE_PROJECTING"
      case GroovedEndProjecting => "GROOVED_END_PROJECTING"
      case GroovedEndWithHeadwall => "GROOVED_END_WITH_HEADWALL"
      case BeveledEdge => "BEVELED_EDGE"
      case SquareEdgeWithHeadwall => "SQUARE_EDGE_WITH_HEADWALL"
      case MiteredToSlope => "MITERED_TO_SLOPE"
      case Headwall => "HEADWALL"
    }
    function Label(): string {
      match this
      case ThinEdgeProjecting => "Thin edge projecting"
      case GroovedEndProjecting => "Grooved end projecting"
      case GroovedEndWithHeadwall => "Grooved end with headwall"
      case BeveledEdge => "Beveled edge"
      case SquareEdgeWithHeadwall => "Square edge with headwall"
      case MiteredToSlope => "Mitered to conform with fill slope"
      case Headwall => "Headwall / flared end"
    }
  }

  const InletEdgeTypes: seq<InletEdgeType> :=
    [ThinEdgeProjecting, GroovedEndProjecting, GroovedEndWithHeadwall, BeveledEdge,
     SquareEdgeWithHeadwall, MiteredToSlope, Headwall]

  /** The HY-8 7.1 edge numbering: members CODE_0 .. CODE_4. */
  datatype InletEdgeType71 = Code0 | Code1 | Code2 | Code3 | Code4 {
    function Code(): int {
      match this
      case Code0 => 0
      case Code1 => 1
      case Code2 => 2
      case Code3 => 3
      case Code4 => 4
    }
    function Name(): string {
      match this
      case Code0 => "CODE_0"
      case Code1 => "CODE_1"
      case Code2 => "CODE_2"
      case Code3 => "CODE_3"
      case Code4 => "CODE_4"
    }
    function Label(): string {
      match this
      case Code0 => "Legacy edge code 0"
      case Code1 => "Legacy edge code 1"
      case Code2 => "Legacy edge code 2"
      case Code3 => "Legacy edge code 3"
      case Code4 => "Legacy edge code 4"
    }
  }

  const InletEdgeTypes71: seq<InletEdgeType71> := [Code0, Code1, Code2, Code3, Code4]

  /** Improved inlet edge treatments: members NONE and TYPE_1 .. TYPE_6. */
  datatype ImprovedInletEdgeType = NoImprovement | Type1 | Type2 | Type3 | Type4 | Type5 | Type6 {
    function Code(): int {
      match this
      case NoImprovement => 0
      case Type1 => 1
      case Type2 => 2
      case Type3 => 3
      case Type4 => 4
      case Type5 => 5
      case Type6 => 6
    }
    function Name(): string {
      match this
      case NoImprovement => "NONE"
      case Type1 => "TYPE_1"
      case Type2 => "TYPE_2"
      case Type3 => "TYPE_3"
      case Type4 => "TYPE_4"
      case Type5 => "TYPE_5"
      case Type6 => "TYPE_6"
    }
    function Label(): string {
      match this
      case NoImprovement => "None"
      case Type1 => "Improved inlet type 1"
      case Type2 => "Improved inlet type 2"
      case Type3 => "Improved inlet type 3"
      case Type4 => "Improved inlet type 4"
      case Type5 => "Improved inlet type 5"
      case Type6 => "Improved inlet type 6"
    }
  }

  const ImprovedInletEdgeTypes: seq<ImprovedInletEdgeType> :=
    [NoImprovement, Type1, Type2, Type3, Type4, Type5, Type6]

  // ---------------------------------------------------------------------------------------
  // Lookup by code: each table is a bijection between members and codes
  // ---------------------------------------------------------------------------------------

  function ShapeFromCode(c: int): (r: Option<CulvertShape>)
    ensures r.Some? ==> r.value.Code() == c
    ensures forall s: CulvertShape :: s.Code() == c ==> r == Some(s)
  {
    if c == 1 then Some(Circle) else if c == 2 then Some(Box) else None
  }

  function MaterialFromCode(c: int): (r: Option<CulvertMaterial>)
    ensures r.Some? ==> r.value.Code() == c
    ensures forall m: CulvertMaterial :: m.Code() == c ==> r == Some(m)
  {
    if c == 1 then Some(Concrete) else if c == 2 then Some(CorrugatedSteel)
    else if c == 5 then Some(Hdpe) else None
  }

  function TailwaterTypeFromCode(c: int): (r: Option<TailwaterType>)
    ensures forall t: TailwaterType :: t.Code() == c ==> r == Some(t)
    ensures r.Some? <==> 1 <= c <= 6
    ensures r.Some? ==> r.value.Code() == c
  {
    if 1 <= c <= 6 then Some(TailwaterTypes[c - 1]) else None
  }

  function SurfaceFromCode(c: int): (r: Option<RoadwaySurface>)
    ensures forall w: RoadwaySurface :: w.Code() == c ==> r == Some(w)
    ensures r.Some? <==> 1 <= c <= 3
    ensures r.Some? ==> r.value.Code() == c
  {
    if 1 <= c <= 3 then Some(RoadwaySurfaces[c - 1]) else None
  }

  /** Inlet codes run contiguously from 0. */
  function InletTypeFromCode(c: int): (r: Option<InletType>)
    ensures forall i: InletType :: i.Code() == c ==> r == Some(i)
    ensures r.Some? <==> 0 <= c < 6
    ensures r.Some? ==> r.value.Code() == c
  {
    if 0 <= c < 6 then Some(InletTypes[c]) else None
  }

  function InletEdgeTypeFromCode(c: int): (r: Option<InletEdgeType>)
    ensures forall e: InletEdgeType :: e.Code() == c ==> r == Some(e)
    ensures r.Some? <==> 0 <= c < 7
    ensures r.Some? ==> r.value.Code() == c
  {
    if 0 <= c < 7 then Some(InletEdgeTypes[c]) else None
  }

  function InletEdgeType71FromCode(c: int): (r: Option<InletEdgeType71>)
    ensures forall e: InletEdgeType71 :: e.Code() == c ==> r == Some(e)
    ensures r.Some? <==> 0 <= c < 5
    ensures r.Some? ==> r.value.Code() == c
  {
    if 0 <= c < 5 then Some(InletEdgeTypes71[c]) else None
  }

  function ImprovedInletEdgeTypeFromCode(c: int): (r: Option<ImprovedInletEdgeType>)
    ensures forall x: ImprovedInletEdgeType :: x.Code() == c ==> r == Some(x)
    ensures r.Some? <==> 0 <= c < 7
    ensures r.Some? ==> r.value.Code() == c
  {
    if 0 <= c < 7 then Some(ImprovedInletEdgeTypes[c]) else None
  }

  // ---------------------------------------------------------------------------------------
  // coerce_enum
  // ---------------------------------------------------------------------------------------

  /** The position of the first member satisfying `p`. */
  function FindFirst<E>(members: seq<E>, p: E -> bool): (r: Option<nat>)
    ensures r.Some? ==> r.value < |members| && p(members[r.value])
    ensures r.Some? ==> forall j :: 0 <= j < r.value ==> !p(members[j])
    ensures r.None? ==> forall j :: 0 <= j < |members| ==> !p(members[j])
    decreases |members|
  {
    if members == [] then None
    else if p(members[0]) then Some(0)
    else
      var rest := FindFirst(members[1..], p);
      if rest.Some? then Some(rest.value + 1) else None
  }

  /** `coerce_enum(cls, value, default=...)`: `None` gives the default, a member of the class is
      returned as is, a string is tried as a member name, and anything else (including a string
      that names no member) is looked up by value with Python's `==`. */
  function CoerceEnum<E>(cls: string, members: seq<E>, nameOf: E -> string, valueOf: E -> PyValue,
                         v: PyValue, default: E): (r: Result<E>)
    ensures v.PNone? ==> r == Ok(default)
    ensures r.Ok? && !v.PNone? ==> exists i :: 0 <= i < |members| && members[i] == r.value
  {
    if v.PNone? then Ok(default)
    else
      var byName := if v.PMember? && v.cls == cls then FindFirst(members, m => nameOf(m) == v.name)
                    else if v.PStr? then FindFirst(members, m => nameOf(m) == v.s)
                    else None;
      if byName.Some? then Ok(members[byName.value])
      else
        var byValue := FindFirst(members, m => PyEq(valueOf(m), v));
        if byValue.Some? then Ok(members[byValue.value])
        else Err("value is not a valid " + cls)
  }

  /** Distinct names: no two positions of the table share a name. */
  predicate NamesDistinct<E>(members: seq<E>, nameOf: E -> string) {
    forall i, j :: 0 <= i < j < |members| ==> nameOf(members[i]) != nameOf(members[j])
  }

  lemma TailwaterTypeNamesDistinct()
    ensures NamesDistinct(TailwaterTypes, TailwaterTypeName)
  {
  }

  lemma InletTypeNamesDistinct()
    ensures NamesDistinct(InletTypes, InletTypeName)
  {
  }

  lemma InletEdgeTypeNamesDistinct()
    ensures NamesDistinct(InletEdgeTypes, InletEdgeTypeName)
  {
  }

  lemma InletEdgeType71NamesDistinct()
    ensures NamesDistinct(InletEdgeTypes71, InletEdgeType71Name)
  {
  }

  lemma ImprovedInletEdgeTypeNamesDistinct()
    ensures NamesDistinct(ImprovedInletEdgeTypes, ImprovedInletEdgeTypeName)
  {
  }

  lemma SurfaceNamesDistinct()
    ensures NamesDistinct(RoadwaySurfaces, SurfaceName)
  {
  }

  /** A member's name, as a string or as the member itself, coerces back to that member. */
  lemma CoerceByName<E>(cls: string, members: seq<E>, nameOf: E -> string, valueOf: E -> PyValue,
                        k: nat, default: E)
    requires k < |members| && NamesDistinct(members, nameOf)
    ensures CoerceEnum(cls, members, nameOf, valueOf, PStr(nameOf(members[k])), default) == Ok(members[k])
    ensures CoerceEnum(cls, members, nameOf, valueOf, PMember(cls, nameOf(members[k])), default) == Ok(members[k])
  {
    var n := nameOf(members[k]);
    var found := FindFirst(members, m => nameOf(m) == n);
    assert (m => nameOf(m) == n)(members[k]);
    assert found.Some? && found.value == k;
  }

  /** A value that names no member and equals exactly one member's value coerces to it. */
  lemma CoerceByValue<E>(cls: string, members: seq<E>, nameOf: E -> string, valueOf: E -> PyValue,
                         v: PyValue, k: nat, default: E)
    requires k < |members| && !v.PNone? && !v.PMember?
    requires v.PStr? ==> forall j :: 0 <= j < |members| ==> nameOf(members[j]) != v.s
    requires forall j :: 0 <= j < |members| ==> (PyEq(valueOf(members[j]), v) <==> j == k)
    ensures CoerceEnum(cls, members, nameOf, valueOf, v, default) == Ok(members[k])
  {
    var byValue := FindFirst(members, m => PyEq(valueOf(m), v));
    assert (m => PyEq(valueOf(m), v))(members[k]);
    if v.PStr? {
      var byName := FindFirst(members, m => nameOf(m) == v.s);
      assert byName.None?;
    }
  }

  /** A value that matches no name and no member value is rejected. */
  lemma CoerceUnknown<E>(cls: string, members: seq<E>, nameOf: E -> string, valueOf: E -> PyValue,
                         v: PyValue, default: E)
    requires !v.PNone? && !v.PMember?
    requires v.PStr? ==> forall j :: 0 <= j < |members| ==> nameOf(members[j]) != v.s
    requires forall j :: 0 <= j < |members| ==> !PyEq(valueOf(members[j]), v)
    ensures CoerceEnum(cls, members, nameOf, valueOf, v, default).Err?
  {
    var byValue := FindFirst(members, m => PyEq(valueOf(m), v));
    if v.PStr? {
      var byName := FindFirst(members, m => nameOf(m) == v.s);
    }
  }

  function ShapeName(s: CulvertShape): string { s.Name() }
  function MaterialName(m: CulvertMaterial): string { m.Name() }
  function TailwaterTypeName(t: TailwaterType): string { t.Name() }
  function SurfaceName(s: RoadwaySurface): string { s.Name() }
  function InletTypeName(t: InletType): string { t.Name() }
  function InletEdgeTypeName(t: InletEdgeType): string { t.Name() }
  function InletEdgeType71Name(t: InletEdgeType71): string { t.Name() }
  function ImprovedInletEdgeTypeName(t: ImprovedInletEdgeType): string { t.Name() }
  function FlowMethodName(m: FlowMethod): string { m.Name() }

  function ShapeValue(s: CulvertShape): PyValue { PInt(s.Code()) }
  function MaterialValue(m: CulvertMaterial): PyValue { PInt(m.Code()) }
  function TailwaterTypeValue(t: TailwaterType): PyValue { PInt(t.Code()) }
  function SurfaceValue(s: RoadwaySurface): PyValue { PInt(s.Code()) }
  function InletTypeValue(t: InletType): PyValue { PInt(t.Code()) }
  function InletEdgeTypeValue(t: InletEdgeType): PyValue { PInt(t.Code()) }
  function InletEdgeType71Value(t: InletEdgeType71): PyValue { PInt(t.Code()) }
  function ImprovedInletEdgeTypeValue(t: ImprovedInletEdgeType): PyValue { PInt(t.Code()) }
  function FlowMethodValue(m: FlowMethod): PyValue { PStr(m.Value()) }

  function CoerceShape(v: PyValue, default: CulvertShape): Result<CulvertShape> {
    CoerceEnum("CulvertShape", CulvertShapes, ShapeName, ShapeValue, v, default)
  }

  function CoerceMaterial(v: PyValue, default: CulvertMaterial): Result<CulvertMaterial> {
    CoerceEnum("CulvertMaterial", CulvertMaterials, MaterialName, MaterialValue, v, default)
  }

  function CoerceTailwaterType(v: PyValue, default: TailwaterType): Result<TailwaterType> {
    CoerceEnum("TailwaterType", TailwaterTypes, TailwaterTypeName, TailwaterTypeValue, v, default)
  }

  function CoerceSurface(v: PyValue, default: RoadwaySurface): Result<RoadwaySurface> {
    CoerceEnum("RoadwaySurface", RoadwaySurfaces, SurfaceName, SurfaceValue, v, default)
  }

  function CoerceInletType(v: PyValue, default: InletType): Result<InletType> {
    CoerceEnum("InletType", InletTypes, InletTypeName, InletTypeValue, v, default)
  }

  function CoerceInletEdgeType(v: PyValue, default: InletEdgeType): Result<InletEdgeType> {
    CoerceEnum("InletEdgeType", InletEdgeTypes, InletEdgeTypeName, InletEdgeTypeValue, v, default)
  }

  function CoerceInletEdgeType71(v: PyValue, default: InletEdgeType71): Result<InletEdgeType71> {
    CoerceEnum("InletEdgeType71", InletEdgeTypes71, InletEdgeType71Name, InletEdgeType71Value, v, default)
  }

  function CoerceImprovedInletEdgeType(v: PyValue, default: ImprovedInletEdgeType): Result<ImprovedInletEdgeType> {
    CoerceEnum("ImprovedInletEdgeType", ImprovedInletEdgeTypes, ImprovedInletEdgeTypeName, ImprovedInletEdgeTypeValue, v, default)
  }

  function UnitName(u: UnitSystem): string { u.Name() }
  function UnitValue(u: UnitSystem): PyValue { PTuple([PStr(u.CliFlag()), PInt(u.ProjectFlag())]) }

  /** `coerce_enum(UnitSystem, ...)`: the members' values are the (flag, code) tuples. */
  function CoerceUnits(v: PyValue, default: UnitSystem): Result<UnitSystem> {
    CoerceEnum("UnitSystem", UnitSystems, UnitName, UnitValue, v, default)
  }

  /** A unit system's name coerces back to it. */
  lemma UnitNameCoerces(u: UnitSystem, d: UnitSystem)
    ensures CoerceUnits(PStr(u.Name()), d) == Ok(u)
  {
    var k := if u.English? then 0 else 1;
    assert UnitSystems[k] == u;
    CoerceByName("UnitSystem", UnitSystems, UnitName, UnitValue, k, d);
  }

  function CoerceFlowMethod(v: PyValue, default: FlowMethod): Result<FlowMethod> {
    CoerceEnum("FlowMethod", FlowMethods, FlowMethodName, FlowMethodValue, v, default)
  }

  /** `to_dict` writes a shape or material by name, and `coerce_enum` maps the name back. */
  lemma ShapeMaterialNamesRoundTrip(s: CulvertShape, m: CulvertMaterial, ds: CulvertShape, dm: CulvertMaterial)
    ensures CoerceShape(PStr(s.Name()), ds) == Ok(s)
    ensures CoerceMaterial(PStr(m.Name()), dm) == Ok(m)
  {
    var k := if s.Circle? then 0 else 1;
    assert CulvertShapes[k] == s;
    CoerceByName("CulvertShape", CulvertShapes, ShapeName, ShapeValue, k, ds);
    var j := if m.Concrete? then 0 else if m.CorrugatedSteel? then 1 else 2;
    assert CulvertMaterials[j] == m;
    CoerceByName("CulvertMaterial", CulvertMaterials, MaterialName, MaterialValue, j, dm);
  }

  /** A flow method coerces from its name and, because the enum is string-valued, also from its
      value text. */
  lemma FlowMethodCoerce(m: FlowMethod, d: FlowMethod)
    ensures CoerceFlowMethod(PStr(m.Name()), d) == Ok(m)
    ensures CoerceFlowMethod(PStr(m.Value()), d) == Ok(m)
  {
    var k := if m.MinDesignMax? then 0 else if m.MinMaxIncrement? then 1 else 2;
    assert FlowMethods[k] == m;
    CoerceByName("FlowMethod", FlowMethods, FlowMethodName, FlowMethodValue, k, d);
    FlowValueTextsDistinct(m);
    CoerceByValue("FlowMethod", FlowMethods, FlowMethodName, FlowMethodValue, PStr(m.Value()), k, d);
  }

  /** The value texts of the flow methods are not member names and tell the members apart. */
  lemma FlowValueTextsDistinct(m: FlowMethod)
    ensures forall j :: 0 <= j < |FlowMethods| ==> FlowMethodName(FlowMethods[j]) != m.Value()
    ensures forall j :: 0 <= j < |FlowMethods| ==>
      (PyEq(FlowMethodValue(FlowMethods[j]), PStr(m.Value())) <==> FlowMethods[j] == m)
  {
  }

  /** An integer code coerces to the member carrying it; codes no member carries are rejected. */
  lemma ShapeCodeCoerce(c: int, d: CulvertShape)
    ensures ShapeFromCode(c).Some? ==> CoerceShape(PInt(c), d) == Ok(ShapeFromCode(c).value)
    ensures ShapeFromCode(c).None? ==> CoerceShape(PInt(c), d).Err?
  {
    if c == 1 || c == 2 {
      CoerceByValue("CulvertShape", CulvertShapes, ShapeName, ShapeValue, PInt(c), c - 1, d);
    } else {
      CoerceUnknown("CulvertShape", CulvertShapes, ShapeName, ShapeValue, PInt(c), d);
    }
  }

  /** Each inlet enum's name coerces back to the same member, whatever the default. */
  lemma InletTypeNameCoerces(t: InletType)
    ensures CoerceInletType(PStr(t.Name()), Straight) == Ok(t)
  {
    assert InletTypes[t.Code()] == t;
    InletTypeNamesDistinct();
    CoerceByName("InletType", InletTypes, InletTypeName, InletTypeValue, t.Code(), Straight);
  }

  lemma InletEdgeTypeNameCoerces(e: InletEdgeType)
    ensures CoerceInletEdgeType(PStr(e.Name()), ThinEdgeProjecting) == Ok(e)
  {
    assert InletEdgeTypes[e.Code()] == e;
    InletEdgeTypeNamesDistinct();
    CoerceByName("InletEdgeType", InletEdgeTypes, InletEdgeTypeName, InletEdgeTypeValue, e.Code(), ThinEdgeProjecting);
  }

  lemma InletEdgeType71NameCoerces(e71: InletEdgeType71)
    ensures CoerceInletEdgeType71(PStr(e71.Name()), Code0) == Ok(e71)
  {
    assert InletEdgeTypes71[e71.Code()] == e71;
    InletEdgeType71NamesDistinct();
    CoerceByName("InletEdgeType71", InletEdgeTypes71, InletEdgeType71Name, InletEdgeType71Value, e71.Code(), Code0);
  }

  lemma ImprovedInletEdgeTypeNameCoerces(x: ImprovedInletEdgeType)
    ensures CoerceImprovedInletEdgeType(PStr(x.Name()), NoImprovement) == Ok(x)
  {
    assert ImprovedInletEdgeTypes[x.Code()] == x;
    ImprovedInletEdgeTypeNamesDistinct();
    CoerceByName("ImprovedInletEdgeType", ImprovedInletEdgeTypes, ImprovedInletEdgeTypeName,
                 ImprovedInletEdgeTypeValue, x.Code(), NoImprovement);
  }
}
