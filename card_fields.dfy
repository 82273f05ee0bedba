/** The lenient field readers of the project-file parser (`_clean_string`, `_floats`,
    `_as_int`, `_as_float`, the enum decoders and `_detect_increment`): malformed text never
    raises, it falls back to a default. */
module CardFields {
  import opened Wrappers
  import opened Text
  import opened Numbers
  import opened Enums

  // ---------------------------------------------------------------------------------------
  // Strings
  // ---------------------------------------------------------------------------------------

  /** A string that neither starts nor ends with whitespace is its own `strip()`. */
  lemma StripUnpadded(s: string)
    requires s != [] && !IsSpace(s[0]) && !IsSpace(s[|s| - 1])
    ensures Strip(s) == s
  {
    assert LStrip(s) == s;
  }

  /** `_clean_string`: strip, drop one pair of enclosing double quotes, strip again. */
  function CleanString(raw: string): (r: string)
    ensures r == [] || (!IsSpace(r[0]) && !IsSpace(r[|r| - 1]))
  {
    var text := Strip(raw);
    var inner := if |text| >= 2 && text[0] == '"' && text[|text| - 1] == '"' then text[1..|text| - 1] else text;
    CleanHead(inner);
    Strip(inner)
  }

  /** A stripped string starts and ends with non-whitespace. */
  lemma CleanHead(s: string)
    ensures Strip(s) == [] || (!IsSpace(Strip(s)[0]) && !IsSpace(Strip(s)[|Strip(s)| - 1]))
  {
    var l := LStrip(s);
    if Strip(s) != [] {
      assert Strip(s) == l[..|Strip(s)|];
    }
  }

  /** A quoted string comes back as its stripped contents; the quotes are removed once. */
  lemma CleanQuoted(s: string)
    ensures CleanString("\"" + s + "\"") == Strip(s)
  {
    var q := "\"" + s + "\"";
    StripUnpadded(q);
    assert q[1..|q| - 1] == s;
  }

  // ---------------------------------------------------------------------------------------
  // Numbers
  // ---------------------------------------------------------------------------------------

  /** Every token `float()` accepts, in order. */
  function ParsedNumbers(tokens: seq<string>): (r: seq<real>)
    ensures |r| <= |tokens|
    decreases |tokens|
  {
    if tokens == [] then []
    else
      var rest := ParsedNumbers(tokens[1..]);
      match ParseFloat(tokens[0])
      case Some(x) => [x] + rest
      case None => rest
  }

  /** `_floats`' loop: unparseable tokens are skipped, and the loop stops as soon as `expected`
      numbers are kept. */
  function FloatsFrom(tokens: seq<string>, expected: Option<int>, numbers: seq<real>): seq<real>
    decreases |tokens|
  {
    if tokens == [] then numbers
    else
      match ParseFloat(tokens[0])
      case None => FloatsFrom(tokens[1..], expected, numbers)
      case Some(x) =>
        var kept := numbers + [x];
        if expected.Some? && |kept| >= expected.value then kept else FloatsFrom(tokens[1..], expected, kept)
  }

  /** `_floats(value, expected=...)` */
  function Floats(value: string, expected: Option<int>): seq<real> {
    FloatsFrom(Words(value), expected, [])
  }

  /** The first `n` elements, or all of them when there are fewer. */
  function Take<T>(s: seq<T>, n: nat): (r: seq<T>)
    ensures |r| <= n && |r| <= |s| && r == s[..|r|]
    ensures |s| <= n ==> r == s
    ensures n <= |s| ==> |r| == n
  {
    if n < |s| then s[..n] else s
  }

  lemma {:induction false} FloatsFromAll(tokens: seq<string>, numbers: seq<real>)
    ensures FloatsFrom(tokens, None, numbers) == numbers + ParsedNumbers(tokens)
    decreases |tokens|
  {
    if tokens == [] {
      AppendEmpty(numbers);
    } else {
      FloatsFromAll(tokens[1..], numbers);
      match ParseFloat(tokens[0])
      case None =>
      case Some(x) =>
        FloatsFromAll(tokens[1..], numbers + [x]);
        SeqAppendAssoc(numbers, [x], ParsedNumbers(tokens[1..]));
    }
  }

  lemma {:induction false} FloatsFromBounded(tokens: seq<string>, e: int, numbers: seq<real>)
    requires |numbers| < MaxInt(e, 1)
    ensures FloatsFrom(tokens, Some(e), numbers) == Take(numbers + ParsedNumbers(tokens), MaxInt(e, 1))
    decreases |tokens|
  {
    var m := MaxInt(e, 1);
    if tokens == [] {
      AppendEmpty(numbers);
    } else {
      var rest := ParsedNumbers(tokens[1..]);
      match ParseFloat(tokens[0])
      case None =>
        FloatsFromBounded(tokens[1..], e, numbers);
      case Some(x) =>
        var kept := numbers + [x];
        SeqAppendAssoc(numbers, [x], rest);
        if |kept| >= e {
          assert (kept + rest)[..|kept|] == kept;
        } else {
          FloatsFromBounded(tokens[1..], e, kept);
        }
    }
  }

  /** `_floats` keeps exactly the parseable tokens, in order: all of them without `expected`,
      otherwise the first `expected` of them (at least one, since the count is checked only
      after a number is kept). */
  lemma FloatsSpec(value: string, expected: Option<int>)
    ensures expected.None? ==> Floats(value, expected) == ParsedNumbers(Words(value))
    ensures expected.Some? ==>
      Floats(value, expected) == Take(ParsedNumbers(Words(value)), MaxInt(expected.value, 1))
  {
    EmptyAppend(ParsedNumbers(Words(value)));
    if expected.None? {
      FloatsFromAll(Words(value), []);
    } else {
      FloatsFromBounded(Words(value), expected.value, []);
    }
  }

  /** The first whitespace-separated token, if any (`value.split()[0]`). */
  function FirstWord(value: string): Option<string> {
    var words := Words(value);
    if words == [] then None else Some(words[0])
  }

  /** `_as_int(value, default=...)`: the first token read as an integer, else the default. */
  function AsInt(value: string, default: int): int {
    var first := FirstWord(value);
    if first.None? then default
    else
      var n := ParseInt(first.value);
      if n.Some? then n.value else default
  }

  /** `_as_float(value, default=...)`: the first token read as a number, else the default. */
  function AsFloat(value: string, default: real): real {
    var first := FirstWord(value);
    if first.None? then default
    else
      var x := ParseFloat(first.value);
      if x.Some? then x.value else default
  }

  /** `_as_float` reads only the first token, where `_floats` skips unreadable ones: they agree
      when the first token is a number, and otherwise `_as_float` gives its default even if a
      later token is a number. */
  lemma AsFloatFirstToken(value: string, default: real)
    ensures var first := FirstWord(value);
      && (first.Some? && ParseFloat(first.value).Some? ==>
            Floats(value, Some(1)) == [AsFloat(value, default)])
      && (first.None? || ParseFloat(first.value).None? ==> AsFloat(value, default) == default)
  {
    var words := Words(value);
    if words != [] && ParseFloat(words[0]).Some? {
      var x := ParseFloat(words[0]).value;
      assert FloatsFrom(words, Some(1), []) == [] + [x];
    }
  }

  /** The digits of `str(n)` denote `n`. */
  lemma {:induction false} DigitsOfNat(n: nat)
    ensures AllDigits(NatToString(n)) && DigitsValue(NatToString(n)) == n
    decreases n
  {
    var s := NatToString(n);
    if n >= 10 {
      DigitsOfNat(n / 10);
      assert s[..|s| - 1] == NatToString(n / 10);
    }
  }

  /** `int(str(k)) == k`. */
  lemma ParseIntOfString(k: int)
    ensures ParseInt(IntToString(k)) == Some(k)
  {
    var t := IntToString(k);
    var digits := NatToString(if k < 0 then -k else k);
    DigitsOfNat(if k < 0 then -k else k);
    StripUnpadded(t);
    if k < 0 {
      assert t[1..] == digits;
    } else {
      assert !HasSign(t);
    }
  }

  /** An integer written with `str` reads back as itself. */
  lemma AsIntOfString(k: int, default: int)
    ensures AsInt(IntToString(k), default) == k
  {
    WordsOfWord(IntToString(k));
    ParseIntOfString(k);
  }

  // ---------------------------------------------------------------------------------------
  // Enum decoders: `Enum(value=...)` by integer code, with a fallback member
  // ---------------------------------------------------------------------------------------

  function TailwaterTypeByCode(k: int): (r: Option<TailwaterType>)
    ensures forall t: TailwaterType :: r == Some(t) <==> t.Code() == k
  {
    if k == 1 then Some(Rectangular) else if k == 2 then Some(Trapezoidal)
    else if k == 3 then Some(Triangular) else if k == 4 then Some(Irregular)
    else if k == 5 then Some(RatingCurve) else if k == 6 then Some(Constant)
    else None
  }

  function SurfaceByCode(k: int): (r: Option<RoadwaySurface>)
    ensures forall s: RoadwaySurface :: r == Some(s) <==> s.Code() == k
  {
    if k == 1 then Some(Paved) else if k == 2 then Some(Gravel)
    else if k == 3 then Some(UserDefinedSurface) else None
  }

  function ShapeByCode(k: int): (r: Option<CulvertShape>)
    ensures forall s: CulvertShape :: r == Some(s) <==> s.Code() == k
  {
    if k == 1 then Some(Circle) else if k == 2 then Some(Box) else None
  }

  function MaterialByCode(k: int): (r: Option<CulvertMaterial>)
    ensures forall m: CulvertMaterial :: r == Some(m) <==> m.Code() == k
  {
    if k == 1 then Some(Concrete) else if k == 2 then Some(CorrugatedSteel)
    else if k == 5 then Some(Hdpe) else None
  }

  /** `_tailwater_type`: the type whose code is the first integer (0 when there is none), and
      CONSTANT for a code no type has. */
  function TailwaterTypeOf(value: string): (t: TailwaterType)
    ensures forall u: TailwaterType :: u.Code() == AsInt(value, 0) ==> t == u
    ensures (forall u: TailwaterType :: u.Code() != AsInt(value, 0)) ==> t == Constant
  {
    var found := TailwaterTypeByCode(AsInt(value, 0));
    if found.Some? then found.value else Constant
  }

  /** `_roadway_surface`: the surface whose code is the first integer (1 when there is none),
      and PAVED for a code no surface has. */
  function SurfaceOf(value: string): (s: RoadwaySurface)
    ensures forall u: RoadwaySurface :: u.Code() == AsInt(value, 1) ==> s == u
    ensures (forall u: RoadwaySurface :: u.Code() != AsInt(value, 1)) ==> s == Paved
  {
    var found := SurfaceByCode(AsInt(value, 1));
    if found.Some? then found.value else Paved
  }

  /** `_culvert_shape`: the shape whose code is the first integer (0 when there is none), and
      CIRCLE for a code no shape has. */
  function ShapeOf(value: string): (s: CulvertShape)
    ensures forall u: CulvertShape :: u.Code() == AsInt(value, 0) ==> s == u
    ensures (forall u: CulvertShape :: u.Code() != AsInt(value, 0)) ==> s == Circle
  {
    var found := ShapeByCode(AsInt(value, 0));
    if found.Some? then found.value else Circle
  }

  /** `_culvert_material`: the material whose code is the first integer (1 when there is none),
      and CONCRETE for a code no material has. */
  function MaterialOf(value: string): (m: CulvertMaterial)
    ensures forall u: CulvertMaterial :: u.Code() == AsInt(value, 1) ==> m == u
    ensures (forall u: CulvertMaterial :: u.Code() != AsInt(value, 1)) ==> m == Concrete
  {
    var found := MaterialByCode(AsInt(value, 1));
    if found.Some? then found.value else Concrete
  }

  /** Every code the writer emits decodes to the member it was written from. */
  lemma DecodeWrittenCodes(t: TailwaterType, s: RoadwaySurface, c: CulvertShape, m: CulvertMaterial)
    ensures TailwaterTypeOf(IntToString(t.Code())) == t
    ensures SurfaceOf(IntToString(s.Code())) == s
    ensures ShapeOf(IntToString(c.Code())) == c
    ensures MaterialOf(IntToString(m.Code())) == m
  {
    AsIntOfString(t.Code(), 0);
    AsIntOfString(s.Code(), 1);
    AsIntOfString(c.Code(), 0);
    AsIntOfString(m.Code(), 1);
  }

  // ---------------------------------------------------------------------------------------
  // Increment detection
  // ---------------------------------------------------------------------------------------

  /** The relative tolerance `_detect_increment` allows between steps. */
  const IncrementTolerance: real := 0.000001

  /** The steps `values[i + 1] - values[i]`. */
  function Deltas(values: seq<real>): (d: seq<real>)
    ensures |values| >= 1 ==> |d| == |values| - 1
    ensures |values| == 0 ==> d == []
    ensures forall i :: 0 <= i < |d| ==> d[i] == values[i + 1] - values[i]
  {
    if |values| == 0 then []
    else seq(|values| - 1, i requires 0 <= i < |values| - 1 => values[i + 1] - values[i])
  }

  /** The tolerance for a first step `first`. */
  function ToleranceFor(first: real): real {
    Max(Abs(first), 1.0) * IncrementTolerance
  }

  /** `_detect_increment`: the first step, when there are at least three values, the first
      step is not zero and every later step is within tolerance of it. */
  function DetectIncrement(values: seq<real>): Option<real> {
    if |values| < 3 then None
    else
      var deltas := Deltas(values);
      var first := deltas[0];
      if Abs(first) <= 0.0 then None
      else if forall i :: 1 <= i < |deltas| ==> Abs(deltas[i] - first) <= ToleranceFor(first) then Some(first)
      else None
  }

  /** A detected increment is the first step: non-zero, with at least three values and every
      step within tolerance of it. */
  lemma DetectedIncrement(values: seq<real>)
    requires DetectIncrement(values).Some?
    ensures |values| >= 3
    ensures var d := DetectIncrement(values).value;
      && d == values[1] - values[0] && d != 0.0
      && forall i :: 0 <= i < |values| - 1 ==> Abs((values[i + 1] - values[i]) - d) <= ToleranceFor(d)
  {
    var d := DetectIncrement(values).value;
    forall i | 0 <= i < |values| - 1
      ensures Abs((values[i + 1] - values[i]) - d) <= ToleranceFor(d)
    {
      assert Deltas(values)[i] == values[i + 1] - values[i];
    }
  }

  /** At least three values in exact steps of a non-zero `d` are detected with increment `d`. */
  lemma EvenStepsDetected(values: seq<real>, d: real)
    requires |values| >= 3 && d != 0.0
    requires forall i :: 0 <= i < |values| - 1 ==> values[i + 1] - values[i] == d
    ensures DetectIncrement(values) == Some(d)
  {
    var deltas := Deltas(values);
    assert deltas[0] == d;
    forall i | 1 <= i < |deltas| ensures Abs(deltas[i] - d) <= ToleranceFor(d) {
      assert deltas[i] == values[i + 1] - values[i];
    }
  }

  /** Fewer than three values, or a zero first step, give no increment. */
  lemma ShortOrFlatNotDetected(values: seq<real>)
    requires |values| < 3 || values[1] == values[0]
    ensures DetectIncrement(values).None?
  {
  }

  /** A later step that strays from the first by more than the tolerance gives no increment. */
  lemma StrayStepNotDetected(values: seq<real>, i: nat)
    requires 1 <= i < |values| - 1
    requires Abs((values[i + 1] - values[i]) - (values[1] - values[0])) > ToleranceFor(values[1] - values[0])
    ensures DetectIncrement(values).None?
  {
    var deltas := Deltas(values);
    assert deltas[0] == values[1] - values[0];
    assert deltas[i] == values[i + 1] - values[i];
  }
}
