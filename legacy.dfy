/** The older single-module copy of the domain classes (`src/run_hy8/models.py`), which the
    `models` package shadows. Its classes carry the same fields as the package's, so the values
    here are the package's; what differs is validation (at least two user flows, the
    Min/Design/Max check made on the user values when there are any, the rise checked only for
    boxes, a different span message) and `assert_valid`, which raises only when there is
    something to report. Tailwater and roadway validation are the package's, message for
    message, and `_coerce_enum` is `Enums.CoerceEnum`. */
module LegacyModels {
  import opened Wrappers
  import opened Text
  import opened Base
  import opened References
  import Flows
  import Tailwaters
  import Roadways
  import Barrels
  import Crossings
  import Projects
  import Enums

  // ---------------------------------------------------------------------------------------
  // Flows
  // ---------------------------------------------------------------------------------------

  const ThreeFlows: string := "Provide exactly three flows for Min/Design/Max problems."
  const RangeNotIncreasing: string := "Min/Design/Max must be strictly increasing."
  const NegativeMinimum: string := "Minimum flow must be >= 0."
  const TwoUserFlows: string := "Provide at least two user-defined flow values."
  const UserNotIncreasing: string := "User-defined flows must be strictly increasing."
  const LabelCount: string := "Provide the same number of flow labels as flow values."

  /** `_min_design_max_values`: the user values when there are any, else the three range fields. */
  function MinDesignMaxValues(f: Flows.FlowValue): seq<real> {
    if f.userValues != [] then f.userValues else [f.minimum, f.design, f.maximum]
  }

  /** `sequence()`: a Min/Design/Max definition hands out its user values when it has any. */
  function Sequence(f: Flows.FlowValue): Result<seq<real>> {
    match f.flowMethod
    case MinDesignMax => Ok(MinDesignMaxValues(f))
    case UserDefined => Ok(f.userValues)
    case MinMaxIncrement => Err(Flows.UnsupportedMethod(f.flowMethod))
  }

  /** The two copies hand out the same flows except for a Min/Design/Max definition that also
      holds user values other than its three range fields. */
  lemma SequenceAgainstPackage(f: Flows.FlowValue)
    ensures f.flowMethod.MinDesignMax? && f.userValues != [] ==>
      Sequence(f) == Ok(f.userValues) && Flows.Sequence(f) == Ok([f.minimum, f.design, f.maximum])
    ensures Sequence(f) == Flows.Sequence(f) <==>
      !f.flowMethod.MinDesignMax? || f.userValues == [] || f.userValues == [f.minimum, f.design, f.maximum]
  {
  }

  /** The definition the legacy validator accepts. */
  predicate FlowValid(f: Flows.FlowValue) {
    match f.flowMethod
    case MinDesignMax =>
      var v := MinDesignMaxValues(f);
      |v| == 3 && v[0] < v[1] < v[2] && v[0] >= 0.0
    case UserDefined =>
      |f.userValues| >= 2 && Flows.StrictlyIncreasing(f.userValues)
      && (f.userValueLabels == [] || |f.userValueLabels| == |f.userValues|)
    case MinMaxIncrement => false
  }

  /** The Min/Design/Max checks: a wrong number of user values is the only message given, since
      the ordering checks are skipped when there are not exactly three values. */
  function ValidateRange(f: Flows.FlowValue, prefix: string): (errors: seq<string>)
    ensures forall e :: e in errors ==> StartsWith(e, prefix)
    ensures errors == [] <==>
      var v := MinDesignMaxValues(f); |v| == 3 && v[0] < v[1] < v[2] && v[0] >= 0.0
    ensures f.userValues != [] && |f.userValues| != 3 ==> errors == [prefix + ThreeFlows]
    ensures |MinDesignMaxValues(f)| == 3 && MinDesignMaxValues(f)[0] < 0.0 ==> prefix + NegativeMinimum in errors
  {
    var v := MinDesignMaxValues(f);
    var count := if f.userValues != [] && |f.userValues| != 3 then [prefix + ThreeFlows] else [];
    if |v| != 3 then count
    else
      count
      + (if !(v[0] < v[1] < v[2]) then [prefix + RangeNotIncreasing] else [])
      + (if v[0] < 0.0 then [prefix + NegativeMinimum] else [])
  }

  /** The user-defined checks: fewer than two values, or a step that does not increase, and
      labels that are present but not one per value. */
  function ValidateUser(f: Flows.FlowValue, prefix: string): (errors: seq<string>)
    ensures forall e :: e in errors ==> StartsWith(e, prefix)
    ensures errors == [] <==>
      |f.userValues| >= 2 && Flows.StrictlyIncreasing(f.userValues)
      && (f.userValueLabels == [] || |f.userValueLabels| == |f.userValues|)
    ensures |f.userValues| < 2 ==> prefix + TwoUserFlows in errors
  {
    Flows.StepScanCorrect(f.userValues);
    (if |f.userValues| < 2 then [prefix + TwoUserFlows]
     else if Flows.SomeStepNotIncreasing(f.userValues) then [prefix + UserNotIncreasing]
     else [])
    + (if f.userValueLabels != [] && |f.userValueLabels| != |f.userValues|
       then [prefix + LabelCount] else [])
  }

  /** `FlowDefinition.validate(prefix)` of the legacy copy. */
  function ValidateFlow(f: Flows.FlowValue, prefix: string): (errors: seq<string>)
    ensures forall e :: e in errors ==> StartsWith(e, prefix)
    ensures errors == [] <==> FlowValid(f)
    ensures f.flowMethod.MinMaxIncrement? ==> errors == [prefix + Flows.UnsupportedMethod(f.flowMethod)]
  {
    match f.flowMethod
    case MinDesignMax => ValidateRange(f, prefix)
    case UserDefined => ValidateUser(f, prefix)
    case MinMaxIncrement => [prefix + Flows.UnsupportedMethod(f.flowMethod)]
  }

  /** A definition the legacy validator accepts has a strictly increasing sequence; a
      Min/Design/Max one has exactly three flows, the first not negative. */
  lemma ValidFlowSequence(f: Flows.FlowValue)
    requires ValidateFlow(f, "") == []
    ensures Sequence(f).Ok? && Flows.StrictlyIncreasing(Sequence(f).value) && |Sequence(f).value| >= 2
    ensures f.flowMethod.MinDesignMax? ==> |Sequence(f).value| == 3 && Sequence(f).value[0] >= 0.0
  {
  }

  /** A user-defined definition needs two values here where the package needs one: the legacy
      validator accepts exactly what the package accepts with a second value on top. */
  lemma UserFlowsAgainstPackage(f: Flows.FlowValue)
    requires f.flowMethod.UserDefined?
    ensures FlowValid(f) <==> Flows.FlowValid(f) && |f.userValues| >= 2
    ensures |f.userValues| == 1 && (f.userValueLabels == [] || |f.userValueLabels| == 1) ==>
      Flows.FlowValid(f) && !FlowValid(f)
  {
  }

  /** With three user values, a Min/Design/Max definition is judged by those values alone,
      whatever its range fields hold. */
  lemma RangeJudgedByUserValues(f: Flows.FlowValue)
    requires f.flowMethod.MinDesignMax? && |f.userValues| == 3
    ensures FlowValid(f) <==>
      f.userValues[0] < f.userValues[1] < f.userValues[2] && f.userValues[0] >= 0.0
    ensures Flows.FlowValid(f) <==> f.minimum < f.design < f.maximum && f.minimum >= 0.0
  {
  }

  /** `add_user_flow` is the package's (`Flows.WithUserFlow`). Appending a flow above the last
      one to increasing user values with aligned or absent labels gives a definition the legacy
      validator accepts, even from a single value. */
  lemma UserFlowMakesValid(f: Flows.FlowValue, value: real, flowLabel: Option<string>)
    requires f.userValues != [] && Flows.StrictlyIncreasing(f.userValues)
    requires f.userValueLabels == [] || |f.userValueLabels| == |f.userValues|
    requires value > f.userValues[|f.userValues| - 1]
    ensures FlowValid(Flows.WithUserFlow(f, value, flowLabel))
    ensures Flows.WithUserFlow(f, value, flowLabel).userValues == f.userValues + [value]
  {
    var g := f.(flowMethod := Enums.UserDefined);
    assert Flows.FlowValid(g);
    Flows.UserFlowKeepsValid(g, value, flowLabel);
    assert Flows.WithUserFlow(g, value, flowLabel) == Flows.WithUserFlow(f, value, flowLabel);
  }

  // ---------------------------------------------------------------------------------------
  // Barrels
  // ---------------------------------------------------------------------------------------

  const SpanError: string := "Span must be greater than zero."

  /** The barrel the legacy validator accepts: the rise matters only for a box. */
  predicate BarrelValid(b: Barrels.BarrelValue) {
    b.span > 0.0 && (b.shape.Box? ==> b.rise > 0.0) && b.numberOfBarrels >= 1
  }

  /** `CulvertBarrel.validate(prefix)` of the legacy copy. */
  function ValidateBarrel(b: Barrels.BarrelValue, prefix: string): (errors: seq<string>)
    ensures (prefix + SpanError in errors) <== b.span <= 0.0
    ensures (prefix + Barrels.BoxRiseError in errors) <== b.shape.Box? && b.rise <= 0.0
    ensures (prefix + Barrels.CountError in errors) <== b.numberOfBarrels <= 0
    ensures errors == [] <==> BarrelValid(b)
    ensures forall e :: e in errors ==> StartsWith(e, prefix)
  {
    (if b.span <= 0.0 then [prefix + SpanError] else [])
    + (if b.shape.Box? && b.rise <= 0.0 then [prefix + Barrels.BoxRiseError] else [])
    + (if b.numberOfBarrels <= 0 then [prefix + Barrels.CountError] else [])
  }

  /** Every barrel the package accepts is accepted here; the only extra barrels accepted are
      shapes other than a box whose rise is not positive. */
  lemma BarrelsAgainstPackage(b: Barrels.BarrelValue)
    ensures Barrels.BarrelValid(b) ==> BarrelValid(b)
    ensures BarrelValid(b) && !Barrels.BarrelValid(b) <==>
      b.span > 0.0 && b.numberOfBarrels >= 1 && !b.shape.Box? && b.rise <= 0.0
  {
  }

  // ---------------------------------------------------------------------------------------
  // Crossings
  // ---------------------------------------------------------------------------------------

  /** One barrel's report, behind its numbered prefix. */
  function CulvertReport(prefix: string): (Barrels.BarrelValue, nat) -> seq<string> {
    (b: Barrels.BarrelValue, index: nat) => ValidateBarrel(b, Crossings.CulvertPrefix(prefix, index, b.name))
  }

  predicate AllBarrelsValid(culverts: seq<Barrels.BarrelValue>) {
    forall i :: 0 <= i < |culverts| ==> BarrelValid(culverts[i])
  }

  /** The barrel count check followed by each barrel's report, numbered from 1. */
  function BarrelErrors(culverts: seq<Barrels.BarrelValue>, prefix: string): (errors: seq<string>)
    ensures errors == [] <==> culverts != [] && AllBarrelsValid(culverts)
    ensures culverts == [] ==> errors == [prefix + Crossings.NoCulverts]
    ensures forall e :: e in errors ==> StartsWith(e, prefix)
  {
    NumberedReportsEmpty(culverts, 1, CulvertReport(prefix));
    forall i | 0 <= i < |culverts|
      ensures forall e :: e in CulvertReport(prefix)(culverts[i], 1 + i) ==> StartsWith(e, prefix)
    {
      var b := culverts[i];
      forall e | e in CulvertReport(prefix)(b, 1 + i)
        ensures StartsWith(e, prefix)
      {
        StartsWithLonger(e, prefix, "Culvert #" + NatToString(1 + i) + " (" + b.name + "): ");
      }
    }
    NumberedReportsPrefixed(culverts, 1, CulvertReport(prefix), prefix);
    (if culverts == [] then [prefix + Crossings.NoCulverts] else [])
    + NumberedReports(culverts, 1, CulvertReport(prefix))
  }

  /** The crossing the legacy validator accepts. */
  predicate CrossingValid(c: Crossings.CrossingValue) {
    FlowValid(c.flow)
    && Tailwaters.TailwaterValid(c.tailwater)
    && Roadways.RoadwayValid(c.roadway)
    && c.culverts != []
    && AllBarrelsValid(c.culverts)
    && !Crossings.CrestConflict(c)
  }

  /** The reports of the flow, the tailwater and the roadway, each behind its own prefix. */
  function PartErrors(c: Crossings.CrossingValue, prefix: string): (errors: seq<string>)
    ensures errors == [] <==>
      FlowValid(c.flow) && Tailwaters.TailwaterValid(c.tailwater) && Roadways.RoadwayValid(c.roadway)
    ensures forall e :: e in errors ==> StartsWith(e, prefix)
  {
    var flowErrors := ValidateFlow(c.flow, prefix + "Flow: ");
    var twErrors := Tailwaters.Validate(c.tailwater, prefix + "Tailwater: ");
    var roadErrors := Roadways.Validate(c.roadway, prefix + "Roadway: ");
    var errors := flowErrors + twErrors + roadErrors;
    assert forall e :: e in errors ==> StartsWith(e, prefix) by {
      forall e | e in errors
        ensures StartsWith(e, prefix)
      {
        if e in flowErrors {
          StartsWithLonger(e, prefix, "Flow: ");
        } else if e in twErrors {
          StartsWithLonger(e, prefix, "Tailwater: ");
        } else {
          StartsWithLonger(e, prefix, "Roadway: ");
        }
      }
    }
    errors
  }

  /** `CulvertCrossing.validate(prefix)` of the legacy copy: flow, tailwater and roadway behind
      their own prefixes, the barrel count, each barrel, then the crest check. `repr` renders a
      float as Python's `str` does. */
  function ValidateCrossing(c: Crossings.CrossingValue, prefix: string, repr: real -> string): (errors: seq<string>)
    ensures errors == [] <==> CrossingValid(c)
  {
    PartErrors(c, prefix) + BarrelErrors(c.culverts, prefix) + Crossings.CrestErrors(c, prefix, repr)
  }

  /** Every message of the crossing starts with the prefix, and a tailwater at or above the
      crest is reported last. */
  lemma ValidateCrossingReports(c: Crossings.CrossingValue, prefix: string, repr: real -> string)
    ensures forall e :: e in ValidateCrossing(c, prefix, repr) ==> StartsWith(e, prefix)
    ensures Crossings.CrestConflict(c) ==>
      var errors := ValidateCrossing(c, prefix, repr);
      errors != [] && errors[|errors| - 1] == Crossings.CrestMessage(
        prefix, c.tailwater.constantElevation, Roadways.MinOf(c.roadway.elevations), repr)
  {
    var parts := PartErrors(c, prefix);
    var barrels := BarrelErrors(c.culverts, prefix);
    var crest := Crossings.CrestErrors(c, prefix, repr);
    assert ValidateCrossing(c, prefix, repr) == parts + barrels + crest;
  }

  /** A crossing without barrels is told so. */
  lemma ValidateReportsNoBarrels(c: Crossings.CrossingValue, prefix: string, repr: real -> string)
    requires c.culverts == []
    ensures prefix + Crossings.NoCulverts in ValidateCrossing(c, prefix, repr)
  {
    var parts := ValidateFlow(c.flow, prefix + "Flow: ")
      + Tailwaters.Validate(c.tailwater, prefix + "Tailwater: ")
      + Roadways.Validate(c.roadway, prefix + "Roadway: ");
    assert ValidateCrossing(c, prefix, repr)[|parts|] == prefix + Crossings.NoCulverts;
  }

  /** On crossings whose flows need no user values beyond the package's and whose barrels all
      have a rise, the two copies accept the same crossings. */
  lemma CrossingsAgainstPackage(c: Crossings.CrossingValue)
    requires c.flow.flowMethod.UserDefined? ==> |c.flow.userValues| >= 2
    requires c.flow.flowMethod.MinDesignMax? ==> c.flow.userValues == []
    requires forall i :: 0 <= i < |c.culverts| ==> c.culverts[i].rise > 0.0
    ensures CrossingValid(c) <==> Crossings.CrossingValid(c)
  {
    assert FlowValid(c.flow) <==> Flows.FlowValid(c.flow);
    assert AllBarrelsValid(c.culverts) <==> Crossings.AllBarrelsValid(c.culverts) by {
      forall i | 0 <= i < |c.culverts|
        ensures BarrelValid(c.culverts[i]) <==> Barrels.BarrelValid(c.culverts[i])
      {
      }
    }
  }

  // ---------------------------------------------------------------------------------------
  // Projects
  // ---------------------------------------------------------------------------------------

  /** One crossing's report, behind its numbered prefix. */
  function CrossingReport(prefix: string, repr: real -> string): (Crossings.CrossingValue, nat) -> seq<string> {
    (c: Crossings.CrossingValue, index: nat) =>
      ValidateCrossing(c, Projects.CrossingPrefix(prefix, index, c.name), repr)
  }

  /** The crossings' errors, each crossing behind its own numbered prefix starting at 1. */
  function CrossingErrors(crossings: seq<Crossings.CrossingValue>, prefix: string, repr: real -> string): seq<string> {
    NumberedReports(crossings, 1, CrossingReport(prefix, repr))
  }

  predicate AllCrossingsValid(crossings: seq<Crossings.CrossingValue>) {
    forall i :: 0 <= i < |crossings| ==> CrossingValid(crossings[i])
  }

  /** The crossings report nothing exactly when each is valid. */
  lemma CrossingErrorsEmpty(crossings: seq<Crossings.CrossingValue>, prefix: string, repr: real -> string)
    ensures CrossingErrors(crossings, prefix, repr) == [] <==> AllCrossingsValid(crossings)
  {
    NumberedReportsEmpty(crossings, 1, CrossingReport(prefix, repr));
  }

  /** Each crossing's report carries the project's prefix. */
  lemma CrossingReportPrefixed(c: Crossings.CrossingValue, index: nat, prefix: string, repr: real -> string)
    ensures forall e :: e in CrossingReport(prefix, repr)(c, index) ==> StartsWith(e, prefix)
  {
    ValidateCrossingReports(c, Projects.CrossingPrefix(prefix, index, c.name), repr);
    forall e | e in CrossingReport(prefix, repr)(c, index)
      ensures StartsWith(e, prefix)
    {
      StartsWithLonger(e, prefix, "Crossing #" + NatToString(index) + " (" + c.name + "): ");
    }
  }

  /** Every message of the crossings carries the prefix. */
  lemma CrossingErrorsPrefixed(crossings: seq<Crossings.CrossingValue>, prefix: string, repr: real -> string)
    ensures forall e :: e in CrossingErrors(crossings, prefix, repr) ==> StartsWith(e, prefix)
  {
    forall i | 0 <= i < |crossings|
      ensures forall e :: e in CrossingReport(prefix, repr)(crossings[i], 1 + i) ==> StartsWith(e, prefix)
    {
      CrossingReportPrefixed(crossings[i], 1 + i, prefix, repr);
    }
    NumberedReportsPrefixed(crossings, 1, CrossingReport(prefix, repr), prefix);
  }

  predicate ProjectValid(p: Projects.ProjectValue) {
    p.crossings != [] && AllCrossingsValid(p.crossings)
  }

  /** `Hy8Project.validate(prefix)` of the legacy copy: an empty project is told so, and each
      crossing reports behind "Crossing #i (name): ". */
  function ValidateProject(p: Projects.ProjectValue, prefix: string, repr: real -> string): (errors: seq<string>)
    ensures errors == [] <==> ProjectValid(p)
    ensures forall e :: e in errors ==> StartsWith(e, prefix)
    ensures p.crossings == [] ==> errors == [prefix + Projects.NoCrossings]
  {
    CrossingErrorsEmpty(p.crossings, prefix, repr);
    CrossingErrorsPrefixed(p.crossings, prefix, repr);
    (if p.crossings == [] then [prefix + Projects.NoCrossings] else []) + CrossingErrors(p.crossings, prefix, repr)
  }

  // ---------------------------------------------------------------------------------------
  // assert_valid
  // ---------------------------------------------------------------------------------------

  /** `assert_valid`: raises the validation error only when the list of errors is not empty. */
  function AssertValid(errors: seq<string>): (raised: Option<ValidationError>)
    ensures raised.Some? <==> errors != []
    ensures raised.Some? ==> raised.value.errors == errors
    ensures |errors| == 1 ==> raised.value.message == errors[0]
  {
    if errors != [] then Some(NewValidationError(errors)) else None
  }

  /** A legacy project passes `assert_valid` exactly when it validates, where the package's
      `assert_valid` raises even with nothing to report. */
  lemma AssertValidAgainstPackage(p: Projects.ProjectValue, prefix: string, repr: real -> string)
    ensures AssertValid(ValidateProject(p, prefix, repr)).None? <==> ProjectValid(p)
    ensures Base.AssertValid([]).Some? && AssertValid([]).None?
  {
  }
}
