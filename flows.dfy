/** The flow definition of a crossing: how HY-8 is told which discharges to run. */
module Flows {
  import opened Wrappers
  import opened Text
  import opened PyValues
  import opened Enums
  import opened Base

  datatype FlowValue = FlowValue(
    flowMethod: FlowMethod,
    minimum: real,
    design: real,
    maximum: real,
    userValues: seq<real>,
    userValueLabels: seq<string>)

  /** A fresh definition: user-defined with no values. */
  const DefaultFlow: FlowValue := FlowValue(UserDefined, 0.0, 0.0, 0.0, [], [])

  /** How a flow method appears inside a message (`f"{method}"` of the enum member). */
  function MethodText(m: FlowMethod): string {
    "FlowMethod." + m.Name()
  }

  function UnsupportedMethod(m: FlowMethod): string {
    "Flow method '" + MethodText(m) + "' is not supported."
  }

  /** `_min_design_max_values`: the three range fields, always three of them. */
  function MinDesignMaxValues(f: FlowValue): (r: seq<real>)
    ensures |r| == 3 && r[0] == f.minimum && r[1] == f.design && r[2] == f.maximum
  {
    [f.minimum, f.design, f.maximum]
  }

  /** `sequence()`: the flows written to the DISCHARGEXYUSER cards. */
  function Sequence(f: FlowValue): (r: Result<seq<real>>)
    ensures f.flowMethod.MinDesignMax? ==> r == Ok([f.minimum, f.design, f.maximum])
    ensures f.flowMethod.UserDefined? ==> r == Ok(f.userValues)
    ensures f.flowMethod.MinMaxIncrement? ==> r == Err(UnsupportedMethod(f.flowMethod))
  {
    match f.flowMethod
    case MinDesignMax => Ok(MinDesignMaxValues(f))
    case UserDefined => Ok(f.userValues)
    case MinMaxIncrement => Err(UnsupportedMethod(f.flowMethod))
  }

  // ---------------------------------------------------------------------------------------
  // Validation
  // ---------------------------------------------------------------------------------------

  /** Whether some neighbouring pair fails to increase (`any(a >= b for a, b in zip(v, v[1:]))`). */
  predicate SomeStepNotIncreasing(v: seq<real>)
    decreases |v|
  {
    |v| >= 2 && (v[0] >= v[1] || SomeStepNotIncreasing(v[1..]))
  }

  predicate StrictlyIncreasing(v: seq<real>) {
    forall i, j :: 0 <= i < j < |v| ==> v[i] < v[j]
  }

  /** The pairwise scan finds a bad step exactly when the values are not strictly increasing. */
  lemma {:induction false} StepScanCorrect(v: seq<real>)
    ensures SomeStepNotIncreasing(v) <==> !StrictlyIncreasing(v)
    decreases |v|
  {
    if |v| >= 2 {
      StepScanCorrect(v[1..]);
      if !SomeStepNotIncreasing(v) {
        assert StrictlyIncreasing(v[1..]);
        forall i, j | 0 <= i < j < |v| ensures v[i] < v[j] {
          if i > 0 {
            assert v[1..][i - 1] < v[1..][j - 1];
          } else if j > 1 {
            assert v[1..][0] < v[1..][j - 1];
          }
        }
      } else if v[0] >= v[1] {
        assert !(v[0] < v[1]);
      } else {
        assert !StrictlyIncreasing(v[1..]);
        var i, j :| 0 <= i < j < |v[1..]| && !(v[1..][i] < v[1..][j]);
        assert !(v[i + 1] < v[j + 1]);
      }
    }
  }

  /** The definition the validator accepts, stated without reference to the messages. */
  predicate FlowValid(f: FlowValue) {
    match f.flowMethod
    case MinDesignMax =>
      (f.userValues == [] || |f.userValues| == 3)
      && f.minimum < f.design < f.maximum && f.minimum >= 0.0
    case UserDefined =>
      f.userValues != [] && StrictlyIncreasing(f.userValues)
      && (f.userValueLabels == [] || |f.userValueLabels| == |f.userValues|)
    case MinMaxIncrement => false
  }

  /** A definition that validates has a sequence, and the sequence strictly increases. */
  lemma ValidSequenceIncreasing(f: FlowValue)
    requires FlowValid(f)
    ensures Sequence(f).Ok? && StrictlyIncreasing(Sequence(f).value)
  {
  }

  /** The checks `validate` makes of a Min/Design/Max definition. */
  function ValidateRange(f: FlowValue, prefix: string): (errors: seq<string>)
    ensures forall e :: e in errors ==> StartsWith(e, prefix)
    ensures errors == [] <==>
      (f.userValues == [] || |f.userValues| == 3) && f.minimum < f.design < f.maximum && f.minimum >= 0.0
    ensures f.minimum < 0.0 ==> prefix + "Minimum flow must be >= 0." in errors
  {
    var v := MinDesignMaxValues(f);
    (if f.userValues != [] && |f.userValues| != 3
     then [prefix + "Provide exactly three flows for Min/Design/Max problems."] else [])
    + (if !(v[0] < v[1] < v[2]) then [prefix + "Min/Design/Max must be strictly increasing."] else [])
    + (if v[0] < 0.0 then [prefix + "Minimum flow must be >= 0."] else [])
  }

  /** The checks `validate` makes of a user-defined definition. */
  function ValidateUser(f: FlowValue, prefix: string): (errors: seq<string>)
    ensures forall e :: e in errors ==> StartsWith(e, prefix)
    ensures errors == [] <==>
      f.userValues != [] && StrictlyIncreasing(f.userValues)
      && (f.userValueLabels == [] || |f.userValueLabels| == |f.userValues|)
    ensures f.userValues == [] ==> prefix + "Provide at least one user-defined flow value." in errors
  {
    StepScanCorrect(f.userValues);
    (if f.userValues == [] then [prefix + "Provide at least one user-defined flow value."]
     else if |f.userValues| > 1 && SomeStepNotIncreasing(f.userValues)
     then [prefix + "User-defined flows must be strictly increasing."]
     else [])
    + (if f.userValueLabels != [] && |f.userValueLabels| != |f.userValues|
       then [prefix + "Provide the same number of flow labels as flow values."] else [])
  }

  /** `validate(prefix)`: every problem is reported, each message behind the prefix. */
  function Validate(f: FlowValue, prefix: string): (errors: seq<string>)
    ensures forall e :: e in errors ==> StartsWith(e, prefix)
    ensures errors == [] <==> FlowValid(f)
    ensures f.flowMethod.UserDefined? && f.userValues == [] ==>
      prefix + "Provide at least one user-defined flow value." in errors
    ensures f.flowMethod.MinDesignMax? && f.minimum < 0.0 ==> prefix + "Minimum flow must be >= 0." in errors
    ensures f.flowMethod.MinMaxIncrement? ==> errors == [prefix + UnsupportedMethod(f.flowMethod)]
  {
    match f.flowMethod
    case MinDesignMax => ValidateRange(f, prefix)
    case UserDefined => ValidateUser(f, prefix)
    case MinMaxIncrement => [prefix + UnsupportedMethod(f.flowMethod)]
  }

  // ---------------------------------------------------------------------------------------
  // Mutators
  // ---------------------------------------------------------------------------------------

  function Blanks(n: nat): (r: seq<string>)
    ensures |r| == n && forall i :: 0 <= i < n ==> r[i] == ""
  {
    seq(n, _ => "")
  }

  /** The labels after `add_user_flow`, given the values before the new one is appended. */
  function LabelsAfterAdd(labels: seq<string>, valueCount: nat, flowLabel: Option<string>): seq<string> {
    if flowLabel.Some? then
      (if |labels| < valueCount then labels + Blanks(valueCount - |labels|) else labels) + [flowLabel.value]
    else if labels != [] then labels + [""]
    else labels
  }

  /** The definition after `add_user_flow(value, flowLabel)`. */
  function WithUserFlow(f: FlowValue, value: real, flowLabel: Option<string>): FlowValue {
    f.(flowMethod := UserDefined,
       userValues := f.userValues + [value],
       userValueLabels := LabelsAfterAdd(f.userValueLabels, |f.userValues|, flowLabel))
  }

  /** With a flowLabel, the flowLabel lands at the new value's index and the gap is filled with blanks. */
  lemma UserFlowLabelIndex(f: FlowValue, value: real, flowLabel: string)
    requires |f.userValueLabels| <= |f.userValues|
    ensures var g := WithUserFlow(f, value, Some(flowLabel));
      |g.userValueLabels| == |g.userValues|
      && g.userValueLabels[|g.userValues| - 1] == flowLabel
      && g.userValueLabels[..|f.userValueLabels|] == f.userValueLabels
      && (forall i :: |f.userValueLabels| <= i < |f.userValues| ==> g.userValueLabels[i] == "")
  {
    var g := WithUserFlow(f, value, Some(flowLabel));
    var padded := f.userValueLabels + Blanks(|f.userValues| - |f.userValueLabels|);
    assert g.userValueLabels == padded + [flowLabel];
    assert g.userValueLabels[..|f.userValueLabels|] == f.userValueLabels;
  }

  /** Labels that are absent or aligned with the values stay so after `add_user_flow`. */
  lemma UserFlowKeepsAlignment(f: FlowValue, value: real, flowLabel: Option<string>)
    requires f.userValueLabels == [] || |f.userValueLabels| == |f.userValues|
    ensures var g := WithUserFlow(f, value, flowLabel);
      (g.userValueLabels == [] || |g.userValueLabels| == |g.userValues|)
      && g.userValues == f.userValues + [value] && g.flowMethod == UserDefined
      && (flowLabel.Some? ==> g.userValueLabels[|g.userValues| - 1] == flowLabel.value)
  {
  }

  /** Appending increasing values one at a time keeps a user-defined definition valid. */
  lemma UserFlowKeepsValid(f: FlowValue, value: real, flowLabel: Option<string>)
    requires f.flowMethod.UserDefined? && FlowValid(f)
    requires value > f.userValues[|f.userValues| - 1]
    ensures FlowValid(WithUserFlow(f, value, flowLabel))
  {
    var v := f.userValues + [value];
    forall i, j | 0 <= i < j < |v| ensures v[i] < v[j] {
      if j == |v| - 1 && i < |v| - 2 {
        assert v[i] < v[|v| - 2];
      }
    }
  }

  /** The definition after `set_min_design_max(minimum, design, maximum)`. */
  function WithMinDesignMax(f: FlowValue, minimum: real, design: real, maximum: real): FlowValue {
    FlowValue(MinDesignMax, minimum, design, maximum, [], [])
  }

  /** After `set_min_design_max` the sequence is the three flows, and the definition is valid
      exactly when they are non-negative and strictly increasing. */
  lemma MinDesignMaxSequence(f: FlowValue, minimum: real, design: real, maximum: real)
    ensures var g := WithMinDesignMax(f, minimum, design, maximum);
      Sequence(g) == Ok([minimum, design, maximum])
      && (Validate(g, "") == [] <==> 0.0 <= minimum < design < maximum)
  {
  }

  /** The mutable definition. Its methods change the fields in place. */
  class FlowDefinition {
    var flowMethod: FlowMethod
    var minimum: real
    var design: real
    var maximum: real
    var userValues: seq<real>
    var userValueLabels: seq<string>

    function Value(): FlowValue
      reads this
    {
      FlowValue(flowMethod, minimum, design, maximum, userValues, userValueLabels)
    }

    constructor ()
      ensures Value() == DefaultFlow
    {
      flowMethod := UserDefined;
      minimum, design, maximum := 0.0, 0.0, 0.0;
      userValues, userValueLabels := [], [];
    }

    /** `add_user_flow(value, label)`: switch to user-defined flows and append the value; a
        label is placed at the value's index, padding earlier positions with blanks. */
    method AddUserFlow(value: real, flowLabel: Option<string>)
      modifies this
      ensures Value() == WithUserFlow(old(Value()), value, flowLabel)
    {
      flowMethod := UserDefined;
      userValues := userValues + [value];
      if flowLabel.Some? {
        var labels := userValueLabels;
        while |labels| < |userValues| - 1
          invariant |userValueLabels| <= |labels|
          invariant |labels| <= |userValueLabels| || |labels| <= |userValues| - 1
          invariant labels == userValueLabels + Blanks(|labels| - |userValueLabels|)
          decreases |userValues| - |labels|
        {
          labels := labels + [""];
        }
        userValueLabels := labels + [flowLabel.value];
      } else if userValueLabels != [] {
        userValueLabels := userValueLabels + [""];
      }
    }

    /** `set_min_design_max(minimum, design, maximum)` */
    method SetMinDesignMax(newMinimum: real, newDesign: real, newMaximum: real)
      modifies this
      ensures Value() == WithMinDesignMax(old(Value()), newMinimum, newDesign, newMaximum)
    {
      flowMethod := MinDesignMax;
      minimum, design, maximum := newMinimum, newDesign, newMaximum;
      userValues := [];
      userValueLabels := [];
    }
  }

  // ---------------------------------------------------------------------------------------
  // Dictionaries
  // ---------------------------------------------------------------------------------------

  /** `to_dict()` */
  function ToDict(f: FlowValue): PyValue {
    PDict(DictEntries(PStr(f.flowMethod.Name()), f.minimum, f.design, f.maximum,
                      FloatItems(f.userValues), StrItems(f.userValueLabels)))
  }

  /** `from_dict(data)`: missing fields take the defaults, and the method is coerced. */
  function FromDict(data: seq<(string, PyValue)>): (r: Result<FlowValue>)
    ensures data == [] ==> r == Ok(DefaultFlow)
  {
    assert data == [] ==> CoerceFlowMethod(Get(data, "method", PStr("USER_DEFINED")), UserDefined) == Ok(UserDefined) by {
      if data == [] {
        FlowMethodCoerce(UserDefined, UserDefined);
      }
    }
    var flowMethod :- CoerceFlowMethod(Get(data, "method", PStr("USER_DEFINED")), UserDefined);
    var valuesRaw := NormalizeSequence(Get(data, "user_values", PNone));
    var labelsRaw := NormalizeSequence(Get(data, "user_value_labels", PNone));
    var minimum :- ToFloat(Get(data, "minimum", PFloat(0.0)));
    var design :- ToFloat(Get(data, "design", PFloat(0.0)));
    var maximum :- ToFloat(Get(data, "maximum", PFloat(0.0)));
    var values :- FloatsOf(Items(valuesRaw));
    var labels :- StringsOf(Items(labelsRaw));
    Ok(FlowValue(flowMethod, minimum, design, maximum, values, labels))
  }

  /** `from_dict(to_dict(f))` reproduces the definition. */
  lemma DictRoundTrip(f: FlowValue)
    ensures ToDict(f).PDict? && FromDict(ToDict(f).entries) == Ok(f)
  {
    FlowMethodCoerce(f.flowMethod, UserDefined);
    DictGetsScalars(PStr(f.flowMethod.Name()), f.minimum, f.design, f.maximum,
                    FloatItems(f.userValues), StrItems(f.userValueLabels));
    DictGetsLists(PStr(f.flowMethod.Name()), f.minimum, f.design, f.maximum,
                  FloatItems(f.userValues), StrItems(f.userValueLabels));
    FloatsRoundTrip(f.userValues);
    StringsRoundTrip(f.userValueLabels);
  }

  /** The entries `to_dict` builds, with the two lists given as items. */
  function DictEntries(m: PyValue, minimum: real, design: real, maximum: real, xs: seq<PyValue>,
                       ys: seq<PyValue>): seq<(string, PyValue)> {
    [("method", m), ("minimum", PFloat(minimum)), ("design", PFloat(design)),
     ("maximum", PFloat(maximum)), ("user_values", PList(xs)), ("user_value_labels", PList(ys))]
  }

  /** Each scalar key of the dictionary `to_dict` builds is found at its own entry. */
  lemma DictGetsScalars(m: PyValue, minimum: real, design: real, maximum: real, xs: seq<PyValue>, ys: seq<PyValue>)
    ensures var d := DictEntries(m, minimum, design, maximum, xs, ys);
      Get(d, "method", PStr("USER_DEFINED")) == m
      && Get(d, "minimum", PFloat(0.0)) == PFloat(minimum)
      && Get(d, "design", PFloat(0.0)) == PFloat(design)
      && Get(d, "maximum", PFloat(0.0)) == PFloat(maximum)
  {
    var d := DictEntries(m, minimum, design, maximum, xs, ys);
    assert Get(d, "method", PStr("USER_DEFINED")) == m by { GetAt(d, 0, "method", PStr("USER_DEFINED")); }
    assert Get(d, "minimum", PFloat(0.0)) == PFloat(minimum) by { GetAt(d, 1, "minimum", PFloat(0.0)); }
    assert Get(d, "design", PFloat(0.0)) == PFloat(design) by { GetAt(d, 2, "design", PFloat(0.0)); }
    assert Get(d, "maximum", PFloat(0.0)) == PFloat(maximum) by { GetAt(d, 3, "maximum", PFloat(0.0)); }
  }

  /** Both list keys of the dictionary `to_dict` builds are found at their own entries. */
  lemma DictGetsLists(m: PyValue, minimum: real, design: real, maximum: real, xs: seq<PyValue>, ys: seq<PyValue>)
    ensures var d := DictEntries(m, minimum, design, maximum, xs, ys);
      Get(d, "user_values", PNone) == PList(xs) && Get(d, "user_value_labels", PNone) == PList(ys)
  {
    var d := DictEntries(m, minimum, design, maximum, xs, ys);
    assert Get(d, "user_values", PNone) == PList(xs) by { GetAt(d, 4, "user_values", PNone); }
    assert Get(d, "user_value_labels", PNone) == PList(ys) by { GetAt(d, 5, "user_value_labels", PNone); }
  }
}
