/** The reference writer's flow (`tests/hy8runner/hy8_runner_flow.py`): the method is free text,
    and `compute_list` fills the list of flows from the range before the flows are written. */
module RunnerFlows {
  import opened RunnerOutput
  import Flows

  const MinDesignMaxMethod: string := "min-design-max"
  const IncrementMethod: string := "min-max-increment"
  const UserDefinedMethod: string := "user-defined"

  datatype RunnerFlow = RunnerFlow(
    flowMethod: string,
    flowMin: real,
    flowDesign: real,
    flowMax: real,
    flowIncrement: real,
    flowList: seq<real>)

  /** A new flow: Min/Design/Max, every value zero and no list. */
  const NewFlow: RunnerFlow := RunnerFlow(MinDesignMaxMethod, 0.0, 0.0, 0.0, 0.0, [])

  // ---------------------------------------------------------------------------------------
  // compute_list
  // ---------------------------------------------------------------------------------------

  /** How many of low, low + step, low + 2·step, ... are not above high. */
  function IncrementCount(low: real, high: real, step: real): nat
    requires step > 0.0
  {
    if high < low then 0 else ((high - low) / step).Floor + 1
  }

  /** low, low + step, low + 2·step, ... for as long as the flow is not above high. */
  function IncrementFlows(low: real, high: real, step: real): seq<real>
    requires step > 0.0
  {
    seq(IncrementCount(low, high, step), k => low + k as real * step)
  }

  /** The k-th flow of the scan is not above high exactly when k is below the count. */
  lemma CountBound(low: real, high: real, step: real, k: nat)
    requires step > 0.0
    ensures low + k as real * step <= high <==> k < IncrementCount(low, high, step)
  {
    var x := k as real;
    assert x * step >= 0.0;
    if high >= low {
      var q := (high - low) / step;
      assert q * step == high - low;
      assert IncrementCount(low, high, step) == q.Floor + 1;
      if x <= q {
        assert x * step <= q * step;
        assert k <= q.Floor;
        assert low + x * step <= high;
      } else {
        assert x * step > q * step;
        assert k > q.Floor;
        assert low + x * step > high;
      }
    } else {
      assert low + x * step > high;
    }
  }

  /** The scan lists exactly the flows low + k·step not above high: each listed flow is at most
      high, the next one would exceed it, the list starts at low when low is not above high,
      and it strictly increases. */
  lemma IncrementFlowsSpan(low: real, high: real, step: real)
    requires step > 0.0
    ensures var r := IncrementFlows(low, high, step);
      (forall k :: 0 <= k < |r| ==> r[k] <= high)
      && low + |r| as real * step > high
      && (r != [] <==> low <= high)
      && (r != [] ==> r[0] == low)
      && Flows.StrictlyIncreasing(r)
  {
    var r := IncrementFlows(low, high, step);
    forall k | 0 <= k < |r|
      ensures r[k] <= high
    {
      CountBound(low, high, step, k);
    }
    CountBound(low, high, step, |r|);
    forall i, j | 0 <= i < j < |r|
      ensures r[i] < r[j]
    {
      assert (j - i) as real * step > 0.0;
      assert r[j] - r[i] == (j - i) as real * step;
    }
  }

  /** `compute_list` returns: the increment scan runs forever when the increment is not
      positive and the minimum is not above the maximum. */
  predicate ComputeListHalts(f: RunnerFlow) {
    f.flowMethod == IncrementMethod ==> f.flowIncrement > 0.0 || f.flowMin > f.flowMax
  }

  /** The list `compute_list` leaves: the three range values, the increment scan, or the list
      as it was for any other method. */
  function ComputedList(f: RunnerFlow): seq<real>
    requires ComputeListHalts(f)
  {
    if f.flowMethod == MinDesignMaxMethod then [f.flowMin, f.flowDesign, f.flowMax]
    else if f.flowMethod == IncrementMethod then
      (if f.flowMin > f.flowMax then [] else IncrementFlows(f.flowMin, f.flowMax, f.flowIncrement))
    else f.flowList
  }

  /** `compute_list()`: only the list changes. */
  method ComputeList(f: RunnerFlow) returns (g: RunnerFlow)
    requires ComputeListHalts(f)
    ensures g == f.(flowList := ComputedList(f))
  {
    g := f;
    if f.flowMethod == MinDesignMaxMethod {
      g := f.(flowList := [f.flowMin, f.flowDesign, f.flowMax]);
    } else if f.flowMethod == IncrementMethod {
      var list: seq<real> := [];
      var flow := f.flowMin;
      while flow <= f.flowMax
        invariant f.flowIncrement > 0.0 ==>
          flow == f.flowMin + |list| as real * f.flowIncrement
          && |list| <= IncrementCount(f.flowMin, f.flowMax, f.flowIncrement)
          && list == IncrementFlows(f.flowMin, f.flowMax, f.flowIncrement)[..|list|]
        invariant f.flowIncrement <= 0.0 ==> list == [] && flow > f.flowMax
        decreases if f.flowIncrement > 0.0 then IncrementCount(f.flowMin, f.flowMax, f.flowIncrement) - |list| else 0
      {
        CountBound(f.flowMin, f.flowMax, f.flowIncrement, |list|);
        assert f.flowIncrement > 0.0;
        ghost var scan := IncrementFlows(f.flowMin, f.flowMax, f.flowIncrement);
        assert scan[|list|] == flow;
        assert scan[..|list| + 1] == scan[..|list|] + [flow];
        assert (|list| + 1) as real * f.flowIncrement == |list| as real * f.flowIncrement + f.flowIncrement;
        list := list + [flow];
        flow := flow + f.flowIncrement;
      }
      if f.flowIncrement > 0.0 {
        CountBound(f.flowMin, f.flowMax, f.flowIncrement, |list|);
      }
      g := f.(flowList := list);
    }
  }

  // ---------------------------------------------------------------------------------------
  // validate_crossings_data
  // ---------------------------------------------------------------------------------------

  const MinNotBelowDesign: string := "Minimum flow must be less than or equal to design flow.\n"
  const DesignNotBelowMax: string := "Design flow must be less than or equal to maximum flow.\n"
  const NegativeMinimum: string := "Minimum flow must be zero or greater.\n"
  const MinNotBelowMax: string := "Minimum flow must be less than maximum flow.\n"
  const IncrementNotPositive: string := "Flow increment must be greater than zero.\n"
  const TooFewFlows: string := "User-defined flow list must have at least two values.\n"
  const FlowsNotIncreasing: string := "Flow list values must increase in value.\n"
  const UnknownMethod: string :=
    "Flow method must be min-design-max, user-defined, or min-max-increment.\n"

  /** Some neighbouring pair of the list fails to increase. */
  predicate HasStepDown(v: seq<real>) {
    exists j :: 0 <= j < |v| - 1 && v[j] >= v[j + 1]
  }

  /** Neighbouring pairs that all increase make the whole list strictly increasing. */
  lemma StepsIncreasing(v: seq<real>)
    ensures !HasStepDown(v) <==> Flows.StrictlyIncreasing(v)
  {
    if !HasStepDown(v) {
      forall i, j | 0 <= i < j < |v|
        ensures v[i] < v[j]
      {
        StepsChain(v, i, j);
      }
    }
    if Flows.StrictlyIncreasing(v) {
      forall j | 0 <= j < |v| - 1
        ensures v[j] < v[j + 1]
      {
      }
    }
  }

  lemma {:induction false} StepsChain(v: seq<real>, i: nat, j: nat)
    requires i < j < |v| && !HasStepDown(v)
    ensures v[i] < v[j]
    decreases j - i
  {
    assert v[j - 1] < v[j] by {
      assert !(v[j - 1] >= v[j]);
    }
    if i < j - 1 {
      StepsChain(v, i, j - 1);
    }
  }

  /** The Min/Design/Max checks, in the order they are reported. */
  function RangeProblems(f: RunnerFlow): seq<string> {
    (if f.flowMin >= f.flowDesign then [MinNotBelowDesign] else [])
    + (if f.flowDesign >= f.flowMax then [DesignNotBelowMax] else [])
    + (if f.flowMin < 0.0 then [NegativeMinimum] else [])
  }

  /** The increment checks, in the order they are reported. */
  function IncrementProblems(f: RunnerFlow): seq<string> {
    (if f.flowMin >= f.flowMax then [MinNotBelowMax] else [])
    + (if f.flowMin < 0.0 then [NegativeMinimum] else [])
    + (if f.flowIncrement <= 0.0 then [IncrementNotPositive] else [])
  }

  /** The user-list checks: too short, or else one report for the first step that goes down. */
  function UserProblems(f: RunnerFlow): seq<string> {
    if |f.flowList| < 2 then [TooFewFlows]
    else if HasStepDown(f.flowList) then [FlowsNotIncreasing]
    else []
  }

  /** The problems `validate_crossings_data` finds in the flow, in the order it reports them. */
  function FlowProblems(f: RunnerFlow): seq<string> {
    if f.flowMethod == MinDesignMaxMethod then RangeProblems(f)
    else if f.flowMethod == IncrementMethod then IncrementProblems(f)
    else if f.flowMethod == UserDefinedMethod then UserProblems(f)
    else [UnknownMethod]
  }

  /** The flow the reference validator accepts. */
  predicate FlowDataValid(f: RunnerFlow) {
    if f.flowMethod == MinDesignMaxMethod then 0.0 <= f.flowMin < f.flowDesign < f.flowMax
    else if f.flowMethod == IncrementMethod then 0.0 <= f.flowMin < f.flowMax && f.flowIncrement > 0.0
    else if f.flowMethod == UserDefinedMethod then |f.flowList| >= 2 && Flows.StrictlyIncreasing(f.flowList)
    else false
  }

  /** A flow is reported on exactly when it is not valid, and an unsteady user list is reported
      once, however many of its steps go down. */
  lemma FlowProblemsEmpty(f: RunnerFlow)
    ensures FlowProblems(f) == [] <==> FlowDataValid(f)
    ensures |FlowProblems(f)| <= 3
    ensures f.flowMethod == UserDefinedMethod ==> |FlowProblems(f)| <= 1
    ensures forall i :: 0 <= i < |FlowProblems(f)| ==> FlowProblems(f)[i] != []
  {
    StepsIncreasing(f.flowList);
  }

  /** A flow the reference validator accepts halts in `compute_list`, and the list it computes
      is non-empty and strictly increasing; a range or a scan starts at the minimum. */
  lemma ValidFlowComputes(f: RunnerFlow)
    requires FlowDataValid(f)
    ensures ComputeListHalts(f)
    ensures ComputedList(f) != [] && Flows.StrictlyIncreasing(ComputedList(f))
    ensures f.flowMethod != UserDefinedMethod ==> ComputedList(f)[0] == f.flowMin
  {
    if f.flowMethod == IncrementMethod {
      IncrementFlowsSpan(f.flowMin, f.flowMax, f.flowIncrement);
    }
  }

  /** `messages += f"{crossing_str}{problem}"` */
  method Report(messages: string, ghost problems: seq<string>, crossingStr: string, problem: string)
    returns (more: string, ghost morePro: seq<string>)
    requires messages == Reported(crossingStr, problems)
    ensures more == messages + (crossingStr + problem) && morePro == problems + [problem]
    ensures more == Reported(crossingStr, morePro)
  {
    ReportedAppend(crossingStr, problems, problem);
    more, morePro := messages + (crossingStr + problem), problems + [problem];
  }

  /** `validate_crossings_data(crossing_str)`: each problem is reported behind the crossing's
      text, and the result is true exactly when there is none. */
  method ValidateFlowData(f: RunnerFlow, crossingStr: string) returns (result: bool, messages: string)
    ensures messages == Reported(crossingStr, FlowProblems(f))
    ensures result <==> FlowDataValid(f)
    ensures result <==> messages == []
  {
    ghost var problems: seq<string>;
    if f.flowMethod == MinDesignMaxMethod {
      result, messages, problems := CheckRange(f, crossingStr);
    } else if f.flowMethod == IncrementMethod {
      result, messages, problems := CheckIncrement(f, crossingStr);
    } else if f.flowMethod == UserDefinedMethod {
      result, messages, problems := CheckUserList(f, crossingStr);
    } else {
      messages, problems := Report("", [], crossingStr, UnknownMethod);
      result := false;
    }
    FlowProblemsEmpty(f);
    ReportedEmpty(crossingStr, problems);
  }

  /** The Min/Design/Max branch of `validate_crossings_data`. */
  method CheckRange(f: RunnerFlow, crossingStr: string) returns (result: bool, messages: string, ghost problems: seq<string>)
    ensures problems == RangeProblems(f) && messages == Reported(crossingStr, problems)
    ensures result <==> problems == []
  {
    messages, problems, result := "", [], true;
    if f.flowMin >= f.flowDesign {
      messages, problems := Report(messages, problems, crossingStr, MinNotBelowDesign);
      result := false;
    }
    if f.flowDesign >= f.flowMax {
      messages, problems := Report(messages, problems, crossingStr, DesignNotBelowMax);
      result := false;
    }
    if f.flowMin < 0.0 {
      messages, problems := Report(messages, problems, crossingStr, NegativeMinimum);
      result := false;
    }
  }

  /** The Min/Max/Increment branch of `validate_crossings_data`. */
  method CheckIncrement(f: RunnerFlow, crossingStr: string) returns (result: bool, messages: string, ghost problems: seq<string>)
    ensures problems == IncrementProblems(f) && messages == Reported(crossingStr, problems)
    ensures result <==> problems == []
  {
    messages, problems, result := "", [], true;
    if f.flowMin >= f.flowMax {
      messages, problems := Report(messages, problems, crossingStr, MinNotBelowMax);
      result := false;
    }
    if f.flowMin < 0.0 {
      messages, problems := Report(messages, problems, crossingStr, NegativeMinimum);
      result := false;
    }
    if f.flowIncrement <= 0.0 {
      messages, problems := Report(messages, problems, crossingStr, IncrementNotPositive);
      result := false;
    }
  }

  /** The user-defined branch of `validate_crossings_data`: the scan over neighbouring pairs
      stops at the first one that does not increase. */
  method CheckUserList(f: RunnerFlow, crossingStr: string) returns (result: bool, messages: string, ghost problems: seq<string>)
    ensures problems == UserProblems(f) && messages == Reported(crossingStr, problems)
    ensures result <==> problems == []
  {
    messages, problems, result := "", [], true;
    if |f.flowList| < 2 {
      messages, problems := Report(messages, problems, crossingStr, TooFewFlows);
      result := false;
    } else {
      var i := 0;
      while i < |f.flowList| - 1
        invariant 0 <= i <= |f.flowList| - 1
        invariant result && messages == [] && problems == []
        invariant forall j :: 0 <= j < i ==> f.flowList[j] < f.flowList[j + 1]
      {
        if f.flowList[i] >= f.flowList[i + 1] {
          messages, problems := Report(messages, problems, crossingStr, FlowsNotIncreasing);
          result := false;
          break;
        }
        i := i + 1;
      }
    }
  }
}
