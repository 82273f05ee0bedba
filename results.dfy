/** The HY-8 result readers: the `.rst` report scanner, the `.rsql` flow-profile scanner, the
    comma-separated series inside them, and the merged per-flow rows with nearest-flow lookup.
    Files are given as their lines; a missing `.rsql` file is a flag. */
module Results {
  import opened Wrappers
  import opened Text
  import opened Numbers

  // ---------------------------------------------------------------------------------------
  // Series fields: `parse_series` and `parse_text_series`
  // ---------------------------------------------------------------------------------------

  /** Python's `float(text)` where a failure becomes NaN. */
  function NumOf(text: string): Num {
    match ParseFloat(text)
    case Some(x) => Val(x)
    case None => NaN
  }

  /** One field of `parse_series`: blank, "nan" in any case, or unparseable is NaN. */
  function FieldValue(part: string): Num {
    var p := Strip(part);
    if p == [] || Lower(p) == "nan" then NaN else NumOf(p)
  }

  /** The fields after the first comma of a line. */
  function Fields(line: string): seq<string> {
    SplitOn(line, ',')[1..]
  }

  /** What `parse_series(line)` yields: one value per field after the first comma. */
  function SeriesValues(line: string): (r: seq<Num>)
    ensures |r| == |Fields(line)|
    ensures forall i :: 0 <= i < |r| ==> r[i] == FieldValue(Fields(line)[i])
  {
    var parts := Fields(line);
    seq(|parts|, i requires 0 <= i < |parts| => FieldValue(parts[i]))
  }

  /** `str.split(sep)` yields one part more than there are separators. */
  lemma {:induction false} SplitOnCount(s: string, sep: char)
    ensures |SplitOn(s, sep)| == multiset(s)[sep] + 1
    decreases |s|
  {
    if sep in s {
      var i := IndexOf(s, sep);
      assert s == s[..i] + [s[i]] + s[i + 1..];
      assert multiset(s) == multiset(s[..i]) + multiset([s[i]]) + multiset(s[i + 1..]);
      assert multiset(s[..i])[sep] == 0;
      SplitOnCount(s[i + 1..], sep);
    } else {
      assert multiset(s)[sep] == 0;
    }
  }

  /** `parse_series` yields exactly one value per comma in the line. */
  lemma SeriesCount(line: string)
    ensures |SeriesValues(line)| == multiset(line)[',']
  {
    SplitOnCount(line, ',');
  }

  /** A field is NaN exactly when it is blank, spells "nan", or is not a number. */
  lemma SeriesNaN(line: string, i: nat)
    requires i < |SeriesValues(line)|
    ensures var p := Strip(Fields(line)[i]);
      SeriesValues(line)[i].NaN? <==> (p == [] || Lower(p) == "nan" || ParseFloat(p).None?)
    ensures var p := Strip(Fields(line)[i]);
      p != [] && Lower(p) != "nan" && ParseFloat(p).Some? ==> SeriesValues(line)[i] == Val(ParseFloat(p).value)
  {
  }

  /** `parse_series(line)` */
  method ParseSeries(line: string) returns (values: seq<Num>)
    ensures values == SeriesValues(line)
  {
    var parts := SplitOn(line, ',')[1..];
    ghost var expected := SeriesValues(line);
    values := [];
    for i := 0 to |parts|
      invariant values == expected[..i]
    {
      var part := Strip(parts[i]);
      var value: Num;
      if part == [] || Lower(part) == "nan" {
        value := NaN;
      } else {
        var parsed := ParseFloat(part);
        value := if parsed.Some? then Val(parsed.value) else NaN;
      }
      assert value == expected[i];
      PrefixStep(expected, i);
      values := values + [value];
    }
    WholePrefix(expected);
  }

  /** The stripped fields that are not blank, in order. */
  function NonBlankFields(parts: seq<string>): (r: seq<string>)
    ensures |r| <= |parts|
    ensures forall i :: 0 <= i < |r| ==> r[i] != []
  {
    if parts == [] then []
    else
      var rest := NonBlankFields(parts[1..]);
      if Strip(parts[0]) == [] then rest else [Strip(parts[0])] + rest
  }

  /** `parse_text_series(line)` */
  function TextSeries(line: string): seq<string> {
    NonBlankFields(Fields(line))
  }

  /** With no blank field every field is kept, stripped and in order; with only blank fields
      nothing is. */
  lemma {:induction false} NonBlankFieldsKept(parts: seq<string>)
    ensures (forall i :: 0 <= i < |parts| ==> Strip(parts[i]) != []) ==>
      NonBlankFields(parts) == seq(|parts|, i requires 0 <= i < |parts| => Strip(parts[i]))
    ensures (forall i :: 0 <= i < |parts| ==> Strip(parts[i]) == []) ==> NonBlankFields(parts) == []
    decreases |parts|
  {
    if parts != [] {
      NonBlankFieldsKept(parts[1..]);
    }
  }

  // ---------------------------------------------------------------------------------------
  // Line scans
  // ---------------------------------------------------------------------------------------

  /** The state after feeding `lines`, in order, to a line loop's body `step`. */
  function Run<S>(step: (S, string) -> S, start: S, lines: seq<string>): S
    decreases |lines|
  {
    if lines == [] then start else step(Run(step, start, lines[..|lines| - 1]), lines[|lines| - 1])
  }

  /** A state property that every step keeps holds after the whole scan. */
  lemma {:induction false} RunKeeps<S>(step: (S, string) -> S, start: S, lines: seq<string>,
                                       holds: S -> bool)
    requires holds(start)
    requires forall s, line :: holds(s) ==> holds(step(s, line))
    ensures holds(Run(step, start, lines))
    decreases |lines|
  {
    if lines != [] {
      RunKeeps(step, start, lines[..|lines| - 1], holds);
    }
  }

  /** A state property that steps over the allowed lines keep holds after a scan of such lines. */
  lemma {:induction false} RunKeepsOver<S>(step: (S, string) -> S, start: S, lines: seq<string>,
                                           holds: S -> bool, allowed: string -> bool)
    requires holds(start)
    requires forall k :: 0 <= k < |lines| ==> allowed(lines[k])
    requires forall s, line :: holds(s) && allowed(line) ==> holds(step(s, line))
    ensures holds(Run(step, start, lines))
    decreases |lines|
  {
    if lines != [] {
      var init := lines[..|lines| - 1];
      assert forall k :: 0 <= k < |init| ==> init[k] == lines[k];
      RunKeepsOver(step, start, init, holds, allowed);
    }
  }

  /** A reflexive, transitive relation that every step advances along relates the state after
      some lines to the state after more lines. */
  lemma {:induction false} RunAdvances<S>(step: (S, string) -> S, start: S, lines: seq<string>,
                                          more: seq<string>, below: (S, S) -> bool)
    requires forall a :: below(a, a)
    requires forall a, b, c :: below(a, b) && below(b, c) ==> below(a, c)
    requires forall s, line :: below(s, step(s, line))
    ensures below(Run(step, start, lines), Run(step, start, lines + more))
    decreases |more|
  {
    if more == [] {
      assert lines + more == lines;
    } else {
      var whole := lines + more;
      assert whole[..|whole| - 1] == lines + more[..|more| - 1];
      RunAdvances(step, start, lines, more[..|more| - 1], below);
    }
  }

  // ---------------------------------------------------------------------------------------
  // The `.rst` report: `parse_rst`
  // ---------------------------------------------------------------------------------------

  /** A stored series: numbers for the value rows, text for the iteration row. */
  datatype Series = Numbers(nums: seq<Num>) | Texts(texts: seq<string>)

  /** One crossing's entry: series by key. */
  type Entry = map<string, Series>

  const SummaryTitle: string := "Summary of Flows at Crossing - "
  const CulvertTitle: string := "Culvert Summary Table - "

  /** `re.match(r"Dialog:\s+" + title + r"(?P<name>.+)", line)`: the name when it matches. */
  function DialogName(line: string, title: string): (r: Option<string>)
    ensures r.Some? ==> r.value != []
  {
    if !StartsWith(line, "Dialog:") then None
    else
      var after := line[7..];
      var t := LStrip(after);
      if |t| < |after| && StartsWith(t, title) && |t| > |title| then Some(t[|title|..]) else None
  }

  /** The scanner's state: the data so far, the crossing of the last summary dialog and the
      crossing whose culvert table is being captured. */
  datatype RstState = RstState(data: map<string, Entry>, summary: Option<string>, capturing: Option<string>)

  const RstStart: RstState := RstState(map[], None, None)

  /** `data.setdefault(name, {})` */
  function SetDefault(data: map<string, Entry>, name: string): (r: map<string, Entry>)
    ensures name in r && r.Keys == data.Keys + {name}
  {
    if name in data then data else data[name := map[]]
  }

  /** `data[name][key] = series`; `name` is always present when the scanner stores (see
      `RstInvariant`), so the empty default is never used. */
  function Store(data: map<string, Entry>, name: string, key: string, series: Series): (r: map<string, Entry>)
    ensures name in r && r[name] == (if name in data then data[name] else map[])[key := series]
    ensures r.Keys == data.Keys + {name}
  {
    data[name := (if name in data then data[name] else map[])[key := series]]
  }

  /** The summary rows (roadway discharge, iterations) of the current summary crossing. */
  function SummaryRows(data: map<string, Entry>, name: string, line: string): (r: map<string, Entry>)
    ensures data.Keys <= r.Keys <= data.Keys + {name}
  {
    var withRoadway := if StartsWith(line, "Roadway Discharge (cms)") then Store(data, name, "roadway", Numbers(SeriesValues(line))) else data;
    if StartsWith(line, "Iterations") then Store(withRoadway, name, "iterations", Texts(TextSeries(line))) else withRoadway
  }

  /** The culvert value rows (flow, headwater, velocity) of the captured crossing. */
  function ValueRows(data: map<string, Entry>, name: string, line: string): (r: map<string, Entry>)
    ensures data.Keys <= r.Keys <= data.Keys + {name}
  {
    var withFlow := if StartsWith(line, "Total Discharge (cms)") then Store(data, name, "flow", Numbers(SeriesValues(line))) else data;
    var withHeadwater := if StartsWith(line, "Headwater Elevation (m)") then Store(withFlow, name, "headwater", Numbers(SeriesValues(line))) else withFlow;
    if StartsWith(line, "Outlet Velocity (m/s)") then Store(withHeadwater, name, "velocity", Numbers(SeriesValues(line))) else withHeadwater
  }

  /** One pass of `parse_rst`'s line loop. A summary name is tested for truth (non-empty) before
      its rows are stored; a captured name only for presence. */
  function RstStep(s: RstState, raw: string): (r: RstState)
    ensures s.data.Keys <= r.data.Keys
    ensures RstConsistent(s) ==> RstConsistent(r)
  {
    var line := Strip(raw);
    if line == [] then s
    else match DialogName(line, SummaryTitle)
      case Some(n) =>
        var name := Strip(n);
        RstState(SetDefault(s.data, name), Some(name), None)
      case None =>
        var data := if s.summary.Some? && s.summary.value != [] then SummaryRows(s.data, s.summary.value, line) else s.data;
        if DialogName(line, CulvertTitle).Some? then
          RstState(if s.summary.Some? && s.summary.value != [] then SetDefault(data, s.summary.value) else data,
                   s.summary, s.summary)
        else if s.capturing.None? then s.(data := data)
        else s.(data := ValueRows(data, s.capturing.value, line))
  }

  /** The state after scanning `lines` in order. */
  function RstRun(lines: seq<string>): RstState {
    Run(RstStep, RstStart, lines)
  }

  /** The summary crossing always has an entry, and a captured crossing is the summary crossing. */
  predicate RstConsistent(s: RstState) {
    && (s.summary.Some? ==> s.summary.value in s.data)
    && (s.capturing.Some? ==> s.capturing == s.summary)
  }

  /** Every state the scanner reaches is consistent, so a row is always stored under a crossing
      that already has an entry: `data[name][key]` never fails. */
  lemma RstInvariant(lines: seq<string>)
    ensures RstConsistent(RstRun(lines))
  {
    RunKeeps(RstStep, RstStart, lines, RstConsistent);
  }

  /** A summary dialog line makes its crossing current, stops culvert capture and keeps any
      entry the crossing already had. */
  lemma SummaryLineStep(s: RstState, raw: string, n: string)
    requires DialogName(Strip(raw), SummaryTitle) == Some(n)
    ensures var r := RstStep(s, raw);
      && r.summary == Some(Strip(n)) && r.capturing.None?
      && Strip(n) in r.data && r.data.Keys == s.data.Keys + {Strip(n)}
      && (Strip(n) in s.data ==> r.data == s.data)
  {
  }

  /** A flow row while a culvert table is captured replaces that crossing's flow series, whatever
      was stored before; nothing else is touched. */
  lemma FlowRowStored(s: RstState, raw: string, line: string, c: string)
    requires line == Strip(raw)
    requires RstConsistent(s) && s.capturing == Some(c)
    requires DialogName(line, SummaryTitle).None? && DialogName(line, CulvertTitle).None?
    requires StartsWith(line, "Total Discharge (cms)")
    ensures var r := RstStep(s, raw);
      && c in r.data && "flow" in r.data[c] && r.data[c]["flow"] == Numbers(SeriesValues(line))
      && r.data.Keys == s.data.Keys && r.summary == s.summary && r.capturing == s.capturing
  {
    assert line[0] == 'T';
    var data := if s.summary.Some? && s.summary.value != [] then SummaryRows(s.data, s.summary.value, line) else s.data;
    assert data == s.data;
    FlowRowValues(data, c, line);
  }

  lemma FlowRowValues(data: map<string, Entry>, c: string, line: string)
    requires c in data && StartsWith(line, "Total Discharge (cms)")
    ensures var r := ValueRows(data, c, line);
      r.Keys == data.Keys && "flow" in r[c] && r[c]["flow"] == Numbers(SeriesValues(line))
  {
    assert line[0] == 'T';
  }

  /** Before any summary dialog, nothing is recorded: culvert tables are ignored. */
  lemma NoSummaryNoData(lines: seq<string>)
    requires forall k :: 0 <= k < |lines| ==> DialogName(Strip(lines[k]), SummaryTitle).None?
    ensures RstRun(lines) == RstStart
  {
    var allowed := (raw: string) => DialogName(Strip(raw), SummaryTitle).None?;
    var isStart := (s: RstState) => s == RstStart;
    forall s, raw | isStart(s) && allowed(raw)
      ensures isStart(RstStep(s, raw))
    {
      NoSummaryStep(raw);
    }
    RunKeepsOver(RstStep, RstStart, lines, isStart, allowed);
  }

  lemma NoSummaryStep(raw: string)
    requires DialogName(Strip(raw), SummaryTitle).None?
    ensures RstStep(RstStart, raw) == RstStart
  {
  }

  /** Crossings once recorded stay recorded, whatever lines follow. */
  lemma RstKeysGrow(lines: seq<string>, more: seq<string>)
    ensures RstRun(lines).data.Keys <= RstRun(lines + more).data.Keys
  {
    var below := (a: RstState, b: RstState) => a.data.Keys <= b.data.Keys;
    RunAdvances(RstStep, RstStart, lines, more, below);
  }

  /** One line of `parse_rst`'s loop, with `parse_series` run for each value row. */
  method RstLine(s: RstState, raw: string) returns (r: RstState)
    ensures r == RstStep(s, raw)
  {
    var line := Strip(raw);
    if line == [] {
      return s;
    }
    var summaryName := DialogName(line, SummaryTitle);
    if summaryName.Some? {
      var name := Strip(summaryName.value);
      return RstState(SetDefault(s.data, name), Some(name), None);
    }
    var data := s.data;
    if s.summary.Some? && s.summary.value != [] {
      if StartsWith(line, "Roadway Discharge (cms)") {
        var series := ParseSeries(line);
        data := Store(data, s.summary.value, "roadway", Numbers(series));
      }
      if StartsWith(line, "Iterations") {
        data := Store(data, s.summary.value, "iterations", Texts(TextSeries(line)));
      }
    }
    if DialogName(line, CulvertTitle).Some? {
      if s.summary.Some? && s.summary.value != [] {
        data := SetDefault(data, s.summary.value);
      }
      return RstState(data, s.summary, s.summary);
    }
    if s.capturing.None? {
      return s.(data := data);
    }
    var c := s.capturing.value;
    if StartsWith(line, "Total Discharge (cms)") {
      var series := ParseSeries(line);
      data := Store(data, c, "flow", Numbers(series));
    }
    if StartsWith(line, "Headwater Elevation (m)") {
      var series := ParseSeries(line);
      data := Store(data, c, "headwater", Numbers(series));
    }
    if StartsWith(line, "Outlet Velocity (m/s)") {
      var series := ParseSeries(line);
      data := Store(data, c, "velocity", Numbers(series));
    }
    return s.(data := data);
  }

  /** `parse_rst(path)` over the file's lines. */
  method ParseRst(lines: seq<string>) returns (data: map<string, Entry>)
    ensures data == RstRun(lines).data
  {
    var s := RstStart;
    for i := 0 to |lines|
      invariant s == Run(RstStep, RstStart, lines[..i])
    {
      assert lines[..i + 1][..i] == lines[..i];
      s := RstLine(s, lines[i]);
    }
    assert lines[..|lines|] == lines;
    data := s.data;
  }

  // ---------------------------------------------------------------------------------------
  // The `.rsql` report: `parse_rsql`
  // ---------------------------------------------------------------------------------------

  /** `FlowProfile`: one flow profile of a crossing. */
  datatype FlowProfile = FlowProfile(flow: Num, headwaterDepth: Num, flowType: string, overtopping: bool)

  const EmptyProfile: FlowProfile := FlowProfile(NaN, NaN, "", false)

  /** The scanner's state: the profiles so far, the current crossing and the open profile. */
  datatype RsqlState = RsqlState(data: map<string, seq<FlowProfile>>, crossing: Option<string>, profile: Option<FlowProfile>)

  const RsqlStart: RsqlState := RsqlState(map[], None, None)

  /** One `key: value` line applied to the open profile. */
  function ProfileField(p: FlowProfile, key: string, value: string): (r: FlowProfile)
    ensures key == "Overtops" ==> (r.overtopping <==> Lower(value) == "true")
    ensures key == "FlowProfileFlow" ==> r.flow == NumOf(value) && r.headwaterDepth == p.headwaterDepth
  {
    if key == "FlowProfileFlow" then p.(flow := NumOf(value))
    else if key == "HeadwaterToDepth" then p.(headwaterDepth := NumOf(value))
    else if key == "FlowType" then p.(flowType := value)
    else if key == "Overtops" then p.(overtopping := Lower(value) == "true")
    else p
  }

  /** `data.setdefault(crossing, []).append(profile)` */
  function Append(data: map<string, seq<FlowProfile>>, c: string, p: FlowProfile): map<string, seq<FlowProfile>> {
    data[c := (if c in data then data[c] else []) + [p]]
  }

  /** One pass of `parse_rsql`'s line loop. */
  function RsqlStep(s: RsqlState, raw: string): RsqlState {
    var line := Strip(raw);
    if line == [] then s
    else if StartsWith(line, "Crossing:") then s.(crossing := Some(Strip(line[9..])))
    else if StartsWith(line, "FlowProfileName:") then s.(profile := Some(EmptyProfile))
    else if s.profile.None? || s.crossing.None? then s
    else OpenProfileStep(s, line)
  }

  /** The rest of the loop body, once both a crossing and an open profile exist. */
  function OpenProfileStep(s: RsqlState, line: string): RsqlState
    requires s.profile.Some? && s.crossing.Some?
  {
    if StartsWith(line, "EndFlowProfile") then
      RsqlState(Append(s.data, s.crossing.value, s.profile.value), s.crossing, None)
    else if ':' !in line then s
    else
      var i := IndexOf(line, ':');
      s.(profile := Some(ProfileField(s.profile.value, Strip(line[..i]), Strip(line[i + 1..]))))
  }

  function RsqlRun(lines: seq<string>): RsqlState {
    Run(RsqlStep, RsqlStart, lines)
  }

  /** What `parse_rsql(path)` returns: nothing for a missing file. */
  function RsqlData(fileExists: bool, lines: seq<string>): map<string, seq<FlowProfile>> {
    if fileExists then RsqlRun(lines).data else map[]
  }

  /** A profile is stored only by an `EndFlowProfile` line while both a crossing and an open
      profile exist; it is appended to that crossing's list and the profile is closed. */
  lemma ProfileStoredOnlyAtEnd(s: RsqlState, raw: string)
    ensures var r := RsqlStep(s, raw); var line := Strip(raw);
      r.data != s.data ==>
        && StartsWith(line, "EndFlowProfile") && s.crossing.Some? && s.profile.Some?
        && r.data == Append(s.data, s.crossing.value, s.profile.value) && r.profile.None?
    ensures var line := Strip(raw);
      StartsWith(line, "EndFlowProfile") && s.crossing.Some? && s.profile.Some? ==>
        var c := s.crossing.value; var r := RsqlStep(s, raw);
        c in r.data && r.data[c] == (if c in s.data then s.data[c] else []) + [s.profile.value] && r.profile.None?
  {
    var line := Strip(raw);
    if StartsWith(line, "EndFlowProfile") {
      assert !StartsWith(line, "Crossing:") by {
        assert line[0] == 'E';
      }
      assert !StartsWith(line, "FlowProfileName:") by {
        assert line[1] == 'n';
      }
    }
  }

  /** A new `FlowProfileName:` line opens a fresh profile and drops an unfinished one. */
  lemma NewProfileDiscards(s: RsqlState, raw: string)
    requires StartsWith(Strip(raw), "FlowProfileName:")
    ensures RsqlStep(s, raw) == s.(profile := Some(EmptyProfile))
  {
    assert !StartsWith(Strip(raw), "Crossing:") by {
      assert Strip(raw)[0] == 'F';
    }
  }

  /** Earlier profiles of every crossing stay, in order. */
  predicate ProfilesKept(a: RsqlState, b: RsqlState) {
    forall c :: c in a.data ==> c in b.data && a.data[c] <= b.data[c]
  }

  lemma ProfilesStepAppends(s: RsqlState, raw: string)
    ensures ProfilesKept(s, RsqlStep(s, raw))
  {
  }

  /** The profile lists only grow at their ends, whatever lines follow. */
  lemma ProfilesOnlyAppended(lines: seq<string>, more: seq<string>)
    ensures ProfilesKept(RsqlRun(lines), RsqlRun(lines + more))
  {
    forall a: RsqlState, b: RsqlState, c: RsqlState | ProfilesKept(a, b) && ProfilesKept(b, c)
      ensures ProfilesKept(a, c)
    {
      forall k | k in a.data
        ensures k in c.data && a.data[k] <= c.data[k]
      {
        assert a.data[k] <= b.data[k] <= c.data[k];
      }
    }
    forall s, raw
      ensures ProfilesKept(s, RsqlStep(s, raw))
    {
      ProfilesStepAppends(s, raw);
    }
    RunAdvances(RsqlStep, RsqlStart, lines, more, ProfilesKept);
  }

  /** A file without `EndFlowProfile` lines yields no profiles. */
  lemma NoEndNoProfiles(lines: seq<string>)
    requires forall k :: 0 <= k < |lines| ==> !StartsWith(Strip(lines[k]), "EndFlowProfile")
    ensures RsqlRun(lines).data == map[]
  {
    var allowed := (raw: string) => !StartsWith(Strip(raw), "EndFlowProfile");
    var empty := (s: RsqlState) => s.data == map[];
    forall s, raw | empty(s) && allowed(raw)
      ensures empty(RsqlStep(s, raw))
    {
      ProfileStoredOnlyAtEnd(s, raw);
    }
    RunKeepsOver(RsqlStep, RsqlStart, lines, empty, allowed);
  }

  /** One line of `parse_rsql`'s loop. */
  method RsqlLine(s: RsqlState, raw: string) returns (r: RsqlState)
    ensures r == RsqlStep(s, raw)
  {
    var line := Strip(raw);
    if line == [] {
      return s;
    }
    if StartsWith(line, "Crossing:") {
      return s.(crossing := Some(Strip(line[9..])));
    }
    if StartsWith(line, "FlowProfileName:") {
      return s.(profile := Some(EmptyProfile));
    }
    if s.profile.None? || s.crossing.None? {
      return s;
    }
    r := OpenProfileLine(s, line);
  }

  /** The loop body once a crossing and a profile are open: close the profile, or set one of
      its fields from a `key: value` line. */
  method OpenProfileLine(s: RsqlState, line: string) returns (r: RsqlState)
    requires s.profile.Some? && s.crossing.Some?
    ensures r == OpenProfileStep(s, line)
  {
    if StartsWith(line, "EndFlowProfile") {
      var c := s.crossing.value;
      var list := if c in s.data then s.data[c] else [];
      return RsqlState(s.data[c := list + [s.profile.value]], s.crossing, None);
    }
    if ':' !in line {
      return s;
    }
    var i := IndexOf(line, ':');
    var key, value := Strip(line[..i]), Strip(line[i + 1..]);
    return s.(profile := Some(ProfileField(s.profile.value, key, value)));
  }

  /** `parse_rsql(path)`: `fileExists` says whether the file is there. */
  method ParseRsql(fileExists: bool, lines: seq<string>) returns (data: map<string, seq<FlowProfile>>)
    ensures data == RsqlData(fileExists, lines)
  {
    if !fileExists {
      return map[];
    }
    var s := RsqlStart;
    for i := 0 to |lines|
      invariant s == Run(RsqlStep, RsqlStart, lines[..i])
    {
      assert lines[..i + 1][..i] == lines[..i];
      s := RsqlLine(s, lines[i]);
    }
    assert lines[..|lines|] == lines;
    data := s.data;
  }

  // ---------------------------------------------------------------------------------------
  // Nearest flow
  // ---------------------------------------------------------------------------------------

  /** `abs(x - t)` */
  function Dist(x: real, t: real): real {
    if x < t then t - x else x - t
  }

  /** Index `i` holds the first flow at minimal distance from `t` among the non-NaN flows. */
  predicate FirstNearest(flows: seq<Num>, t: real, i: nat) {
    && i < |flows| && flows[i].Val?
    && (forall j :: 0 <= j < |flows| && flows[j].Val? ==> Dist(flows[i].v, t) <= Dist(flows[j].v, t))
    && (forall j :: 0 <= j < i && flows[j].Val? ==> Dist(flows[i].v, t) < Dist(flows[j].v, t))
  }

  /** The scan of `nearest`: strict `<` keeps the first of equally near flows, NaN flows are
      skipped, and a NaN target is never nearer than the initial infinity. */
  function NearestIndex(flows: seq<Num>, target: Num): (r: Option<nat>)
    ensures r.None? <==> target.NaN? || forall j :: 0 <= j < |flows| ==> flows[j].NaN?
    ensures r.Some? ==> FirstNearest(flows, target.v, r.value)
    decreases |flows|
  {
    if target.NaN? || flows == [] then None
    else
      var n := |flows| - 1;
      var p := NearestIndex(flows[..n], target);
      if flows[n].NaN? then
        NearestSkips(flows, flows[..n], target.v, p);
        p
      else if p.None? then
        NearestFirst(flows, flows[..n], target.v);
        Some(n)
      else if Dist(flows[n].v, target.v) < Dist(flows[p.value].v, target.v) then
        NearestReplaces(flows, target.v, p.value);
        Some(n)
      else
        NearestKeeps(flows, target.v, p.value);
        p
  }

  /** A NaN flow at the end changes nothing. */
  lemma NearestSkips(flows: seq<Num>, init: seq<Num>, t: real, p: Option<nat>)
    requires flows != [] && flows[|flows| - 1].NaN? && init == flows[..|flows| - 1]
    requires p.None? <==> forall j :: 0 <= j < |init| ==> init[j].NaN?
    requires p.Some? ==> FirstNearest(init, t, p.value)
    ensures p.None? <==> forall j :: 0 <= j < |flows| ==> flows[j].NaN?
    ensures p.Some? ==> FirstNearest(flows, t, p.value)
  {
    assert forall j :: 0 <= j < |init| ==> init[j] == flows[j];
  }

  /** The first non-NaN flow is the nearest so far. */
  lemma NearestFirst(flows: seq<Num>, init: seq<Num>, t: real)
    requires flows != [] && flows[|flows| - 1].Val? && init == flows[..|flows| - 1]
    requires forall j :: 0 <= j < |init| ==> init[j].NaN?
    ensures FirstNearest(flows, t, |flows| - 1)
  {
    assert forall j :: 0 <= j < |init| ==> init[j] == flows[j];
  }

  /** A strictly nearer flow at the end becomes the nearest. */
  lemma NearestReplaces(flows: seq<Num>, t: real, p: nat)
    requires flows != [] && flows[|flows| - 1].Val?
    requires FirstNearest(flows[..|flows| - 1], t, p)
    requires Dist(flows[|flows| - 1].v, t) < Dist(flows[p].v, t)
    ensures FirstNearest(flows, t, |flows| - 1)
  {
    var init := flows[..|flows| - 1];
    assert forall j :: 0 <= j < |init| ==> init[j] == flows[j];
  }

  /** A flow at the end that is not strictly nearer leaves the nearest where it was. */
  lemma NearestKeeps(flows: seq<Num>, t: real, p: nat)
    requires flows != [] && flows[|flows| - 1].Val?
    requires FirstNearest(flows[..|flows| - 1], t, p)
    requires Dist(flows[p].v, t) <= Dist(flows[|flows| - 1].v, t)
    ensures FirstNearest(flows, t, p)
  {
    var init := flows[..|flows| - 1];
    assert forall j :: 0 <= j < |init| ==> init[j] == flows[j];
  }

  /** The first nearest flow is unique, so any scan that finds one agrees with `NearestIndex`. */
  lemma FirstNearestUnique(flows: seq<Num>, t: real, i: nat, k: nat)
    requires FirstNearest(flows, t, i) && FirstNearest(flows, t, k)
    ensures i == k
  {
  }

  /** One pass of the `nearest` loop, stated on the prefix scanned so far. */
  lemma NearestStep(flows: seq<Num>, target: Num, k: nat)
    requires k < |flows| && target.Val?
    ensures var p := NearestIndex(flows[..k], target);
      NearestIndex(flows[..k + 1], target) ==
        if flows[k].NaN? then p
        else if p.None? || Dist(flows[k].v, target.v) < Dist(flows[p.value].v, target.v) then Some(k)
        else p
  {
    assert flows[..k + 1][..k] == flows[..k];
    var p := NearestIndex(flows[..k], target);
    if p.Some? {
      assert flows[..k][p.value] == flows[p.value];
    }
  }

  /** `nearest_profile(profiles, target)` */
  method NearestProfile(profiles: seq<FlowProfile>, target: Num) returns (best: Option<FlowProfile>)
    ensures best == ProfileAt(profiles, NearestIndex(ProfileFlows(profiles), target))
  {
    var flows := ProfileFlows(profiles);
    var index: Option<nat> := None;
    var bestDelta: Option<real> := None;
    for k := 0 to |profiles|
      invariant index == NearestIndex(flows[..k], target)
      invariant index.Some? ==> index.value < k && flows[index.value].Val? && target.Val?
      invariant index.Some? ==> bestDelta == Some(Dist(flows[index.value].v, target.v))
      invariant index.None? ==> bestDelta.None?
    {
      if target.NaN? {
        continue;
      }
      NearestStep(flows, target, k);
      if profiles[k].flow.NaN? {
        continue;
      }
      var delta := Dist(profiles[k].flow.v, target.v);
      if bestDelta.None? || delta < bestDelta.value {
        bestDelta := Some(delta);
        index := Some(k);
      }
    }
    assert flows[..|profiles|] == flows;
    best := if index.Some? then Some(profiles[index.value]) else None;
  }

  function ProfileFlows(profiles: seq<FlowProfile>): (r: seq<Num>)
    ensures |r| == |profiles| && forall i :: 0 <= i < |r| ==> r[i] == profiles[i].flow
  {
    seq(|profiles|, i requires 0 <= i < |profiles| => profiles[i].flow)
  }

  function ProfileAt(profiles: seq<FlowProfile>, i: Option<nat>): Option<FlowProfile> {
    if i.Some? && i.value < |profiles| then Some(profiles[i.value]) else None
  }

  // ---------------------------------------------------------------------------------------
  // The merged result rows: `Hy8Results`
  // ---------------------------------------------------------------------------------------

  /** `Hy8ResultRow` */
  datatype ResultRow = ResultRow(
    flow: Num, headwaterElevation: Num, velocity: Num, roadwayDischarge: Num,
    iterations: string, headwaterDepth: Num, flowType: string, overtopping: bool)

  /** `entry.get(key, []) or []` for a numeric series. */
  function NumbersAt(entry: Entry, key: string): seq<Num> {
    if key in entry && entry[key].Numbers? then entry[key].nums else []
  }

  /** `entry.get(key, []) or []` for the text series. */
  function TextsAt(entry: Entry, key: string): seq<string> {
    if key in entry && entry[key].Texts? then entry[key].texts else []
  }

  function NumAt(xs: seq<Num>, i: nat): Num {
    if i < |xs| then xs[i] else NaN
  }

  function TextAt(xs: seq<string>, i: nat): string {
    if i < |xs| then xs[i] else ""
  }

  /** The row for flow entry `i`: parallel entries by position (NaN or "" when missing), the
      nearest profile's depth, type and overtopping, and overtopping forced when the iteration
      text mentions it. */
  function MergedRow(entry: Entry, profiles: seq<FlowProfile>, i: nat): ResultRow
    requires i < |NumbersAt(entry, "flow")|
  {
    var flow := NumbersAt(entry, "flow")[i];
    var iteration := TextAt(TextsAt(entry, "iterations"), i);
    var profile := ProfileAt(profiles, NearestIndex(ProfileFlows(profiles), flow));
    ResultRow(
      flow,
      NumAt(NumbersAt(entry, "headwater"), i),
      NumAt(NumbersAt(entry, "velocity"), i),
      NumAt(NumbersAt(entry, "roadway"), i),
      iteration,
      if profile.Some? then profile.value.headwaterDepth else NaN,
      if profile.Some? then profile.value.flowType else "",
      (iteration != [] && Contains(Lower(iteration), "overtopping")) || (profile.Some? && profile.value.overtopping))
  }

  function MergedRows(entry: Entry, profiles: seq<FlowProfile>): seq<ResultRow> {
    var flows := NumbersAt(entry, "flow");
    seq(|flows|, i requires 0 <= i < |flows| => MergedRow(entry, profiles, i))
  }

  /** One row per flow, in order; a missing parallel value is NaN or ""; overtopping mentioned in
      the iteration text wins over the profile. */
  lemma MergedRowsSpec(entry: Entry, profiles: seq<FlowProfile>, i: nat)
    requires i < |NumbersAt(entry, "flow")|
    ensures |MergedRows(entry, profiles)| == |NumbersAt(entry, "flow")|
    ensures var row := MergedRows(entry, profiles)[i];
      && row.flow == NumbersAt(entry, "flow")[i]
      && (i >= |NumbersAt(entry, "headwater")| ==> row.headwaterElevation.NaN?)
      && (i >= |TextsAt(entry, "iterations")| ==> row.iterations == "")
      && (Contains(Lower(row.iterations), "overtopping") ==> row.overtopping)
  {
    var row := MergedRows(entry, profiles)[i];
    if row.iterations == [] {
      assert Lower(row.iterations) == [];
      assert !StartsWith(Lower(row.iterations), "overtopping");
    }
  }

  /** A NaN flow finds no profile: its depth is NaN and its type empty. */
  lemma NaNFlowHasNoProfile(entry: Entry, profiles: seq<FlowProfile>, i: nat)
    requires i < |NumbersAt(entry, "flow")| && NumbersAt(entry, "flow")[i].NaN?
    ensures MergedRows(entry, profiles)[i].headwaterDepth.NaN?
    ensures MergedRows(entry, profiles)[i].flowType == ""
  {
  }

  function RowFlows(rows: seq<ResultRow>): (r: seq<Num>)
    ensures |r| == |rows| && forall i :: 0 <= i < |r| ==> r[i] == rows[i].flow
  {
    seq(|rows|, i requires 0 <= i < |rows| => rows[i].flow)
  }

  function Discharges(rows: seq<ResultRow>): (r: seq<Num>)
    ensures |r| == |rows| && forall i :: 0 <= i < |r| ==> r[i] == rows[i].roadwayDischarge
  {
    seq(|rows|, i requires 0 <= i < |rows| => rows[i].roadwayDischarge)
  }

  /** The largest of the non-NaN values, if any. */
  function MaxValue(xs: seq<Num>): (r: Option<real>)
    ensures r.None? <==> forall i :: 0 <= i < |xs| ==> xs[i].NaN?
    ensures r.Some? ==> forall i :: 0 <= i < |xs| && xs[i].Val? ==> xs[i].v <= r.value
    ensures r.Some? ==> exists i :: 0 <= i < |xs| && xs[i] == Val(r.value)
    decreases |xs|
  {
    if xs == [] then None
    else
      var rest := MaxValue(xs[1..]);
      assert forall i :: 1 <= i < |xs| ==> xs[i] == xs[1..][i - 1];
      if xs[0].NaN? then rest
      else if rest.None? then Some(xs[0].v)
      else
        assert exists i :: 0 <= i < |xs| && xs[i] == Val(rest.value) by {
          var k :| 0 <= k < |xs[1..]| && xs[1..][k] == Val(rest.value);
          assert xs[k + 1] == Val(rest.value);
        }
        Some(Max(xs[0].v, rest.value))
  }

  class Hy8Results {
    var rows: seq<ResultRow>

    /** `Hy8Results(entry, profiles)` */
    constructor (entry: Entry, profiles: seq<FlowProfile>)
      ensures rows == MergedRows(entry, profiles)
    {
      var flows := NumbersAt(entry, "flow");
      var headwaters := NumbersAt(entry, "headwater");
      var velocities := NumbersAt(entry, "velocity");
      var roadway := NumbersAt(entry, "roadway");
      var iterations := TextsAt(entry, "iterations");
      var built: seq<ResultRow> := [];
      for i := 0 to |flows|
        invariant |built| == i
        invariant forall j :: 0 <= j < i ==> built[j] == MergedRow(entry, profiles, j)
      {
        var iteration := if i < |iterations| then iterations[i] else "";
        var profile := NearestProfile(profiles, flows[i]);
        var row := ResultRow(
          flows[i],
          if i < |headwaters| then headwaters[i] else NaN,
          if i < |velocities| then velocities[i] else NaN,
          if i < |roadway| then roadway[i] else NaN,
          iteration,
          if profile.Some? then profile.value.headwaterDepth else NaN,
          if profile.Some? then profile.value.flowType else "",
          profile.Some? && profile.value.overtopping);
        if iteration != [] && Contains(Lower(iteration), "overtopping") {
          row := row.(overtopping := true);
        }
        built := built + [row];
      }
      rows := built;
    }

    /** `nearest(target)`: the first row whose non-NaN flow is closest to the target. */
    method Nearest(target: Num) returns (best: Option<ResultRow>)
      ensures best.None? <==> target.NaN? || forall j :: 0 <= j < |rows| ==> rows[j].flow.NaN?
      ensures best.Some? ==> exists i: nat :: FirstNearest(RowFlows(rows), target.v, i) && best == Some(rows[i])
    {
      var flows := RowFlows(rows);
      var index: Option<nat> := None;
      var bestDelta: Option<real> := None;
      for k := 0 to |rows|
        invariant index == NearestIndex(flows[..k], target)
        invariant index.Some? ==> index.value < k && flows[index.value].Val? && target.Val?
        invariant index.Some? ==> bestDelta == Some(Dist(flows[index.value].v, target.v))
        invariant index.None? ==> bestDelta.None?
      {
        if target.NaN? {
          continue;
        }
        NearestStep(flows, target, k);
        if rows[k].flow.NaN? {
          continue;
        }
        var delta := Dist(rows[k].flow.v, target.v);
        if bestDelta.None? || delta < bestDelta.value {
          bestDelta := Some(delta);
          index := Some(k);
        }
      }
      assert flows[..|rows|] == flows;
      if index.Some? {
        best := Some(rows[index.value]);
        assert FirstNearest(RowFlows(rows), target.v, index.value);
      } else {
        best := None;
      }
    }

    /** `roadway_max()`: the largest non-NaN roadway discharge, else 0.0. */
    function RoadwayMax(): (r: real)
      reads this
      ensures forall i :: 0 <= i < |rows| && rows[i].roadwayDischarge.Val? ==> rows[i].roadwayDischarge.v <= r
      ensures (forall i :: 0 <= i < |rows| ==> rows[i].roadwayDischarge.NaN?) ==> r == 0.0
      ensures (exists i :: 0 <= i < |rows| && rows[i].roadwayDischarge.Val?) ==>
        exists i :: 0 <= i < |rows| && rows[i].roadwayDischarge == Val(r)
    {
      var m := MaxValue(Discharges(rows));
      if m.Some? then m.value else 0.0
    }
  }
}
