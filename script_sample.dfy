/** The sample comparison driver (`scripts/sample_crossing_compare.py`): comparing the results of
    two runs name by name, normalising project files line by line, making a project name safe,
    and turning scenario records into scenarios. */
module SampleCompare {
  import opened Wrappers
  import opened Text
  import opened Numbers
  import opened PyValues
  import opened Results
  import opened RunnerOutput
  import opened ScriptShared
  import Config
  import BatchCompare

  // ---------------------------------------------------------------------------------------
  // sorted({*run_data.keys(), *legacy_data.keys()})
  // ---------------------------------------------------------------------------------------

  /** Python's `<` on strings is a strict total order. */
  lemma {:induction false} LexLessIrreflexive(a: string)
    ensures !Config.LexLess(a, a)
    decreases |a|
  {
    if a != [] {
      LexLessIrreflexive(a[1..]);
    }
  }

  lemma {:induction false} LexLessTransitive(a: string, b: string, c: string)
    requires Config.LexLess(a, b) && Config.LexLess(b, c)
    ensures Config.LexLess(a, c)
    decreases |a|
  {
    if a != [] && a[0] == b[0] && b[0] == c[0] {
      LexLessTransitive(a[1..], b[1..], c[1..]);
    }
  }

  lemma {:induction false} LexLessTotal(a: string, b: string)
    requires a != b
    ensures Config.LexLess(a, b) || Config.LexLess(b, a)
    decreases |a|
  {
    if a != [] && b != [] && a[0] == b[0] {
      assert a == [a[0]] + a[1..] && b == [b[0]] + b[1..];
      LexLessTotal(a[1..], b[1..]);
    }
  }

  lemma LexLessAsymmetric(a: string, b: string)
    requires Config.LexLess(a, b)
    ensures !Config.LexLess(b, a)
  {
    if Config.LexLess(b, a) {
      LexLessTransitive(a, b, a);
      LexLessIrreflexive(a);
    }
  }

  predicate IsLeast(m: string, s: set<string>) {
    m in s && forall x :: x in s && x != m ==> Config.LexLess(m, x)
  }

  lemma {:induction false} LeastExists(s: set<string>)
    requires s != {}
    ensures exists m :: IsLeast(m, s)
    decreases |s|
  {
    var y :| y in s;
    var rest := s - {y};
    if rest == {} {
      assert s == {y};
      assert IsLeast(y, s);
    } else {
      LeastExists(rest);
      var m :| IsLeast(m, rest);
      if Config.LexLess(y, m) {
        forall x | x in s && x != y
          ensures Config.LexLess(y, x)
        {
          if x != m {
            LexLessTransitive(y, m, x);
          }
        }
        assert IsLeast(y, s);
      } else {
        LexLessTotal(y, m);
        assert IsLeast(m, s);
      }
    }
  }

  lemma LeastUnique(s: set<string>, m: string, m': string)
    requires IsLeast(m, s) && IsLeast(m', s)
    ensures m == m'
  {
    if m != m' {
      LexLessAsymmetric(m, m');
    }
  }

  lemma LeastUniqueAll(s: set<string>)
    ensures forall m, m' :: IsLeast(m, s) && IsLeast(m', s) ==> m == m'
  {
    forall m, m' | IsLeast(m, s) && IsLeast(m', s) ensures m == m' {
      LeastUnique(s, m, m');
    }
  }

  /** The least name of a non-empty set. */
  function Least(s: set<string>): (m: string)
    requires s != {}
    ensures IsLeast(m, s)
  {
    LeastExists(s);
    LeastUniqueAll(s);
    var m :| IsLeast(m, s);
    m
  }

  /** `sorted(names)`: every name once, in increasing order. */
  function SortedNames(s: set<string>): (r: seq<string>)
    ensures Config.SortedStrings(r)
    ensures forall x :: x in r <==> x in s
    ensures |r| == |s|
    decreases |s|
  {
    if s == {} then []
    else
      var m := Least(s);
      var rest := SortedNames(s - {m});
      var r := [m] + rest;
      assert forall j :: 1 <= j < |r| ==> r[j] == rest[j - 1] && r[j] in s - {m};
      r
  }

  // ---------------------------------------------------------------------------------------
  // sequences_close
  // ---------------------------------------------------------------------------------------

  /** Two entries agree: both NaN, or both numbers at most `tolerance` apart. */
  predicate PairClose(left: Num, right: Num, tolerance: real) {
    (left.NaN? && right.NaN?) || (left.Val? && right.Val? && Abs(left.v - right.v) <= tolerance)
  }

  predicate Close(a: seq<Num>, b: seq<Num>, tolerance: real) {
    |a| == |b| && forall i :: 0 <= i < |a| ==> PairClose(a[i], b[i], tolerance)
  }

  /** `sequences_close(a, b, tolerance)`: the lengths first, then each pair in order, leaving at
      the first pair that disagrees. */
  method SequencesClose(a: seq<Num>, b: seq<Num>, tolerance: real) returns (close: bool)
    ensures close == Close(a, b, tolerance)
  {
    if |a| != |b| {
      return false;
    }
    for i := 0 to |a|
      invariant forall j :: 0 <= j < i ==> PairClose(a[j], b[j], tolerance)
    {
      var left, right := a[i], b[i];
      if left.NaN? && right.NaN? {
        continue;
      }
      if (left.NaN? && !right.NaN?) || (!left.NaN? && right.NaN?) {
        return false;
      }
      if Abs(left.v - right.v) > tolerance {
        return false;
      }
    }
    return true;
  }

  /** Closeness is reflexive for a non-negative tolerance (NaN matching NaN), symmetric, and
      with a zero tolerance it is equality. */
  lemma CloseProperties(a: seq<Num>, b: seq<Num>, tolerance: real)
    ensures tolerance >= 0.0 ==> Close(a, a, tolerance)
    ensures Close(a, b, tolerance) <==> Close(b, a, tolerance)
    ensures Close(a, b, 0.0) <==> a == b
  {
    if Close(a, b, 0.0) {
      assert forall i :: 0 <= i < |a| ==> a[i] == b[i];
    }
    forall i | 0 <= i < |a| && i < |b|
      ensures PairClose(a[i], b[i], tolerance) <==> PairClose(b[i], a[i], tolerance)
    {
      if a[i].Val? && b[i].Val? {
        assert Abs(b[i].v - a[i].v) == Abs(a[i].v - b[i].v);
      }
    }
  }

  /** A larger tolerance accepts whatever a smaller one does. */
  lemma CloseMonotone(a: seq<Num>, b: seq<Num>, tolerance: real, wider: real)
    requires tolerance <= wider && Close(a, b, tolerance)
    ensures Close(a, b, wider)
  {
  }

  // ---------------------------------------------------------------------------------------
  // compare_result_sets
  // ---------------------------------------------------------------------------------------

  /** The series compared by tolerance, in the order they are compared. */
  const SeriesKeys: seq<string> := ["flow", "headwater", "velocity", "roadway"]

  /** `entry.get("iterations")` */
  function IterationsOf(e: Entry): Option<Series> {
    if "iterations" in e then Some(e["iterations"]) else None
  }

  const RunSide: string := "run-hy8"
  const LegacySide: string := "hy8runner"

  /** The side a name present on one side only is said to be missing from, as written: `run-hy8`
      only when the legacy entry is truthy, so a name whose legacy entry is empty is said to be
      missing from the legacy side. */
  function MissingSideAsWritten(name: string, legacy: map<string, Entry>): string {
    if name in legacy && legacy[name] != map[] then RunSide else LegacySide
  }

  /** The side a name present on one side only is missing from. */
  function MissingSide(name: string, legacy: map<string, Entry>): string {
    if name in legacy then RunSide else LegacySide
  }

  function MissingMessage(name: string, legacy: map<string, Entry>): string {
    name + ": missing from " + MissingSide(name, legacy) + " results"
  }

  /** The message names the side whose results lack the name; as written it does so too unless
      the legacy entry is empty. */
  lemma MissingSideNamed(name: string, run: map<string, Entry>, legacy: map<string, Entry>)
    requires (name in run) != (name in legacy)
    ensures MissingSide(name, legacy) == RunSide <==> name !in run
    ensures MissingSide(name, legacy) == LegacySide <==> name !in legacy
    ensures name !in legacy || legacy[name] != map[] ==>
      MissingSideAsWritten(name, legacy) == MissingSide(name, legacy)
  {
  }

  /** A crossing the legacy run parsed with no series (an empty entry) and the new run lacks is
      said, as written, to be missing from the legacy side. */
  lemma EmptyLegacyEntryMislabelled()
    ensures var run: map<string, Entry>, legacy: map<string, Entry> := map[], map["C" := map[]];
      "C" !in run && "C" in legacy
      && MissingSideAsWritten("C", legacy) == LegacySide && MissingSide("C", legacy) == RunSide
  {
  }

  /** The report for one series of a name present on both sides. */
  function KeyReport(name: string, run: Entry, legacy: Entry, tolerance: real): string -> seq<string> {
    (key: string) =>
      if Close(NumbersAt(run, key), NumbersAt(legacy, key), tolerance) then []
      else [name + ": " + key + " values differ"]
  }

  /** The reports for a name present on both sides: each series in turn, then the iterations. */
  function EntryReport(name: string, run: Entry, legacy: Entry, tolerance: real): seq<string> {
    EachBlock(SeriesKeys, KeyReport(name, run, legacy, tolerance))
    + (if IterationsOf(run) != IterationsOf(legacy) then [name + ": iteration summaries differ"] else [])
  }

  /** The reports for one name of the union. */
  function NameReportOf(run: map<string, Entry>, legacy: map<string, Entry>, tolerance: real, name: string): seq<string> {
    if name !in run || name !in legacy then [MissingMessage(name, legacy)]
    else EntryReport(name, run[name], legacy[name], tolerance)
  }

  function NameReport(run: map<string, Entry>, legacy: map<string, Entry>, tolerance: real): string -> seq<string> {
    (name: string) => NameReportOf(run, legacy, tolerance, name)
  }

  /** What `compare_result_sets` returns: the reports of every name of either side, by name. */
  function Mismatches(run: map<string, Entry>, legacy: map<string, Entry>, tolerance: real): seq<string> {
    EachBlock(SortedNames(run.Keys + legacy.Keys), NameReport(run, legacy, tolerance))
  }

  /** The four series and the iterations of two entries of the same name. */
  method CompareEntries(name: string, run: Entry, legacy: Entry, tolerance: real) returns (added: seq<string>)
    ensures added == EntryReport(name, run, legacy, tolerance)
  {
    added := [];
    for k := 0 to |SeriesKeys|
      invariant added == EachBlock(SeriesKeys[..k], KeyReport(name, run, legacy, tolerance))
    {
      EachBlockStep(SeriesKeys, k, KeyReport(name, run, legacy, tolerance));
      var key := SeriesKeys[k];
      var close := SequencesClose(NumbersAt(run, key), NumbersAt(legacy, key), tolerance);
      if !close {
        added := added + [name + ": " + key + " values differ"];
      }
    }
    assert SeriesKeys[..|SeriesKeys|] == SeriesKeys;
    if IterationsOf(run) != IterationsOf(legacy) {
      added := added + [name + ": iteration summaries differ"];
    }
  }

  /** `compare_result_sets(run_data, legacy_data, tolerance)` */
  method CompareResultSets(run: map<string, Entry>, legacy: map<string, Entry>, tolerance: real)
    returns (mismatches: seq<string>)
    ensures mismatches == Mismatches(run, legacy, tolerance)
  {
    var names := SortedNames(run.Keys + legacy.Keys);
    mismatches := [];
    for i := 0 to |names|
      invariant mismatches == EachBlock(names[..i], NameReport(run, legacy, tolerance))
    {
      EachBlockStep(names, i, NameReport(run, legacy, tolerance));
      var name := names[i];
      if name !in run || name !in legacy {
        mismatches := mismatches + [MissingMessage(name, legacy)];
        continue;
      }
      var added := CompareEntries(name, run[name], legacy[name], tolerance);
      mismatches := mismatches + added;
    }
    assert names[..|names|] == names;
  }

  /** Two entries agree: every compared series is close and the iterations are equal. */
  predicate EntriesAgree(run: Entry, legacy: Entry, tolerance: real) {
    (forall k :: 0 <= k < |SeriesKeys| ==> Close(NumbersAt(run, SeriesKeys[k]), NumbersAt(legacy, SeriesKeys[k]), tolerance))
    && IterationsOf(run) == IterationsOf(legacy)
  }

  lemma EntryReportEmpty(name: string, run: Entry, legacy: Entry, tolerance: real)
    ensures EntryReport(name, run, legacy, tolerance) == [] <==> EntriesAgree(run, legacy, tolerance)
  {
    var block := KeyReport(name, run, legacy, tolerance);
    EachBlockEmpty(SeriesKeys, block);
    AppendEmptyIff(EachBlock(SeriesKeys, block),
                   if IterationsOf(run) != IterationsOf(legacy) then [name + ": iteration summaries differ"] else []);
  }

  /** A name adds nothing exactly when both sides have it and their entries agree. */
  lemma NameReportEmpty(run: map<string, Entry>, legacy: map<string, Entry>, tolerance: real, name: string)
    ensures NameReportOf(run, legacy, tolerance, name) == [] <==>
      name in run && name in legacy && EntriesAgree(run[name], legacy[name], tolerance)
  {
    if name in run && name in legacy {
      EntryReportEmpty(name, run[name], legacy[name], tolerance);
    }
  }

  /** Both sides have the same names and agree on each. */
  predicate RunsAgree(run: map<string, Entry>, legacy: map<string, Entry>, tolerance: real) {
    run.Keys == legacy.Keys && forall name :: name in run ==> EntriesAgree(run[name], legacy[name], tolerance)
  }

  lemma NoMismatchesAgree(run: map<string, Entry>, legacy: map<string, Entry>, tolerance: real, names: seq<string>)
    requires forall x :: x in names <==> x in run.Keys + legacy.Keys
    requires forall i :: 0 <= i < |names| ==> NameReportOf(run, legacy, tolerance, names[i]) == []
    ensures RunsAgree(run, legacy, tolerance)
  {
    forall i | 0 <= i < |names|
      ensures names[i] in run && names[i] in legacy && EntriesAgree(run[names[i]], legacy[names[i]], tolerance)
    {
      NameReportEmpty(run, legacy, tolerance, names[i]);
    }
    forall name | name in run.Keys + legacy.Keys
      ensures name in run && name in legacy && EntriesAgree(run[name], legacy[name], tolerance)
    {
      var i :| 0 <= i < |names| && names[i] == name;
    }
    assert run.Keys == legacy.Keys;
  }

  lemma MismatchDisagrees(run: map<string, Entry>, legacy: map<string, Entry>, tolerance: real, name: string)
    requires name in run.Keys + legacy.Keys
    requires NameReportOf(run, legacy, tolerance, name) != []
    ensures !RunsAgree(run, legacy, tolerance)
  {
    NameReportEmpty(run, legacy, tolerance, name);
  }

  /** Nothing is reported exactly when both runs have the same names and, name by name, close
      series and equal iterations. */
  lemma MismatchesEmpty(run: map<string, Entry>, legacy: map<string, Entry>, tolerance: real)
    ensures Mismatches(run, legacy, tolerance) == [] <==> RunsAgree(run, legacy, tolerance)
  {
    var names := SortedNames(run.Keys + legacy.Keys);
    var block := NameReport(run, legacy, tolerance);
    EachBlockEmpty(names, block);
    if Mismatches(run, legacy, tolerance) == [] {
      NoMismatchesAgree(run, legacy, tolerance, names);
    } else {
      var i :| 0 <= i < |names| && block(names[i]) != [];
      MismatchDisagrees(run, legacy, tolerance, names[i]);
    }
  }

  /** Every name present on one side only is reported, with the side it is missing from. */
  lemma MissingNameReported(run: map<string, Entry>, legacy: map<string, Entry>, tolerance: real, name: string)
    requires (name in run) != (name in legacy)
    ensures MissingMessage(name, legacy) in Mismatches(run, legacy, tolerance)
  {
    var names := SortedNames(run.Keys + legacy.Keys);
    var i :| 0 <= i < |names| && names[i] == name;
    EachBlockSplit(names, NameReport(run, legacy, tolerance), i);
  }

  // ---------------------------------------------------------------------------------------
  // slugify
  // ---------------------------------------------------------------------------------------

  /** `slugify`: the name stripped of surrounding whitespace, each run of characters other than
      ASCII letters and digits made one underscore, the underscores at both ends removed, and
      `project` when nothing is left. */
  function Slugify(name: string): (r: string)
    ensures r != []
  {
    var safe := StripChar(ReplaceRuns(Strip(name)), '_');
    if safe == [] then "project" else safe
  }

  lemma {:induction false} AlnumsAppend(a: string, b: string)
    ensures Alnums(a + b) == Alnums(a) + Alnums(b)
    decreases |a|
  {
    if a == [] {
      assert a + b == b;
    } else {
      var x := if IsAsciiAlnum(a[0]) then [a[0]] else [];
      assert (a + b)[0] == a[0] && (a + b)[1..] == a[1..] + b;
      assert Alnums(a + b) == x + Alnums(a[1..] + b);
      AlnumsAppend(a[1..], b);
      SeqAppendAssoc(x, Alnums(a[1..]), Alnums(b));
    }
  }

  /** A text has no letter or digit exactly when its letters and digits are nothing. */
  lemma {:induction false} AlnumsEmpty(s: string)
    ensures Alnums(s) == [] <==> forall i :: 0 <= i < |s| ==> !IsAsciiAlnum(s[i])
    decreases |s|
  {
    if s != [] {
      AlnumsEmpty(s[1..]);
      assert forall i :: 1 <= i < |s| ==> s[i] == s[1..][i - 1];
    }
  }

  /** Cutting a text into a front, a middle and a back whose characters are no letters or digits
      leaves the letters and digits of the middle. */
  lemma AlnumsOfMiddle(s: string, lo: nat, hi: nat)
    requires lo <= hi <= |s|
    requires forall i :: 0 <= i < lo ==> !IsAsciiAlnum(s[i])
    requires forall i :: hi <= i < |s| ==> !IsAsciiAlnum(s[i])
    ensures Alnums(s) == Alnums(s[lo..hi])
  {
    var back := s[hi..];
    assert forall i :: 0 <= i < |back| ==> back[i] == s[hi + i];
    AlnumsEmpty(s[..lo]);
    AlnumsEmpty(back);
    MiddleAlnums(s, lo, hi);
  }

  lemma MiddleAlnums(s: string, lo: nat, hi: nat)
    requires lo <= hi <= |s|
    requires Alnums(s[..lo]) == [] && Alnums(s[hi..]) == []
    ensures Alnums(s) == Alnums(s[lo..hi])
  {
    assert s == s[..hi] + s[hi..];
    assert s[..hi] == s[..lo] + s[lo..hi];
    AlnumsAppend(s[..hi], s[hi..]);
    AlnumsAppend(s[..lo], s[lo..hi]);
  }

  lemma {:induction false} LStripCharRemoved(s: string, c: char)
    ensures forall i :: 0 <= i < |s| - |LStripChar(s, c)| ==> s[i] == c
    decreases |s|
  {
    if s != [] && s[0] == c {
      LStripCharRemoved(s[1..], c);
    }
  }

  lemma {:induction false} RStripCharRemoved(s: string, c: char)
    ensures forall i :: |RStripChar(s, c)| <= i < |s| ==> s[i] == c
    decreases |s|
  {
    if s != [] && s[|s| - 1] == c {
      RStripCharRemoved(s[..|s| - 1], c);
    }
  }

  lemma SafeNameSlice(s: string, lo: nat, hi: nat)
    requires SafeName(s) && lo <= hi <= |s|
    ensures SafeName(s[lo..hi])
  {
    assert forall i :: 0 <= i < hi - lo ==> s[lo..hi][i] == s[lo + i];
  }

  /** Removing surrounding whitespace keeps every letter and digit. */
  lemma AlnumsStrip(s: string)
    ensures Alnums(Strip(s)) == Alnums(s)
  {
    var l := LStrip(s);
    LStripSuffix(s);
    var r := RStrip(l);
    assert r == s[|s| - |l|..|s| - |l| + |r|];
    AlnumsOfMiddle(s, |s| - |l|, |s| - |l| + |r|);
  }

  /** What `strip("_")` leaves of a safe name: a safe piece of it with the same letters and
      digits, neither starting nor ending with an underscore. */
  lemma StripUnderscores(x: string)
    requires SafeName(x)
    ensures var z := StripChar(x, '_');
      SafeName(z) && Alnums(z) == Alnums(x) && (z != [] ==> z[0] != '_' && z[|z| - 1] != '_')
  {
    var y := LStripChar(x, '_');
    var z := RStripChar(y, '_');
    LStripCharRemoved(x, '_');
    RStripCharRemoved(y, '_');
    var lo := |x| - |y|;
    assert z == x[lo..lo + |z|];
    SafeNameSlice(x, lo, lo + |z|);
    AlnumsOfMiddle(x, lo, lo + |z|);
  }

  /** A safe name with no letter or digit that does not start with an underscore is empty. */
  lemma OnlyUnderscoresLeft(z: string)
    requires SafeName(z) && Alnums(z) == [] && (z == [] || z[0] != '_')
    ensures z == []
  {
    AlnumsEmpty(z);
  }

  /** The slug is a safe name that neither starts nor ends with an underscore; it keeps the
      letters and digits of the name, in order, and is `project` exactly when the name has
      none. */
  lemma SlugifySpec(name: string)
    ensures var r := Slugify(name);
      SafeName(r) && r[0] != '_' && r[|r| - 1] != '_'
      && (Alnums(name) == [] ==> r == "project")
      && (Alnums(name) != [] ==> Alnums(r) == Alnums(name))
  {
    var x := ReplaceRuns(Strip(name));
    ReplaceRunsSafe(Strip(name));
    AlnumsStrip(name);
    StripUnderscores(x);
    var z := StripChar(x, '_');
    if Alnums(name) == [] {
      OnlyUnderscoresLeft(z);
      assert Slugify(name) == "project";
      ProjectSafe();
    } else {
      assert z != [] && Slugify(name) == z;
    }
  }

  /** The fallback slug is a safe name. */
  lemma ProjectSafe()
    ensures SafeName("project")
  {
    var p := "project";
    forall i | 0 <= i < |p|
      ensures IsAsciiAlnum(p[i])
    {
    }
  }

  /** A slug is its own slug. */
  lemma SlugifyIdempotent(name: string)
    ensures Slugify(Slugify(name)) == Slugify(name)
  {
    var r := Slugify(name);
    SlugifySpec(name);
    assert !IsSpace(r[0]) && !IsSpace(r[|r| - 1]);
    assert Strip(r) == r;
    ReplaceRunsKeepsSafe(r);
    assert LStripChar(r, '_') == r;
    assert RStripChar(r, '_') == r;
    assert StripChar(ReplaceRuns(Strip(r)), '_') == r;
  }

  // ---------------------------------------------------------------------------------------
  // Normalised project files
  // ---------------------------------------------------------------------------------------

  /** `.rstrip("0").rstrip(".")`: a prefix of the text. */
  function TrimZeros(fixed: string): (r: string)
    ensures |r| <= |fixed| && r == fixed[..|r|]
    ensures NoSpace(fixed) ==> NoSpace(r)
  {
    RStripChar(RStripChar(fixed, '0'), '.')
  }

  /** `"0.0"` for nothing, a `.0` added when there is no point. */
  function WithPoint(formatted: string): (r: string)
    requires NoSpace(formatted)
    ensures r != [] && NoSpace(r) && '.' in r
  {
    if formatted == [] then
      assert "0.0"[1] == '.';
      "0.0"
    else if '.' !in formatted then
      var r := formatted + ".0";
      assert r[|formatted|] == '.';
      r
    else formatted
  }

  /** How `_normalize_token` writes a number: with six decimals, its trailing zeros and then a
      bare trailing point removed, and `.0` added back when no point is left. The result is
      always non-empty text without whitespace that holds a decimal point. */
  function NormalizeNumber(x: real): (r: string)
    ensures r != [] && NoSpace(r) && '.' in r
  {
    WithPoint(TrimZeros(Fixed(x, 6)))
  }

  /** `_normalize_token`: a number is rewritten as above; any other token is left alone. */
  function NormalizeToken(token: string): (r: string)
    ensures ParseFloat(token).None? ==> r == token
    ensures ParseFloat(token).Some? ==> r != [] && NoSpace(r) && '.' in r
  {
    var value := ParseFloat(token);
    if value.None? then token else NormalizeNumber(value.value)
  }

  const HeaderPrefix: string := "HY8PROJECTFILE"

  /** `_normalize_header`: the version after `HY8PROJECTFILE` is written as a whole number when it
      is a number with no fractional part. */
  function NormalizeHeader(line: string): (r: string)
  {
    if !StartsWith(line, HeaderPrefix) then line
    else
      var suffix := line[|HeaderPrefix|..];
      var number := ParseFloat(suffix);
      if number.None? then line
      else if number.value == number.value.Floor as real then HeaderPrefix + IntToString(Truncate(number.value))
      else HeaderPrefix + suffix
  }

  /** The header keeps its prefix; it changes only when the version is a whole number, which is
      then written by its integer digits. */
  lemma NormalizeHeaderSpec(line: string)
    ensures StartsWith(NormalizeHeader(line), HeaderPrefix) <==> StartsWith(line, HeaderPrefix)
    ensures NormalizeHeader(line) != line ==>
      StartsWith(line, HeaderPrefix)
      && var number := ParseFloat(line[|HeaderPrefix|..]);
      number.Some? && number.value == number.value.Floor as real
      && NormalizeHeader(line) == HeaderPrefix + IntToString(number.value.Floor)
  {
    if StartsWith(line, HeaderPrefix) {
      var suffix := line[|HeaderPrefix|..];
      var number := ParseFloat(suffix);
      if number.Some? && number.value == number.value.Floor as real {
        WholeTruncate(number.value);
        PrefixKept(IntToString(Truncate(number.value)));
      } else if number.Some? {
        assert line == line[..|HeaderPrefix|] + suffix;
      }
    }
  }

  /** Text behind the header prefix still starts with it. */
  lemma PrefixKept(rest: string)
    ensures StartsWith(HeaderPrefix + rest, HeaderPrefix)
  {
    assert (HeaderPrefix + rest)[..|HeaderPrefix|] == HeaderPrefix;
  }

  /** A whole number truncates to its floor. */
  lemma WholeTruncate(x: real)
    requires x == x.Floor as real
    ensures Truncate(x) == x.Floor
  {
    if x < 0.0 {
      assert -x == (-x.Floor) as real;
    }
  }

  /** Text whose only whitespace is single spaces between words. */
  predicate SingleSpaced(s: string) {
    && (forall i :: 0 <= i < |s| ==> IsSpace(s[i]) ==> s[i] == ' ')
    && (s != [] ==> s[0] != ' ' && s[|s| - 1] != ' ')
    && (forall i :: 0 <= i < |s| - 1 ==> s[i] == ' ' ==> s[i + 1] != ' ')
  }

  /** One more word in front of single-spaced text, behind a space, keeps it single-spaced. */
  lemma SingleSpacedCons(word: string, rest: string)
    requires word != [] && NoSpace(word)
    requires rest != [] && SingleSpaced(rest)
    ensures SingleSpaced(word + " " + rest)
  {
    var s := word + " " + rest;
    var n := |word|;
    assert forall i :: 0 <= i < n ==> s[i] == word[i];
    assert s[n] == ' ';
    assert forall i :: n < i < |s| ==> s[i] == rest[i - n - 1];
  }

  /** Words joined by single spaces give single-spaced text. */
  lemma {:induction false} JoinSingleSpaced(words: seq<string>)
    requires forall i :: 0 <= i < |words| ==> words[i] != [] && NoSpace(words[i])
    ensures SingleSpaced(Join(" ", words))
    ensures words != [] ==> Join(" ", words) != []
    decreases |words|
  {
    if |words| == 1 {
      assert Join(" ", words) == words[0];
    } else if |words| > 1 {
      JoinSingleSpaced(words[1..]);
      assert words[1..][0] == words[1];
      SingleSpacedCons(words[0], Join(" ", words[1..]));
    }
  }

  /** The tokens of a line, each normalised. */
  function NormalizeTokens(tokens: seq<string>): (r: seq<string>)
    ensures |r| == |tokens|
    ensures forall i :: 0 <= i < |r| ==> r[i] == NormalizeToken(tokens[i])
  {
    seq(|tokens|, i requires 0 <= i < |tokens| => NormalizeToken(tokens[i]))
  }

  /** What one raw line of a project file contributes: nothing for the `PROJDATE` line and for an
      empty or indented line, otherwise its tokens normalised and joined by single spaces (the
      header line first having its version normalised). */
  function NormalizedLine(raw: string): Option<string> {
    if StartsWith(raw, "PROJDATE") then None
    else if raw == [] || IsSpace(raw[0]) then None
    else
      var line := if StartsWith(raw, HeaderPrefix) then NormalizeHeader(raw) else raw;
      Some(Join(" ", NormalizeTokens(Words(line))))
  }

  function LineOutput(raw: string): seq<string> {
    var line := NormalizedLine(raw);
    if line.Some? then [line.value] else []
  }

  /** A line is dropped exactly when it is the date line or empty or indented; a kept line is
      non-empty, single-spaced text. */
  lemma NormalizedLineSpec(raw: string)
    ensures NormalizedLine(raw).None? <==> StartsWith(raw, "PROJDATE") || raw == [] || IsSpace(raw[0])
    ensures NormalizedLine(raw).Some? ==> NormalizedLine(raw).value != [] && SingleSpaced(NormalizedLine(raw).value)
  {
    if NormalizedLine(raw).Some? {
      var line := if StartsWith(raw, HeaderPrefix) then NormalizeHeader(raw) else raw;
      assert line != [] && !IsSpace(line[0]) by {
        if StartsWith(raw, HeaderPrefix) {
          NormalizeHeaderSpec(raw);
          assert line[0] == HeaderPrefix[0];
        }
      }
      var words := Words(line);
      WordsAreTokens(line);
      assert words != [] by {
        assert LStrip(line) == line;
      }
      var tokens := NormalizeTokens(words);
      assert forall i :: 0 <= i < |tokens| ==> tokens[i] != [] && NoSpace(tokens[i]);
      JoinSingleSpaced(tokens);
    }
  }

  /** `_normalized_lines` on the text of a project file. */
  method NormalizedLines(text: string) returns (lines: seq<string>)
    ensures lines == EachBlock(SplitLines(text), LineOutput)
  {
    var raws := SplitLines(text);
    lines := [];
    for i := 0 to |raws|
      invariant lines == EachBlock(raws[..i], LineOutput)
    {
      EachBlockStep(raws, i, LineOutput);
      var raw := raws[i];
      if StartsWith(raw, "PROJDATE") {
        continue;
      }
      if raw == [] || IsSpace(raw[0]) {
        continue;
      }
      if StartsWith(raw, HeaderPrefix) {
        raw := NormalizeHeader(raw);
      }
      var tokens := NormalizeTokens(Words(raw));
      lines := lines + [Join(" ", tokens)];
    }
    assert raws[..|raws|] == raws;
  }

  /** The normalised file has at most one line per raw line, and each is non-empty,
      single-spaced text. */
  lemma {:induction false} NormalizedLinesSpec(raws: seq<string>)
    ensures var lines := EachBlock(raws, LineOutput);
      |lines| <= |raws| && forall i :: 0 <= i < |lines| ==> lines[i] != [] && SingleSpaced(lines[i])
    decreases |raws|
  {
    if raws != [] {
      var n := |raws| - 1;
      NormalizedLinesSpec(raws[..n]);
      NormalizedLineSpec(raws[n]);
      var before := EachBlock(raws[..n], LineOutput);
      var lines := before + LineOutput(raws[n]);
      assert forall i :: 0 <= i < |before| ==> lines[i] == before[i];
    }
  }

  // ---------------------------------------------------------------------------------------
  // Scenario records
  // ---------------------------------------------------------------------------------------

  /** A scenario record: one JSON object or one CSV row. */
  type Record = map<string, PyValue>

  /** `record.get(key)`: `None` when the key is missing. */
  function Lookup(record: Record, key: string): Option<PyValue> {
    if key in record then Some(record[key]) else None
  }

  /** `_float(value, fallback)`: the fallback for a missing key, `None` and the empty string, the
      number a value converts to, and the fallback again when it does not convert. A NaN comes
      only from the fallback. */
  function FloatOf(value: Option<PyValue>, fallback: Num): (r: Num)
    ensures value.None? || value.value == PNone || value.value == PStr("") ==> r == fallback
    ensures value.Some? && value.value.PFloat? ==> r == Val(value.value.x)
    ensures value.Some? && value.value.PInt? ==> r == Val(value.value.i as real)
    ensures r != fallback ==> value.Some? && ToFloat(value.value).Ok? && r == Val(ToFloat(value.value).value)
    ensures r.NaN? ==> fallback.NaN?
  {
    if value.None? || value.value == PNone || value.value == PStr("") then fallback
    else
      var x := ToFloat(value.value);
      if x.Ok? then Val(x.value) else fallback
  }

  /** `_int(value, default=...)`: the integer a value converts to, else the default. */
  function IntOf(value: Option<PyValue>, default: int): (r: int)
    ensures value.Some? && value.value.PInt? ==> r == value.value.i
    ensures r != default ==> value.Some? && ToInt(value.value).Ok? && r == ToInt(value.value).value
  {
    if value.None? then default
    else
      var i := ToInt(value.value);
      if i.Ok? then i.value else default
  }

  /** What `records_to_scenarios` does with one record. */
  datatype Outcome = SkippedZeroFlow | Dropped | Kept(scenario: BatchCompare.Scenario)

  /** Discharges at most this large count as zero. */
  const ZeroFlow: real := 0.000000001

  /** The default crest: ten heights (at least a decimetre each) above the upstream invert. */
  function DefaultCrest(usInvert: real, height: real): real {
    usInvert + 10.0 * Max(0.1, height)
  }

  /** The scenario a record yields once its discharge, downstream headwater and height are
      known numbers, with `render` giving `str` of the values whose text the model does not
      render. It has at least one barrel; its inverts default to the downstream headwater, its
      index to the record's position, its Manning's n to zero and its crest to ten heights (at
      least one metre) above the upstream invert. */
  function RecordScenario(record: Record, sequence: nat, q: real, dsHeadwater: real, height: real, render: PyValue -> string)
    : (s: BatchCompare.Scenario)
    ensures s.q == q && s.dsHeadwater == dsHeadwater && s.heightM == height && s.barrels >= 1
    ensures "US Invert" !in record ==> s.usInvert == dsHeadwater
    ensures "DS Invert" !in record ==> s.dsInvert == dsHeadwater
    ensures "index" !in record ==> s.index == sequence
    ensures "roadway_crest" !in record ==> s.roadwayCrest == DefaultCrest(s.usInvert, height) && s.roadwayCrest >= s.usInvert + 1.0
    ensures "n or Cd" !in record ==> s.manningsN == 0.0
  {
    var index := IntOf(Lookup(record, "index"), sequence);
    var usInvert := FloatOf(Lookup(record, "US Invert"), Val(dsHeadwater)).v;
    var dsInvert := FloatOf(Lookup(record, "DS Invert"), Val(dsHeadwater)).v;
    var crestOverride := FloatOf(Lookup(record, "roadway_crest"), NaN);
    var crest := if crestOverride.Val? then crestOverride.v else DefaultCrest(usInvert, height);
    var mannings := FloatOf(Lookup(record, "n or Cd"), Val(0.0)).v;
    var barrels := if "number_interp" in record then record["number_interp"] else PInt(1);
    var internalName :=
      if "internalName" in record then Config.StrOf(record["internalName"], render)
      else "Scenario " + NatToString(sequence + 1);
    var chanId :=
      if "Chan ID" in record then Config.StrOf(record["Chan ID"], render)
      else "CHAN-" + Padded(sequence + 1, 3);
    BatchCompare.Scenario(
      index, internalName, chanId, q,
      FloatOf(Lookup(record, "V"), NaN), FloatOf(Lookup(record, "US_h"), NaN),
      dsHeadwater, FloatOf(Lookup(record, "Length"), Val(0.0)).v, mannings,
      usInvert, dsInvert, height, MaxInt(1, IntOf(Some(barrels), 1)), crest)
  }

  /** The body of the `for sequence, record in enumerate(records)` loop. A record is skipped
      exactly when skipping is asked for and its discharge is a number within a billionth of
      zero; otherwise it is dropped exactly when its discharge, downstream headwater or height is
      missing or not a number; a kept scenario has a discharge away from zero when zero flows are
      skipped. */
  function RecordOutcome(record: Record, sequence: nat, skipZeroFlow: bool, render: PyValue -> string): (r: Outcome)
    ensures var q := FloatOf(Lookup(record, "Q"), NaN);
      (r.SkippedZeroFlow? <==> skipZeroFlow && q.Val? && -ZeroFlow <= q.v <= ZeroFlow)
      && (r.Dropped? <==> (!r.SkippedZeroFlow? && (q.NaN? || FloatOf(Lookup(record, "DS_h"), NaN).NaN?
                                                    || FloatOf(Lookup(record, "Height"), NaN).NaN?)))
    ensures r.Kept? && skipZeroFlow ==> r.scenario.q < -ZeroFlow || r.scenario.q > ZeroFlow
  {
    var q := FloatOf(Lookup(record, "Q"), NaN);
    if skipZeroFlow && q.Val? && Abs(q.v) <= ZeroFlow then SkippedZeroFlow
    else
      var dsHeadwater := FloatOf(Lookup(record, "DS_h"), NaN);
      var height := FloatOf(Lookup(record, "Height"), NaN);
      if q.NaN? || dsHeadwater.NaN? || height.NaN? then Dropped
      else Kept(RecordScenario(record, sequence, q.v, dsHeadwater.v, height.v, render))
  }

  /** What each record does, in record order. */
  function Outcomes(records: seq<Record>, skipZeroFlow: bool, render: PyValue -> string): (os: seq<Outcome>)
    ensures |os| == |records|
  {
    seq(|records|, i requires 0 <= i < |records| => RecordOutcome(records[i], i, skipZeroFlow, render))
  }

  /** The scenarios kept among some outcomes, in order. */
  function KeptIn(os: seq<Outcome>): seq<BatchCompare.Scenario>
    decreases |os|
  {
    if os == [] then []
    else KeptIn(os[..|os| - 1]) + (if os[|os| - 1].Kept? then [os[|os| - 1].scenario] else [])
  }

  /** How many of some outcomes are skips for zero discharge. */
  function SkippedIn(os: seq<Outcome>): nat
    decreases |os|
  {
    if os == [] then 0
    else SkippedIn(os[..|os| - 1]) + (if os[|os| - 1].SkippedZeroFlow? then 1 else 0)
  }

  /** The scenarios of the first `n` records, in order. */
  function ScenariosOf(records: seq<Record>, skipZeroFlow: bool, render: PyValue -> string, n: nat): seq<BatchCompare.Scenario>
    requires n <= |records|
  {
    KeptIn(Outcomes(records, skipZeroFlow, render)[..n])
  }

  /** How many of the first `n` records were skipped for zero discharge. */
  function SkippedOf(records: seq<Record>, skipZeroFlow: bool, render: PyValue -> string, n: nat): nat
    requires n <= |records|
  {
    SkippedIn(Outcomes(records, skipZeroFlow, render)[..n])
  }

  /** `records_to_scenarios`: the scenarios kept, in record order, and the count of records
      skipped for zero discharge. */
  method RecordsToScenarios(records: seq<Record>, skipZeroFlow: bool, render: PyValue -> string)
    returns (scenarios: seq<BatchCompare.Scenario>, skipped: nat)
    ensures scenarios == ScenariosOf(records, skipZeroFlow, render, |records|)
    ensures skipped == SkippedOf(records, skipZeroFlow, render, |records|)
  {
    ghost var os := Outcomes(records, skipZeroFlow, render);
    scenarios := [];
    skipped := 0;
    for sequence := 0 to |records|
      invariant scenarios == KeptIn(os[..sequence])
      invariant skipped == SkippedIn(os[..sequence])
    {
      var kept, skippedOne := RecordStep(records[sequence], sequence, skipZeroFlow, render);
      assert os[..sequence + 1][..sequence] == os[..sequence];
      if skippedOne {
        skipped := skipped + 1;
      }
      scenarios := scenarios + kept;
    }
  }

  /** One pass of the `records_to_scenarios` loop: the record is skipped for zero discharge
      (`continue` after counting it), dropped for a missing number (`continue`), or kept. */
  method RecordStep(record: Record, sequence: nat, skipZeroFlow: bool, render: PyValue -> string)
    returns (kept: seq<BatchCompare.Scenario>, skippedOne: bool)
    ensures var o := RecordOutcome(record, sequence, skipZeroFlow, render);
      && (kept == if o.Kept? then [o.scenario] else [])
      && (skippedOne <==> o.SkippedZeroFlow?)
  {
    var q := FloatOf(Lookup(record, "Q"), NaN);
    if skipZeroFlow && q.Val? && Abs(q.v) <= ZeroFlow {
      return [], true;
    }
    var dsHeadwater := FloatOf(Lookup(record, "DS_h"), NaN);
    var height := FloatOf(Lookup(record, "Height"), NaN);
    if q.NaN? || dsHeadwater.NaN? || height.NaN? {
      return [], false;
    }
    kept := [RecordScenario(record, sequence, q.v, dsHeadwater.v, height.v, render)];
    skippedOne := false;
  }

  /** Each outcome is a kept scenario, a skip or a drop, so kept and skipped together number at
      most the outcomes. */
  lemma {:induction false} OutcomesAccounted(os: seq<Outcome>)
    ensures |KeptIn(os)| + SkippedIn(os) <= |os|
    ensures (forall i :: 0 <= i < |os| ==> !os[i].SkippedZeroFlow?) ==> SkippedIn(os) == 0
    decreases |os|
  {
    if os != [] {
      OutcomesAccounted(os[..|os| - 1]);
    }
  }

  /** Every record is kept, skipped or dropped, so the scenarios and the skipped records together
      number at most the records; without skipping, nothing is skipped. */
  lemma RecordsAccounted(records: seq<Record>, skipZeroFlow: bool, render: PyValue -> string, n: nat)
    requires n <= |records|
    ensures |ScenariosOf(records, skipZeroFlow, render, n)| + SkippedOf(records, skipZeroFlow, render, n) <= n
    ensures !skipZeroFlow ==> SkippedOf(records, skipZeroFlow, render, n) == 0
  {
    var os := Outcomes(records, skipZeroFlow, render)[..n];
    OutcomesAccounted(os);
    if !skipZeroFlow {
      forall i | 0 <= i < |os|
        ensures !os[i].SkippedZeroFlow?
      {
        assert os[i] == RecordOutcome(records[i], i, skipZeroFlow, render);
      }
    }
  }

  /** A scenario kept among some outcomes is the one some outcome keeps. */
  lemma {:induction false} KeptFromOutcome(os: seq<Outcome>)
    ensures forall s :: s in KeptIn(os) ==> exists i :: 0 <= i < |os| && os[i] == Kept(s)
    decreases |os|
  {
    if os != [] {
      var k := |os| - 1;
      KeptFromOutcome(os[..k]);
      forall s | s in KeptIn(os)
        ensures exists i :: 0 <= i < |os| && os[i] == Kept(s)
      {
        if s in KeptIn(os[..k]) {
          var i :| 0 <= i < k && os[..k][i] == Kept(s);
          assert os[i] == Kept(s);
        } else {
          assert os[k] == Kept(s);
        }
      }
    }
  }

  /** Every scenario returned is the one some record yields. */
  lemma ScenariosFromRecords(records: seq<Record>, skipZeroFlow: bool, render: PyValue -> string, n: nat)
    requires n <= |records|
    ensures forall s :: s in ScenariosOf(records, skipZeroFlow, render, n) ==>
      exists i :: 0 <= i < n && RecordOutcome(records[i], i, skipZeroFlow, render) == Kept(s)
  {
    var os := Outcomes(records, skipZeroFlow, render)[..n];
    KeptFromOutcome(os);
    forall s | s in KeptIn(os)
      ensures exists i :: 0 <= i < n && RecordOutcome(records[i], i, skipZeroFlow, render) == Kept(s)
    {
      var i :| 0 <= i < |os| && os[i] == Kept(s);
      assert RecordOutcome(records[i], i, skipZeroFlow, render) == os[i];
    }
  }

  // ---------------------------------------------------------------------------------------
  // select_scenarios
  // ---------------------------------------------------------------------------------------

  /** How many scenarios `select_scenarios` keeps: all of them for a limit of zero or less,
      otherwise no more than the limit. */
  function SelectedCount(limit: int, n: nat): (count: nat)
    ensures count <= n
    ensures limit <= 0 ==> count == n
    ensures limit > 0 ==> count <= limit && (count == n || count == limit)
  {
    var l := MaxInt(0, limit);
    if l == 0 then n else if l < n then l else n
  }

  /** `scenarios[:count]`: the first scenarios, in order. */
  function Selected<T>(scenarios: seq<T>, limit: int): (r: seq<T>)
    ensures |r| == SelectedCount(limit, |scenarios|) && r == scenarios[..|r|]
  {
    scenarios[..SelectedCount(limit, |scenarios|)]
  }
}
