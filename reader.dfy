/** `_Hy8Parser`: recursive descent over the card stream, building a project value card by
    card. Unknown cards are ignored, malformed numbers fall back to defaults, and a crossing or
    barrel block that never closes ends the parse with the stream's `StopIteration`. */
module Reader {
  import opened Wrappers
  import opened Text
  import opened Enums
  import opened References
  import opened CardStreams
  import opened CardFields
  import Flows
  import Tailwaters
  import Roadways
  import Barrels
  import Crossings
  import Projects

  /** The exception that escapes when a block is cut short by the end of the file. */
  const StreamExhausted: string := "StopIteration"
  const EmptyFile: string := "HY-8 file is empty."

  function BadHeader(key: string): string {
    "Expected HY8PROJECTFILE header, found '" + key + "'."
  }

  /** What a parsing step yields and the stream state after it. */
  datatype Parsed<T> = Parsed(result: Result<T>, rest: StreamState)

  // ---------------------------------------------------------------------------------------
  // Card effects that read nothing from the stream
  // ---------------------------------------------------------------------------------------

  /** `_apply_project_card` for the cards that carry their value on their own line. */
  function ProjectCard(p: Projects.ProjectValue, key: string, value: string): (r: Projects.ProjectValue)
    ensures r.crossings == p.crossings && r.notes == p.notes
    ensures key == "UNITS" ==> (r.units == SI <==> AsInt(value, 0) == SI.ProjectFlag())
  {
    if key == "UNITS" then p.(units := if AsInt(value, 0) == SI.ProjectFlag() then SI else English)
    else if key == "EXITLOSSOPTION" then p.(exitLossOption := AsInt(value, 0))
    else if key == "PROJTITLE" then p.(title := CleanString(value))
    else if key == "PROJDESIGNER" then p.(designer := CleanString(value))
    else p
  }

  /** DISCHARGERANGE: as many of minimum, design and maximum as there are numbers. */
  function WithRange(f: Flows.FlowValue, numbers: seq<real>): (r: Flows.FlowValue)
    ensures r.flowMethod == f.flowMethod && r.userValues == f.userValues && r.userValueLabels == f.userValueLabels
    ensures r.minimum == (if |numbers| > 0 then numbers[0] else f.minimum)
    ensures r.design == (if |numbers| > 1 then numbers[1] else f.design)
    ensures r.maximum == (if |numbers| > 2 then numbers[2] else f.maximum)
  {
    if numbers == [] then f
    else
      var withMinimum := f.(minimum := numbers[0]);
      var withDesign := if |numbers| > 1 then withMinimum.(design := numbers[1]) else withMinimum;
      if |numbers| > 2 then withDesign.(maximum := numbers[2]) else withDesign
  }

  /** CHANNELGEOMETRY: bottom width, side slope, channel slope, Manning's n and invert, as many
      as there are numbers. */
  function WithGeometry(t: Tailwaters.TailwaterValue, n: seq<real>): (r: Tailwaters.TailwaterValue)
    ensures r.twType == t.twType && r.constantElevation == t.constantElevation
    ensures r.ratingCurveEntries == t.ratingCurveEntries && r.ratingCurve == t.ratingCurve
    ensures r.bottomWidth == (if |n| > 0 then n[0] else t.bottomWidth)
    ensures r.sideslope == (if |n| > 1 then n[1] else t.sideslope)
    ensures r.channelSlope == (if |n| > 2 then n[2] else t.channelSlope)
    ensures r.manningN == (if |n| > 3 then n[3] else t.manningN)
    ensures r.invertElevation == (if |n| > 4 then n[4] else t.invertElevation)
  {
    if n == [] then t
    else
      var t1 := t.(bottomWidth := n[0]);
      var t2 := if |n| > 1 then t1.(sideslope := n[1]) else t1;
      var t3 := if |n| > 2 then t2.(channelSlope := n[2]) else t2;
      var t4 := if |n| > 3 then t3.(manningN := n[3]) else t3;
      if |n| > 4 then t4.(invertElevation := n[4]) else t4
  }

  /** ROADWAYSECDATA / ROADWAYPOINT: a station and an elevation, appended only as a pair. */
  function WithPoint(r: Roadways.RoadwayValue, pair: seq<real>): (s: Roadways.RoadwayValue)
    ensures |pair| == 2 ==> s == r.(stations := r.stations + [pair[0]], elevations := r.elevations + [pair[1]])
    ensures |pair| != 2 ==> s == r
  {
    if |pair| == 2 then r.(stations := r.stations + [pair[0]], elevations := r.elevations + [pair[1]]) else r
  }

  /** `_parse_crossing`'s handling of the cards that carry their value on their own line. */
  function CrossingCard(c: Crossings.CrossingValue, key: string, value: string): (r: Crossings.CrossingValue)
    ensures r.name == c.name && r.culverts == c.culverts
    ensures r.flow.userValues == c.flow.userValues
    ensures |c.roadway.stations| == |c.roadway.elevations| ==> |r.roadway.stations| == |r.roadway.elevations|
  {
    if key == "STARTCROSSNOTES" then c.(notes := CleanString(value))
    else if key == "DISCHARGERANGE" then c.(flow := WithRange(c.flow, Floats(value, Some(3))))
    else if key == "DISCHARGEMETHOD" then
      c.(flow := c.flow.(flowMethod := if AsInt(value, 0) == 0 then MinDesignMax else UserDefined))
    else if key == "TAILWATERTYPE" then c.(tailwater := c.tailwater.(twType := TailwaterTypeOf(value)))
    else if key == "CHANNELGEOMETRY" then c.(tailwater := WithGeometry(c.tailwater, Floats(value, Some(5))))
    else if key == "TWRATINGCURVE" then
      var stages := Floats(value, None);
      if stages != [] then c.(tailwater := c.tailwater.(constantElevation := stages[0])) else c
    else if key == "ROADWAYSHAPE" then c.(roadway := c.roadway.(shape := AsInt(value, c.roadway.shape)))
    else if key == "ROADWIDTH" then c.(roadway := c.roadway.(width := AsFloat(value, c.roadway.width)))
    else if key == "SURFACE" then c.(roadway := c.roadway.(surface := SurfaceOf(value)))
    else if key == "ROADWAYSECDATA" || key == "ROADWAYPOINT" then
      c.(roadway := WithPoint(c.roadway, Floats(value, Some(2))))
    else if key == "CROSSGUID" then c.(uuid := Some(CleanString(value)))
    else c
  }

  /** `_parse_crossing` as written: the TAILWATERTYPE card assigns `tailwater.type`, an attribute
      the tailwater's `tw_type` field does not see, so the type read is lost. */
  function CrossingCardAsWritten(c: Crossings.CrossingValue, key: string, value: string): Crossings.CrossingValue {
    if key == "TAILWATERTYPE" then c else CrossingCard(c, key, value)
  }

  /** A TAILWATERTYPE card naming a rectangular channel leaves a constant tailwater constant as
      written, where the evidently intended parser records the rectangular type. */
  lemma TailwaterTypeCardLost(c: Crossings.CrossingValue)
    requires c.tailwater.twType == Constant
    ensures CrossingCardAsWritten(c, "TAILWATERTYPE", "1").tailwater.twType == Constant
    ensures CrossingCard(c, "TAILWATERTYPE", "1").tailwater.twType == Rectangular
  {
    AsIntOfString(1, 0);
    assert IntToString(1) == "1";
  }

  /** BARRELDATA: span, rise and both Manning's n values, only when all four are present. */
  function WithBarrelData(b: Barrels.BarrelValue, n: seq<real>): (r: Barrels.BarrelValue)
    ensures |n| >= 4 ==> r == b.(span := n[0], rise := n[1], manningNTop := Some(n[2]), manningNBottom := Some(n[3]))
    ensures |n| < 4 ==> r == b
  {
    if |n| >= 4 then b.(span := n[0], rise := n[1], manningNTop := Some(n[2]), manningNBottom := Some(n[3])) else b
  }

  /** INVERTDATA: both invert stations and elevations, only when all four are present. */
  function WithInvertData(b: Barrels.BarrelValue, n: seq<real>): (r: Barrels.BarrelValue)
    ensures |n| >= 4 ==> r == b.(inletInvertStation := n[0], inletInvertElevation := n[1],
                                 outletInvertStation := n[2], outletInvertElevation := n[3])
    ensures |n| < 4 ==> r == b
  {
    if |n| >= 4 then
      b.(inletInvertStation := n[0], inletInvertElevation := n[1], outletInvertStation := n[2], outletInvertElevation := n[3])
    else b
  }

  /** `_parse_culvert`'s handling of the cards that carry their value on their own line. */
  function CulvertCard(b: Barrels.BarrelValue, key: string, value: string): (r: Barrels.BarrelValue)
    ensures r.name == b.name && r.notes == b.notes
  {
    if key == "CULVERTSHAPE" then b.(shape := ShapeOf(value))
    else if key == "CULVERTMATERIAL" then b.(material := MaterialOf(value))
    else if key == "BARRELDATA" then WithBarrelData(b, Floats(value, Some(4)))
    else if key == "NUMBEROFBARRELS" then b.(numberOfBarrels := AsInt(value, b.numberOfBarrels))
    else if key == "INVERTDATA" then WithInvertData(b, Floats(value, Some(4)))
    else if key == "ROADCULVSTATION" then b.(roadwayStation := AsFloat(value, b.roadwayStation))
    else if key == "BARRELSPACING" then b.(barrelSpacing := Some(AsFloat(value, 0.0)))
    else b
  }

  /** `_finalize_flow`: a min-design-max flow is kept; otherwise the values read become a
      min-max-increment flow when evenly spaced, else the user-defined values. */
  function FinalizeFlow(f: Flows.FlowValue, values: seq<real>): Flows.FlowValue {
    if f.flowMethod.MinDesignMax? then f
    else if values == [] then f.(flowMethod := UserDefined, userValues := [])
    else if DetectIncrement(values).Some? then
      f.(flowMethod := MinMaxIncrement, minimum := values[0], maximum := values[|values| - 1], userValues := [])
    else f.(flowMethod := UserDefined, userValues := values)
  }

  /** A flow that is not min-design-max reads back as user-defined with exactly the values read
      unless they are evenly spaced; evenly spaced values (three or more) become a
      min-max-increment flow spanning them, which the writer can no longer write. */
  lemma FinalizeFlowSpec(f: Flows.FlowValue, values: seq<real>)
    ensures f.flowMethod.MinDesignMax? ==> FinalizeFlow(f, values) == f
    ensures !f.flowMethod.MinDesignMax? && DetectIncrement(values).None? ==>
      Flows.Sequence(FinalizeFlow(f, values)) == Ok(values)
    ensures !f.flowMethod.MinDesignMax? && DetectIncrement(values).Some? ==>
      var g := FinalizeFlow(f, values);
      && g.flowMethod == MinMaxIncrement && g.minimum == values[0] && g.maximum == values[|values| - 1]
      && g.userValues == [] && Flows.Sequence(g).Err?
  {
    if !f.flowMethod.MinDesignMax? && DetectIncrement(values).Some? {
      DetectedIncrement(values);
    }
  }

  /** Evenly spaced user flows do not survive a write and a read: three or more flows in
      exact non-zero steps come back as a min-max-increment flow. */
  lemma EvenUserFlowsBecomeIncrement(f: Flows.FlowValue, values: seq<real>, d: real)
    requires f.flowMethod == UserDefined
    requires |values| >= 3 && d != 0.0
    requires forall i :: 0 <= i < |values| - 1 ==> values[i + 1] - values[i] == d
    ensures FinalizeFlow(f, values).flowMethod == MinMaxIncrement
    ensures Flows.Sequence(FinalizeFlow(f, values)).Err?
  {
    EvenStepsDetected(values, d);
  }

  // ---------------------------------------------------------------------------------------
  // The parser over stream states
  // ---------------------------------------------------------------------------------------

  /** The notes text: the stripped non-blank lines, joined by newlines. */
  function NoteLines(lines: seq<string>): (r: seq<string>)
    ensures |r| <= |lines|
    ensures forall i :: 0 <= i < |r| ==> r[i] != [] && !IsSpace(r[i][0])
    decreases |lines|
  {
    if lines == [] then []
    else
      var rest := NoteLines(lines[1..]);
      var s := Strip(lines[0]);
      if s != [] then
        CleanHead(lines[0]);
        [s] + rest
      else rest
  }

  datatype Notes = Notes(text: string, rest: StreamState)

  /** `_collect_notes`: the cleaned inline value (when not empty) followed by the block up to the
      end marker. */
  function CollectNotesSpec(st: StreamState, inline: string, marker: string): (n: Notes)
    ensures Measure(n.rest) <= Measure(st) && n.rest.lines == st.lines
  {
    var block := ReadBlock(st, marker);
    var first := CleanString(inline);
    var lines := (if first != [] then [first] else []) + block.contents;
    Notes(Join("\n", NoteLines(lines)), block.rest)
  }

  /** `_read_flow_values`' loop with the values read so far. */
  function FlowValuesFrom(st: StreamState, expected: int, values: seq<real>): (p: Parsed<seq<real>>)
    ensures Measure(p.rest) <= Measure(st) && p.rest.lines == st.lines
    decreases Measure(st)
  {
    if |values| >= expected then Parsed(Ok(values), st)
    else
      var t := TakeCard(st);
      if t.card.None? then Parsed(Err(StreamExhausted), t.rest)
      else
        var card := t.card.value;
        if card.key == "DISCHARGEXYUSER_Y" then FlowValuesFrom(t.rest, expected, values + [AsFloat(card.value, 0.0)])
        else if card.key == "DISCHARGEXYUSER_NAME" then FlowValuesFrom(t.rest, expected, values)
        else Parsed(Ok(values), PushBack(t.rest, card))
  }

  /** `_read_flow_values(expected)` */
  function ReadFlowValuesSpec(st: StreamState, expected: int): (p: Parsed<seq<real>>)
    ensures Measure(p.rest) <= Measure(st) && p.rest.lines == st.lines
  {
    if expected <= 0 then Parsed(Ok([]), st) else FlowValuesFrom(st, expected, [])
  }

  /** `_parse_culvert`'s loop with the barrel built so far. */
  function CulvertFrom(st: StreamState, b: Barrels.BarrelValue): (p: Parsed<Barrels.BarrelValue>)
    ensures Measure(p.rest) <= Measure(st) && p.rest.lines == st.lines
    decreases Measure(st)
  {
    var t := TakeCard(st);
    if t.card.None? then Parsed(Err(StreamExhausted), t.rest)
    else
      var card := t.card.value;
      if card.key == "ENDCULVERT" then Parsed(Ok(b), t.rest)
      else if card.key == "STARTCULVNOTES" then
        var notes := CollectNotesSpec(t.rest, card.value, "ENDCULVNOTES");
        CulvertFrom(notes.rest, b.(notes := notes.text))
      else CulvertFrom(t.rest, CulvertCard(b, card.key, card.value))
  }

  /** `CulvertCrossing(name=name or "Crossing")` */
  function CrossingName(name: string): string {
    if name == [] then "Crossing" else name
  }

  /** `_parse_crossing`'s loop with the crossing built so far and the user flows read last. */
  function CrossingFrom(st: StreamState, c: Crossings.CrossingValue, pending: seq<real>): (p: Parsed<Crossings.CrossingValue>)
    ensures Measure(p.rest) <= Measure(st) && p.rest.lines == st.lines
    decreases Measure(st)
  {
    var t := TakeCard(st);
    if t.card.None? then Parsed(Err(StreamExhausted), t.rest)
    else
      var card := t.card.value;
      if card.key == "ENDCROSSING" then Parsed(Ok(c.(flow := FinalizeFlow(c.flow, pending))), t.rest)
      else if card.key == "DISCHARGEXYUSER" then
        var flows := ReadFlowValuesSpec(t.rest, AsInt(card.value, 0));
        if flows.result.Err? then Parsed(Err(flows.result.msg), flows.rest)
        else CrossingFrom(flows.rest, c, flows.result.value)
      else if card.key == "RATINGCURVE" then CrossingFrom(SkipUntil(t.rest, "END RATINGCURVE"), c, pending)
      else if card.key == "STARTCULVERT" then
        var barrel := CulvertFrom(t.rest, Barrels.DefaultBarrel(CleanString(card.value)));
        if barrel.result.Err? then Parsed(Err(barrel.result.msg), barrel.rest)
        else CrossingFrom(barrel.rest, c.(culverts := c.culverts + [barrel.result.value]), pending)
      else CrossingFrom(t.rest, CrossingCard(c, card.key, card.value), pending)
  }

  /** `_apply_project_card`, including the notes block it may read. */
  function ProjectCardSpec(p: Projects.ProjectValue, card: Hy8Card, st: StreamState): (r: (Projects.ProjectValue, StreamState))
    ensures Measure(r.1) <= Measure(st) && r.1.lines == st.lines
    ensures r.0.crossings == p.crossings
  {
    if card.key == "STARTPROJNOTES" then
      var notes := CollectNotesSpec(st, card.value, "ENDPROJNOTES");
      (p.(notes := notes.text), notes.rest)
    else (ProjectCard(p, card.key, card.value), st)
  }

  /** `parse`'s loop with the project built so far: it ends at ENDPROJECTFILE or at the end of
      the file. */
  function ProjectFrom(st: StreamState, p: Projects.ProjectValue): (r: Parsed<Projects.ProjectValue>)
    ensures Measure(r.rest) <= Measure(st) && r.rest.lines == st.lines
    decreases Measure(st)
  {
    var t := TakeCard(st);
    if t.card.None? then Parsed(Ok(p), t.rest)
    else
      var card := t.card.value;
      if card.key == "ENDPROJECTFILE" then Parsed(Ok(p), t.rest)
      else if card.key == "STARTCROSSING" then
        var crossing := CrossingFrom(t.rest, Crossings.DefaultCrossing(CrossingName(CleanString(card.value))), []);
        if crossing.result.Err? then Parsed(Err(crossing.result.msg), crossing.rest)
        else ProjectFrom(crossing.rest, p.(crossings := p.crossings + [crossing.result.value]))
      else
        var applied := ProjectCardSpec(p, card, t.rest);
        ProjectFrom(applied.1, applied.0)
  }

  /** `_consume_header`: the first card must be the header card. */
  function HeaderSpec(st: StreamState): (r: (Option<string>, StreamState))
    ensures Measure(r.1) <= Measure(st) && r.1.lines == st.lines
  {
    var t := TakeCard(st);
    if t.card.None? then (Some(EmptyFile), t.rest)
    else if t.card.value.key != HeaderKey then (Some(BadHeader(t.card.value.key)), t.rest)
    else (None, t.rest)
  }

  /** `parse()` */
  function ParseSpec(st: StreamState): Parsed<Projects.ProjectValue> {
    var header := HeaderSpec(st);
    if header.0.Some? then Parsed(Err(header.0.value), header.1)
    else ProjectFrom(header.1, Projects.DefaultProject)
  }

  /** The project a list of lines parses to. */
  function ParseLines(lines: seq<string>): Result<Projects.ProjectValue> {
    ParseSpec(Initial(lines)).result
  }

  // ---------------------------------------------------------------------------------------
  // The parser object
  // ---------------------------------------------------------------------------------------

  class Hy8Parser {
    const stream: CardStream

    constructor (lines: seq<string>)
      ensures fresh(stream) && stream.State() == Initial(lines)
    {
      stream := new CardStream(lines);
    }

    /** `_consume_header` */
    method ConsumeHeader() returns (error: Option<string>)
      modifies stream
      ensures (error, stream.State()) == HeaderSpec(old(stream.State()))
    {
      var card := stream.NextCard();
      if card.None? {
        return Some(EmptyFile);
      }
      if card.value.key != HeaderKey {
        return Some(BadHeader(card.value.key));
      }
      return None;
    }

    /** `_collect_notes(inline_value, end_marker=...)` */
    method CollectNotes(inline: string, marker: string) returns (text: string)
      modifies stream
      ensures Notes(text, stream.State()) == CollectNotesSpec(old(stream.State()), inline, marker)
    {
      var lines := [];
      var first := CleanString(inline);
      if first != [] {
        lines := lines + [first];
      }
      var block := stream.ReadBlockLines(marker);
      lines := lines + block;
      text := Join("\n", NoteLines(lines));
    }

    /** `_read_flow_values(expected)` */
    method ReadFlowValues(expected: int) returns (r: Result<seq<real>>)
      modifies stream
      ensures Parsed(r, stream.State()) == ReadFlowValuesSpec(old(stream.State()), expected)
    {
      if expected <= 0 {
        return Ok([]);
      }
      var values := [];
      while |values| < expected
        invariant FlowValuesFrom(stream.State(), expected, values) == ReadFlowValuesSpec(old(stream.State()), expected)
        decreases Measure(stream.State())
      {
        var card := stream.NextCard();
        if card.None? {
          return Err(StreamExhausted);
        }
        if card.value.key == "DISCHARGEXYUSER_Y" {
          values := values + [AsFloat(card.value.value, 0.0)];
        } else if card.value.key != "DISCHARGEXYUSER_NAME" {
          stream.PushBackCard(card.value);
          return Ok(values);
        }
      }
      return Ok(values);
    }

    /** `_parse_culvert(name)` */
    method ParseCulvert(name: string) returns (r: Result<Barrels.BarrelValue>)
      modifies stream
      ensures Parsed(r, stream.State()) == CulvertFrom(old(stream.State()), Barrels.DefaultBarrel(name))
    {
      var culvert := Barrels.DefaultBarrel(name);
      while true
        invariant CulvertFrom(stream.State(), culvert) == CulvertFrom(old(stream.State()), Barrels.DefaultBarrel(name))
        decreases Measure(stream.State())
      {
        var card := stream.NextCard();
        if card.None? {
          return Err(StreamExhausted);
        }
        var key, value := card.value.key, card.value.value;
        if key == "ENDCULVERT" {
          return Ok(culvert);
        }
        if key == "STARTCULVNOTES" {
          var notes := CollectNotes(value, "ENDCULVNOTES");
          culvert := culvert.(notes := notes);
        } else {
          culvert := CulvertCard(culvert, key, value);
        }
      }
    }

    /** `_parse_crossing(name)` */
    method ParseCrossing(name: string) returns (r: Result<Crossings.CrossingValue>)
      modifies stream
      ensures Parsed(r, stream.State()) == CrossingFrom(old(stream.State()), Crossings.DefaultCrossing(CrossingName(name)), [])
    {
      var crossing := Crossings.DefaultCrossing(CrossingName(name));
      var pending: seq<real> := [];
      while true
        invariant CrossingFrom(stream.State(), crossing, pending)
                  == CrossingFrom(old(stream.State()), Crossings.DefaultCrossing(CrossingName(name)), [])
        decreases Measure(stream.State())
      {
        var card := stream.NextCard();
        if card.None? {
          return Err(StreamExhausted);
        }
        var key, value := card.value.key, card.value.value;
        if key == "ENDCROSSING" {
          return Ok(crossing.(flow := FinalizeFlow(crossing.flow, pending)));
        }
        if key == "DISCHARGEXYUSER" {
          var flows := ReadFlowValues(AsInt(value, 0));
          if flows.Err? {
            return Err(flows.msg);
          }
          pending := flows.value;
        } else if key == "RATINGCURVE" {
          stream.SkipUntilLine("END RATINGCURVE");
        } else if key == "STARTCULVERT" {
          var culvert := ParseCulvert(CleanString(value));
          if culvert.Err? {
            return Err(culvert.msg);
          }
          crossing := crossing.(culverts := crossing.culverts + [culvert.value]);
        } else {
          crossing := CrossingCard(crossing, key, value);
        }
      }
    }

    /** `_apply_project_card(project, card)` */
    method ApplyProjectCard(project: Projects.ProjectValue, card: Hy8Card) returns (r: Projects.ProjectValue)
      modifies stream
      ensures (r, stream.State()) == ProjectCardSpec(project, card, old(stream.State()))
    {
      if card.key == "STARTPROJNOTES" {
        var notes := CollectNotes(card.value, "ENDPROJNOTES");
        return project.(notes := notes);
      }
      return ProjectCard(project, card.key, card.value);
    }

    /** `parse()` */
    method Parse() returns (r: Result<Projects.ProjectValue>)
      modifies stream
      ensures Parsed(r, stream.State()) == ParseSpec(old(stream.State()))
    {
      var error := ConsumeHeader();
      if error.Some? {
        return Err(error.value);
      }
      var project := Projects.DefaultProject;
      while true
        invariant ProjectFrom(stream.State(), project) == ParseSpec(old(stream.State()))
        decreases Measure(stream.State())
      {
        var card := stream.NextCard();
        if card.None? {
          return Ok(project);
        }
        if card.value.key == "ENDPROJECTFILE" {
          return Ok(project);
        }
        if card.value.key == "STARTCROSSING" {
          var crossing := ParseCrossing(CleanString(card.value.value));
          if crossing.Err? {
            return Err(crossing.msg);
          }
          project := project.(crossings := project.crossings + [crossing.value]);
        } else {
          project := ApplyProjectCard(project, card.value);
        }
      }
    }
  }

  /** `load_project_from_hy8`, from the file's lines: a fresh parser over them. */
  method LoadProject(lines: seq<string>) returns (r: Result<Projects.ProjectValue>)
    ensures r == ParseLines(lines)
  {
    var parser := new Hy8Parser(lines);
    r := parser.Parse();
  }
}
