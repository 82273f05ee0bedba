/** What the parser promises about whole files and about its blocks. */
module ReaderProperties {
  import opened Wrappers
  import opened Text
  import opened CardStreams
  import opened CardFields
  import opened Reader
  import Barrels
  import Crossings
  import Projects

  /** The first card of the lines is the one on the first non-blank line. */
  predicate FirstCardLine(lines: seq<string>, j: nat) {
    && j < |lines|
    && (forall k :: 0 <= k < j ==> BlankLine(lines, k))
    && !BlankLine(lines, j)
  }

  /** A file with no card at all is rejected as empty. */
  lemma EmptyFileRejected(lines: seq<string>)
    requires forall k :: 0 <= k < |lines| ==> BlankLine(lines, k)
    ensures ParseLines(lines) == Err(EmptyFile)
  {
    TakeSkipsBlankLines(Initial(lines), |lines|);
  }

  /** A file whose first card is not the header is rejected, naming the card found. */
  lemma HeaderRequired(lines: seq<string>, j: nat)
    requires FirstCardLine(lines, j)
    ensures Strip(lines[j]) != [] && !IsSpace(Strip(lines[j])[0])
    ensures var key := SplitCard(Strip(lines[j])).key;
      key != HeaderKey ==> ParseLines(lines) == Err(BadHeader(key))
  {
    TakeSkipsBlankLines(Initial(lines), j);
  }

  /** After the header, the project is built from the cards that follow it, starting from the
      default project. */
  lemma HeaderAccepted(lines: seq<string>, j: nat)
    requires FirstCardLine(lines, j)
    requires Strip(lines[j]) != [] && !IsSpace(Strip(lines[j])[0])
    requires SplitCard(Strip(lines[j])).key == HeaderKey
    ensures ParseLines(lines) == ProjectFrom(StreamState(lines, j + 1, []), Projects.DefaultProject).result
  {
    TakeSkipsBlankLines(Initial(lines), j);
  }

  /** Nothing but blank lines left, and nothing pushed back. */
  predicate Drained(st: StreamState) {
    && st.buffer == []
    && st.index <= |st.lines|
    && forall k :: st.index <= k < |st.lines| ==> BlankLine(st.lines, k)
  }

  lemma DrainedTakesNothing(st: StreamState)
    requires Drained(st)
    ensures TakeCard(st).card.None?
  {
    TakeSkipsBlankLines(st, |st.lines|);
  }

  /** A file that ends inside a crossing or a barrel block fails with the stream's exhaustion,
      while the project loop accepts the end of the file in place of ENDPROJECTFILE. */
  lemma ExhaustedStream(st: StreamState, p: Projects.ProjectValue, c: Crossings.CrossingValue,
                        pending: seq<real>, b: Barrels.BarrelValue)
    requires Drained(st)
    ensures ProjectFrom(st, p).result == Ok(p)
    ensures CrossingFrom(st, c, pending).result == Err(StreamExhausted)
    ensures CulvertFrom(st, b).result == Err(StreamExhausted)
  {
    DrainedTakesNothing(st);
  }

  /** `_read_flow_values` only ever adds to the values read so far and stops at `expected`. */
  lemma {:induction false} FlowValuesBounded(st: StreamState, expected: int, values: seq<real>)
    requires |values| <= expected
    ensures var p := FlowValuesFrom(st, expected, values);
      p.result.Ok? ==> values <= p.result.value && |p.result.value| <= expected
    decreases Measure(st)
  {
    if |values| < expected {
      var t := TakeCard(st);
      if t.card.Some? {
        var card := t.card.value;
        if card.key == "DISCHARGEXYUSER_Y" {
          FlowValuesBounded(t.rest, expected, values + [AsFloat(card.value, 0.0)]);
        } else if card.key == "DISCHARGEXYUSER_NAME" {
          FlowValuesBounded(t.rest, expected, values);
        }
      }
    }
  }

  /** When `_read_flow_values` stops short of `expected`, the card that stopped it is the next
      one the stream hands out. */
  lemma {:induction false} FlowValuesPushBack(st: StreamState, expected: int, values: seq<real>)
    ensures var p := FlowValuesFrom(st, expected, values);
      p.result.Ok? && |p.result.value| < expected ==>
        && TakeCard(p.rest).card.Some?
        && TakeCard(p.rest).card.value.key != "DISCHARGEXYUSER_Y"
        && TakeCard(p.rest).card.value.key != "DISCHARGEXYUSER_NAME"
    decreases Measure(st)
  {
    if |values| < expected {
      var t := TakeCard(st);
      if t.card.Some? {
        var card := t.card.value;
        if card.key == "DISCHARGEXYUSER_Y" {
          FlowValuesPushBack(t.rest, expected, values + [AsFloat(card.value, 0.0)]);
        } else if card.key == "DISCHARGEXYUSER_NAME" {
          FlowValuesPushBack(t.rest, expected, values);
        } else {
          PushBackThenTake(t.rest, card, card);
        }
      }
    }
  }

  /** `_read_flow_values(expected)`: nothing for a non-positive count, otherwise at most
      `expected` values. */
  lemma ReadFlowValuesBounds(st: StreamState, expected: int)
    ensures expected <= 0 ==> ReadFlowValuesSpec(st, expected) == Parsed(Ok([]), st)
    ensures var p := ReadFlowValuesSpec(st, expected);
      p.result.Ok? ==> |p.result.value| <= (if expected <= 0 then 0 else expected)
  {
    if expected > 0 {
      FlowValuesBounded(st, expected, []);
    }
  }

  /** Line `k` is a DISCHARGEXYUSER_Y card whose value reads as `y`. */
  predicate FlowLine(lines: seq<string>, k: nat, y: real) {
    && k < |lines|
    && !BlankLine(lines, k)
    && (StripHead(lines[k]);
        var card := SplitCard(Strip(lines[k]));
        card.key == "DISCHARGEXYUSER_Y" && AsFloat(card.value, 0.0) == y)
  }

  /** The first value card of a block is read as its value. */
  lemma FlowValuesHead(st: StreamState, expected: int, values: seq<real>, y: real)
    requires st.buffer == [] && |values| < expected
    requires FlowLine(st.lines, st.index, y)
    ensures FlowValuesFrom(st, expected, values) == FlowValuesFrom(st.(index := st.index + 1), expected, values + [y])
  {
    TakeSkipsBlankLines(st, st.index);
  }

  lemma FlowLinesTail(st: StreamState, next: StreamState, ys: seq<real>, tail: seq<real>)
    requires ys != [] && tail == ys[1..]
    requires next.lines == st.lines && next.index == st.index + 1
    requires forall i :: 0 <= i < |ys| ==> FlowLine(st.lines, st.index + i, ys[i])
    ensures FlowLine(st.lines, st.index, ys[0])
    ensures forall i :: 0 <= i < |tail| ==> FlowLine(next.lines, next.index + i, tail[i])
  {
    assert FlowLine(st.lines, st.index + 0, ys[0]);
    forall i | 0 <= i < |tail|
      ensures FlowLine(next.lines, next.index + i, tail[i])
    {
      assert tail[i] == ys[i + 1];
      assert FlowLine(st.lines, st.index + (i + 1), ys[i + 1]);
    }
  }

  lemma FlowValuesChain(st: StreamState, next: StreamState, expected: int, values: seq<real>,
                        head: seq<real>, whole: seq<real>, after: StreamState)
    requires FlowValuesFrom(st, expected, values) == FlowValuesFrom(next, expected, head)
    requires FlowValuesFrom(next, expected, head) == Parsed(Ok(whole), after)
    ensures FlowValuesFrom(st, expected, values) == Parsed(Ok(whole), after)
  {
  }

  /** A DISCHARGEXYUSER block of value cards is read in full, and the stream stands after it. */
  lemma {:induction false} FlowValuesOfCards(st: StreamState, values: seq<real>, ys: seq<real>, expected: int)
    requires st.buffer == [] && expected == |values| + |ys|
    requires forall i :: 0 <= i < |ys| ==> FlowLine(st.lines, st.index + i, ys[i])
    ensures FlowValuesFrom(st, expected, values) == Parsed(Ok(values + ys), st.(index := st.index + |ys|))
    decreases |ys|
  {
    if ys == [] {
      assert values + ys == values;
      assert st.(index := st.index + |ys|) == st;
    } else {
      var next := st.(index := st.index + 1);
      var head, tail := values + [ys[0]], ys[1..];
      FlowLinesTail(st, next, ys, tail);
      assert |head| + |tail| == expected;
      FlowValuesHead(st, expected, values, ys[0]);
      FlowValuesOfCards(next, head, tail, expected);
      AppendHeadTail(values, ys);
      var whole, after := head + tail, next.(index := next.index + |tail|);
      assert whole == values + ys && after == st.(index := st.index + |ys|);
      FlowValuesChain(st, next, expected, values, head, whole, after);
    }
  }

  /** The project loop only appends crossings: the ones parsed before stay, in order. */
  lemma {:induction false} ProjectKeepsCrossings(st: StreamState, p: Projects.ProjectValue)
    ensures var r := ProjectFrom(st, p);
      r.result.Ok? ==> p.crossings <= r.result.value.crossings
    decreases Measure(st)
  {
    var t := TakeCard(st);
    if t.card.Some? {
      var card := t.card.value;
      if card.key == "STARTCROSSING" {
        var crossing := CrossingFrom(t.rest, Crossings.DefaultCrossing(CrossingName(CleanString(card.value))), []);
        if crossing.result.Ok? {
          ProjectKeepsCrossings(crossing.rest, p.(crossings := p.crossings + [crossing.result.value]));
        }
      } else if card.key != "ENDPROJECTFILE" {
        var applied := ProjectCardSpec(p, card, t.rest);
        ProjectKeepsCrossings(applied.1, applied.0);
      }
    }
  }

  /** A crossing keeps its name and only gains barrels, in the order their blocks appear. */
  lemma {:induction false} CrossingKeepsCulverts(st: StreamState, c: Crossings.CrossingValue, pending: seq<real>)
    ensures var r := CrossingFrom(st, c, pending);
      r.result.Ok? ==> r.result.value.name == c.name && c.culverts <= r.result.value.culverts
    decreases Measure(st)
  {
    var t := TakeCard(st);
    if t.card.Some? {
      var card := t.card.value;
      if card.key == "DISCHARGEXYUSER" {
        var flows := ReadFlowValuesSpec(t.rest, AsInt(card.value, 0));
        if flows.result.Ok? {
          CrossingKeepsCulverts(flows.rest, c, flows.result.value);
        }
      } else if card.key == "RATINGCURVE" {
        CrossingKeepsCulverts(SkipUntil(t.rest, "END RATINGCURVE"), c, pending);
      } else if card.key == "STARTCULVERT" {
        var barrel := CulvertFrom(t.rest, Barrels.DefaultBarrel(CleanString(card.value)));
        if barrel.result.Ok? {
          CrossingKeepsCulverts(barrel.rest, c.(culverts := c.culverts + [barrel.result.value]), pending);
        }
      } else if card.key != "ENDCROSSING" {
        CrossingKeepsCulverts(t.rest, CrossingCard(c, card.key, card.value), pending);
      }
    }
  }

  /** A barrel block keeps the name it was opened with. */
  lemma {:induction false} CulvertKeepsName(st: StreamState, b: Barrels.BarrelValue)
    ensures var r := CulvertFrom(st, b);
      r.result.Ok? ==> r.result.value.name == b.name
    decreases Measure(st)
  {
    var t := TakeCard(st);
    if t.card.Some? {
      var card := t.card.value;
      if card.key == "STARTCULVNOTES" {
        var notes := CollectNotesSpec(t.rest, card.value, "ENDCULVNOTES");
        CulvertKeepsName(notes.rest, b.(notes := notes.text));
      } else if card.key != "ENDCULVERT" {
        CulvertKeepsName(t.rest, CulvertCard(b, card.key, card.value));
      }
    }
  }
}
