/** `Hy8FileWriter`: how a project becomes the cards of a `.hy8` file. A card is a name padded
    to column 21 followed by its values; numeric values are spaced by a gap that shrinks as
    the previous value grows, text values are aligned to the columns 21 + 11k. */
module CardWriter {
  import opened Wrappers
  import opened Text
  import opened Numbers
  import opened Enums
  import opened References
  import Flows
  import Tailwaters
  import Roadways
  import Barrels
  import Crossings
  import Projects

  // ---------------------------------------------------------------------------------------
  // One card
  // ---------------------------------------------------------------------------------------

  /** A value handed to `_write_card`. Ints and floats are numeric, anything else is written as
      text, and `None` is skipped. Enum members are passed as their integer codes. */
  datatype CardValue = IntValue(i: int) | FloatValue(x: real) | TextValue(s: string) | NoValue {
    predicate IsNumeric() { IntValue? || FloatValue? }
  }

  datatype Card = Card(name: string, values: seq<CardValue>)

  const CardColumn: nat := 21
  const BaseGap: nat := 3
  const BaseLength: nat := 8
  const FieldWidth: nat := 11

  /** `fmt_numeric`: an int as `str`, a float with exactly six decimals. */
  function FmtNumeric(v: CardValue): (r: string)
    requires v.IsNumeric()
    ensures r != [] && NoSpace(r)
    ensures v.IntValue? ==> r == IntToString(v.i)
    ensures v.FloatValue? ==> r == Fixed(v.x, 6)
  {
    if v.IntValue? then IntToString(v.i) else Fixed(v.x, 6)
  }

  /** The card name as it opens the line: padded with spaces to column 21, kept whole when it is
      that long already, and nothing at all for an unnamed continuation card. */
  function NameField(name: string): (r: string)
    ensures name == [] ==> r == []
    ensures name != [] ==> StartsWith(r, name)
    ensures name != [] && |name| < CardColumn ==> |r| == CardColumn
    ensures |name| >= CardColumn ==> r == name
    ensures forall i :: |name| <= i < |r| ==> r[i] == ' '
  {
    if name == [] then [] else if |name| >= CardColumn then name else name + Spaces(CardColumn - |name|)
  }

  /** The state `_write_card` keeps while it walks the values: the text so far, how many numeric
      values it has written and the width of the last one. */
  datatype Layout = Layout(text: string, numericIndex: nat, previousLength: Option<nat>)

  /** The spaces placed before a value that should start at column `target`: padding up to it,
      one space when the line is already past it, nothing when the line ends exactly there. */
  function Align(current: nat, target: nat): (r: string)
    ensures current < target ==> current + |r| == target
    ensures current > target ==> r == " "
    ensures current == target ==> r == []
    ensures forall i :: 0 <= i < |r| ==> r[i] == ' '
  {
    if current < target then Spaces(target - current) else if current > target then " " else ""
  }

  /** The gap before a later numeric value: three spaces after a value of at most eight
      characters, one fewer for each extra character, but never less than one. */
  function NumericGap(previousLength: Option<nat>): (gap: nat)
    ensures 1 <= gap <= BaseGap
    ensures previousLength.Some? && 0 < previousLength.value <= BaseLength ==> gap == BaseGap
    ensures previousLength.Some? && previousLength.value >= BaseLength + 2 ==> gap == 1
  {
    // `previous_length or BASE_LENGTH`: a missing or zero width counts as the base length.
    var previous := if previousLength.Some? && previousLength.value != 0 then previousLength.value else BaseLength;
    var extra := if previous > BaseLength then previous - BaseLength else 0;
    if extra + 1 >= BaseGap then 1 else BaseGap - extra
  }

  /** The column a text value is aligned to, after `k` numeric values. */
  function TextColumn(k: nat): nat {
    CardColumn + k * FieldWidth
  }

  /** The separator placed before a value. */
  function Separator(l: Layout, v: CardValue): (sep: string)
    requires !v.NoValue?
    ensures forall i :: 0 <= i < |sep| ==> sep[i] == ' '
  {
    if v.TextValue? then Align(|l.text|, TextColumn(l.numericIndex))
    else if l.numericIndex == 0 then Align(|l.text|, CardColumn)
    else Spaces(NumericGap(l.previousLength))
  }

  /** The text of one value as it is written. */
  function Rendered(v: CardValue): string
    requires !v.NoValue?
  {
    if v.TextValue? then v.s else FmtNumeric(v)
  }

  /** One step of `_write_card`'s loop: `None` is skipped, anything else is appended after its
      separator, and a numeric value advances the numeric count and records its width. */
  function Place(l: Layout, v: CardValue): (r: Layout)
    ensures v.NoValue? ==> r == l
    ensures !v.NoValue? ==> r.text == l.text + Separator(l, v) + Rendered(v)
    ensures v.TextValue? ==> r.numericIndex == l.numericIndex && r.previousLength == l.previousLength
    ensures v.IsNumeric() ==> r.numericIndex == l.numericIndex + 1 && r.previousLength == Some(|FmtNumeric(v)|)
  {
    if v.NoValue? then l
    else if v.TextValue? then l.(text := l.text + Separator(l, v) + v.s)
    else Layout(l.text + Separator(l, v) + FmtNumeric(v), l.numericIndex + 1, Some(|FmtNumeric(v)|))
  }

  /** The layout after the given values, placed left to right. */
  function LayoutOf(name: string, values: seq<CardValue>): Layout
    decreases |values|
  {
    if values == [] then Layout(NameField(name), 0, None)
    else Place(LayoutOf(name, values[..|values| - 1]), values[|values| - 1])
  }

  /** The line `_write_card` writes, newline included. */
  function CardLine(c: Card): string {
    LayoutOf(c.name, c.values).text + "\n"
  }

  /** The open file handle: everything written to it so far. */
  class Hy8Output {
    var text: string

    constructor()
      ensures text == ""
    {
      text := "";
    }
  }

  /** The spacing `_write_card` appends before a value when the line is `current` characters
      long: padding to column 21 for the first numeric value, the shrinking gap for a later one,
      and padding to the value's text column for text. */
  method NextSeparator(current: nat, numericIndex: nat, previousLength: Option<nat>, value: CardValue,
                       ghost l: Layout) returns (sep: string)
    requires !value.NoValue?
    requires l == Layout(l.text, numericIndex, previousLength) && current == |l.text|
    ensures sep == Separator(l, value)
  {
    if value.IsNumeric() {
      if numericIndex == 0 {
        if current < CardColumn {
          sep := Spaces(CardColumn - current);
        } else if current > CardColumn {
          sep := " ";
        } else {
          sep := "";
        }
      } else {
        var extra := if previousLength.Some? && previousLength.value != 0 && previousLength.value > BaseLength
                     then previousLength.value - BaseLength else 0;
        var gap := if extra + 1 >= BaseGap then 1 else BaseGap - extra;
        sep := Spaces(gap);
      }
    } else {
      var target := CardColumn + numericIndex * FieldWidth;
      if current < target {
        sep := Spaces(target - current);
      } else if current > target {
        sep := " ";
      } else {
        sep := "";
      }
    }
  }

  /** `_write_card(handle, name, *values)`: the line is built in a list of pieces while a column
      counter follows its length, then written in one go. */
  method WriteCard(out: Hy8Output, name: string, values: seq<CardValue>)
    modifies out
    ensures out.text == old(out.text) + CardLine(Card(name, values))
  {
    var line := NameField(name);
    var builder: seq<string> := [line];
    assert Join("", builder) == line;
    if values == [] {
      out.text := out.text + (Join("", builder) + "\n");
      return;
    }
    var current := |line|;
    var numericIndex: nat := 0;
    var previousLength: Option<nat> := None;
    var i := 0;
    while i < |values|
      invariant 0 <= i <= |values|
      invariant LayoutOf(name, values[..i]) == Layout(Join("", builder), numericIndex, previousLength)
      invariant current == |Join("", builder)|
      invariant out.text == old(out.text)
    {
      var value := values[i];
      ghost var before := Layout(Join("", builder), numericIndex, previousLength);
      assert values[..i + 1][..i] == values[..i];
      if !value.NoValue? {
        var sep := NextSeparator(current, numericIndex, previousLength, value, before);
        var valueText := if value.TextValue? then value.s else FmtNumeric(value);
        JoinEmptyAppend(builder, sep);
        builder := builder + [sep];
        current := current + |sep|;
        JoinEmptyAppend(builder, valueText);
        builder := builder + [valueText];
        current := current + |valueText|;
        if value.IsNumeric() {
          previousLength := Some(|valueText|);
          numericIndex := numericIndex + 1;
        }
      }
      i := i + 1;
    }
    assert values[..i] == values;
    out.text := out.text + (Join("", builder) + "\n");
  }

  // ---------------------------------------------------------------------------------------
  // Properties of one card
  // ---------------------------------------------------------------------------------------

  predicate AllNumeric(values: seq<CardValue>) {
    forall i :: 0 <= i < |values| ==> values[i].IsNumeric()
  }

  /** The numbers of a card as they are rendered. */
  function RenderedNumbers(values: seq<CardValue>): (r: seq<string>)
    requires AllNumeric(values)
    ensures |r| == |values| && forall i :: 0 <= i < |values| ==> r[i] == FmtNumeric(values[i])
  {
    seq(|values|, i requires 0 <= i < |values| => FmtNumeric(values[i]))
  }

  /** A card of numbers splits on whitespace back into its name and its rendered numbers,
      provided the name is one word that is not exactly 21 characters long. */
  lemma {:induction false} NumericCardWords(name: string, values: seq<CardValue>)
    requires name != [] && NoSpace(name) && |name| != CardColumn
    requires AllNumeric(values)
    ensures LayoutOf(name, values).numericIndex == |values|
    ensures Words(LayoutOf(name, values).text) == [name] + RenderedNumbers(values)
    decreases |values|
  {
    if values == [] {
      NameFieldWords(name);
    } else {
      var init := values[..|values| - 1];
      var v := values[|values| - 1];
      assert values == init + [v];
      NumericCardWords(name, init);
      if init == [] {
        OnlyNumberWords(name, v);
      } else {
        NextNumberWords(name, init, v);
      }
    }
  }

  /** A card holding one number splits into its name and that number. */
  lemma OnlyNumberWords(name: string, v: CardValue)
    requires name != [] && NoSpace(name) && |name| != CardColumn && v.IsNumeric()
    ensures LayoutOf(name, [v]).numericIndex == 1
    ensures Words(LayoutOf(name, [v]).text) == [name] + RenderedNumbers([v])
  {
    assert [v][..0] == [];
    FirstNumberWords(name, v);
    RenderedNumbersSnoc([], v);
    assert [] + [v] == [v];
    PairDisplay(name, FmtNumeric(v));
  }

  /** A number after at least one other adds its rendering to the card's words. */
  lemma NextNumberWords(name: string, init: seq<CardValue>, v: CardValue)
    requires init != [] && AllNumeric(init) && v.IsNumeric()
    requires LayoutOf(name, init).numericIndex == |init|
    requires Words(LayoutOf(name, init).text) == [name] + RenderedNumbers(init)
    ensures LayoutOf(name, init + [v]).numericIndex == |init| + 1
    ensures Words(LayoutOf(name, init + [v]).text) == [name] + RenderedNumbers(init + [v])
  {
    var l := LayoutOf(name, init);
    var t := FmtNumeric(v);
    var sep := Separator(l, v);
    assert (init + [v])[..|init|] == init;
    assert LayoutOf(name, init + [v]) == Place(l, v);
    assert sep == Spaces(NumericGap(l.previousLength));
    WordsAppendWord(l.text, sep, t);
    RenderedNumbersSnoc(init, v);
    SeqAppendAssoc([name], RenderedNumbers(init), [t]);
  }

  lemma RenderedNumbersSnoc(values: seq<CardValue>, v: CardValue)
    requires AllNumeric(values) && v.IsNumeric()
    ensures AllNumeric(values + [v])
    ensures RenderedNumbers(values + [v]) == RenderedNumbers(values) + [FmtNumeric(v)]
  {
  }

  lemma NameFieldWords(name: string)
    requires name != [] && NoSpace(name)
    ensures Words(NameField(name)) == [name]
  {
    var pad := NameField(name)[|name|..];
    assert NameField(name) == name + pad;
    WordsTrailingSpaces(name, pad);
    WordsOfWord(name);
  }

  lemma FirstNumberWords(name: string, v: CardValue)
    requires name != [] && NoSpace(name) && |name| != CardColumn && v.IsNumeric()
    ensures Words(LayoutOf(name, [v]).text) == [name, FmtNumeric(v)]
  {
    var t := FmtNumeric(v);
    var sep := if |name| < CardColumn then NameField(name)[|name|..] else " ";
    assert LayoutOf(name, [v]).text == name + sep + t by {
      FirstNumberColumn(name, v);
      if |name| < CardColumn {
        assert NameField(name) == name + sep;
      }
    }
    WordsOfTwo(name, sep, t);
  }

  /** A name of exactly 21 characters leaves no room before the first number: the two run
      together into one word. */
  lemma NameOfCardColumnGlued(name: string, v: CardValue)
    requires |name| == CardColumn && NoSpace(name) && v.IsNumeric()
    ensures LayoutOf(name, [v]).text == name + FmtNumeric(v)
    ensures Words(LayoutOf(name, [v]).text) == [name + FmtNumeric(v)]
  {
    var t := FmtNumeric(v);
    var l0 := Layout(name, 0, None);
    assert LayoutOf(name, [v]) == Place(l0, v) by {
      assert [v][..0] == [];
    }
    assert Separator(l0, v) == [];
    assert l0.text + [] + t == name + t;
    NumeralJoined(name, t);
    WordsOfWord(name + t);
  }

  lemma NumeralJoined(a: string, b: string)
    requires NoSpace(a) && NoSpace(b)
    ensures NoSpace(a + b)
  {
    assert forall i :: |a| <= i < |a + b| ==> (a + b)[i] == b[i - |a|];
  }

  /** The first number of a card starts in column 21 when the name is shorter than that (the
      name field is padded to exactly 21 characters), and one space after the name when the
      name is longer. */
  lemma FirstNumberColumn(name: string, v: CardValue)
    requires name != [] && |name| != CardColumn && v.IsNumeric()
    ensures |name| < CardColumn ==>
      LayoutOf(name, [v]).text == NameField(name) + FmtNumeric(v) && |NameField(name)| == CardColumn
    ensures |name| > CardColumn ==> LayoutOf(name, [v]).text == name + " " + FmtNumeric(v)
  {
    var t := FmtNumeric(v);
    var l0 := Layout(NameField(name), 0, None);
    assert LayoutOf(name, [v]) == Place(l0, v) by {
      assert [v][..0] == [];
    }
    if |name| < CardColumn {
      assert Separator(l0, v) == [];
      assert l0.text + [] + t == l0.text + t;
    } else {
      assert l0.text == name;
      assert Separator(l0, v) == " ";
    }
  }

  /** Values are only ever appended: the line after some of the values begins with the line
      after fewer of them. */
  lemma {:induction false} LayoutGrows(name: string, values: seq<CardValue>, k: nat)
    requires k <= |values|
    ensures StartsWith(LayoutOf(name, values).text, LayoutOf(name, values[..k]).text)
    decreases |values|
  {
    if k < |values| {
      var init := values[..|values| - 1];
      assert init[..k] == values[..k];
      LayoutGrows(name, init, k);
      var a := LayoutOf(name, init).text;
      var b := LayoutOf(name, values[..k]).text;
      assert LayoutOf(name, values).text[..|a|] == a;
      assert a[..|b|] == b;
    } else {
      assert values[..k] == values;
    }
  }

  /** Every line a card produces opens with the card's name. */
  lemma CardLineStartsWithName(c: Card)
    ensures StartsWith(CardLine(c), c.name)
  {
    LayoutGrows(c.name, c.values, 0);
    assert c.values[..0] == [];
    var line := LayoutOf(c.name, c.values).text;
    var field := NameField(c.name);
    assert line[..|field|] == field;
    assert CardLine(c)[..|c.name|] == line[..|c.name|];
  }

  // ---------------------------------------------------------------------------------------
  // The cards of each part
  // ---------------------------------------------------------------------------------------

  /** The cards a writer step produces, and the error that stopped it, if any. The file is
      written card by card, so the cards before an error stay in it. */
  datatype Emitted = Emitted(cards: seq<Card>, error: Option<string>)

  /** One step after another: the second runs only when the first did not raise. */
  function Then(a: Emitted, b: Emitted): (r: Emitted)
    ensures a.error.Some? ==> r == a
    ensures a.error.None? ==> r.cards == a.cards + b.cards && r.error == b.error
  {
    if a.error.Some? then a else Emitted(a.cards + b.cards, b.error)
  }

  function Quoted(s: string): string {
    "\"" + s + "\""
  }

  /** `_flow_range_values`: for min-design-max the range fields are assigned from `sequence()`,
      which is made of those same fields, so the values written are always the stored ones. */
  function FlowRangeValues(f: Flows.FlowValue): (r: (real, real, real))
    ensures r == (f.minimum, f.design, f.maximum)
  {
    if f.flowMethod.MinDesignMax? then
      var values := Flows.Sequence(f).value;
      if |values| >= 3 then (values[0], values[1], values[2]) else (f.minimum, f.design, f.maximum)
    else (f.minimum, f.design, f.maximum)
  }

  function DischargeMethod(f: Flows.FlowValue): int {
    if f.flowMethod.MinDesignMax? then 0 else 1
  }

  /** The label written after the `index`-th flow; a missing one is written empty. */
  function FlowLabel(labels: seq<string>, index: nat): string {
    if index < |labels| then labels[index] else ""
  }

  function FlowValueCard(x: real): Card {
    Card("DISCHARGEXYUSER_Y", [FloatValue(x)])
  }

  function FlowLabelCard(text: string): Card {
    Card("DISCHARGEXYUSER_NAME", [TextValue(Quoted(text))])
  }

  /** One pass of the loop over the flow values: the value's card, then its label's card when
      the flow has labels. */
  function FlowValueStep(x: real, labels: seq<string>, index: nat): seq<Card> {
    if labels != [] then [FlowValueCard(x), FlowLabelCard(FlowLabel(labels, index))] else [FlowValueCard(x)]
  }

  /** The loop over the flow values. */
  function FlowValueCards(values: seq<real>, labels: seq<string>): seq<Card>
    decreases |values|
  {
    if values == [] then []
    else FlowValueCards(values[..|values| - 1], labels) + FlowValueStep(values[|values| - 1], labels, |values| - 1)
  }

  /** `_write_flow`: the range, the method, the count and the values; a method without a
      sequence raises after the range and method cards are written. */
  function FlowCards(f: Flows.FlowValue): Emitted {
    var (lo, design, hi) := FlowRangeValues(f);
    var head := [Card("DISCHARGERANGE", [FloatValue(lo), FloatValue(design), FloatValue(hi)]),
                 Card("DISCHARGEMETHOD", [IntValue(DischargeMethod(f))])];
    match Flows.Sequence(f)
    case Err(message) => Emitted(head, Some(message))
    case Ok(values) =>
      Emitted(head + [Card("DISCHARGEXYUSER", [IntValue(|values|)])] + FlowValueCards(values, f.userValueLabels), None)
  }

  /** Without labels there is one card per value; with labels each value's card is followed by
      the card of its label, "" past the end of the labels. */
  lemma {:induction false} FlowValueCardsLayout(values: seq<real>, labels: seq<string>)
    ensures var r := FlowValueCards(values, labels);
      (labels == [] ==> |r| == |values| && forall j :: 0 <= j < |values| ==> r[j] == FlowValueCard(values[j]))
      && (labels != [] ==> |r| == 2 * |values|)
      && (labels != [] ==> forall j :: 0 <= j < |values| ==>
            r[2 * j] == FlowValueCard(values[j]) && r[2 * j + 1] == FlowLabelCard(FlowLabel(labels, j)))
    decreases |values|
  {
    if values != [] {
      var n := |values| - 1;
      var init := values[..n];
      FlowValueCardsLayout(init, labels);
      var r := FlowValueCards(values, labels);
      var front := FlowValueCards(init, labels);
      assert r == front + FlowValueStep(values[n], labels, n);
      if labels == [] {
        forall j | 0 <= j < |values| ensures r[j] == FlowValueCard(values[j]) {
          if j < n {
            assert r[j] == front[j] && init[j] == values[j];
          }
        }
      } else {
        forall j | 0 <= j < |values|
          ensures r[2 * j] == FlowValueCard(values[j]) && r[2 * j + 1] == FlowLabelCard(FlowLabel(labels, j))
        {
          if j < n {
            assert r[2 * j] == front[2 * j] && r[2 * j + 1] == front[2 * j + 1] && init[j] == values[j];
          }
        }
      }
    }
  }

  /** The flow cards: DISCHARGEMETHOD is 0 exactly for min-design-max; the count card carries
      the length of the sequence; only a min-max-increment flow raises, and then only the range
      and method cards are written. */
  lemma FlowCardsSpec(f: Flows.FlowValue)
    ensures var e := FlowCards(f);
      |e.cards| >= 2
      && e.cards[0] == Card("DISCHARGERANGE", [FloatValue(f.minimum), FloatValue(f.design), FloatValue(f.maximum)])
      && (e.cards[1] == Card("DISCHARGEMETHOD", [IntValue(0)]) <==> f.flowMethod.MinDesignMax?)
      && (e.error.Some? <==> f.flowMethod.MinMaxIncrement?)
      && (e.error.Some? ==> |e.cards| == 2)
      && (e.error.None? ==> |e.cards| >= 3 && e.cards[2] == Card("DISCHARGEXYUSER", [IntValue(|Flows.Sequence(f).value|)]))
  {
  }

  const MissingTypeAttribute: string := "'TailwaterDefinition' object has no attribute 'type'"

  function WriterUnsupportedTailwater(t: TailwaterType): string {
    "Tailwater type '" + t.Name() + "' is not supported by run-hy8. "
    + "Use the HY-8 GUI for advanced tailwater definitions."
  }

  /** `_tailwater_stages`: the constant elevation, `max(1, rating_curve_entries)` times. */
  function TailwaterStages(t: Tailwaters.TailwaterValue): (r: seq<real>)
    ensures |r| == if t.ratingCurveEntries > 1 then t.ratingCurveEntries else 1
    ensures forall i :: 0 <= i < |r| ==> r[i] == t.constantElevation
  {
    var count := if t.ratingCurveEntries > 1 then t.ratingCurveEntries else 1;
    seq(count, _ => t.constantElevation)
  }

  function StageCard(name: string, stage: real): Card {
    Card(name, [FloatValue(stage), FloatValue(0.0), FloatValue(0.0), FloatValue(0.0)])
  }

  /** `_write_tailwater` as written: the type is read from an attribute `type` that the package's
      tailwater definition does not declare (its field is `tw_type`), so the attribute exists only
      when something assigned it, as the reader does; `typeAttribute` is that attribute. */
  function TailwaterCardsAsWritten(t: Tailwaters.TailwaterValue, typeAttribute: Option<TailwaterType>): Emitted {
    if typeAttribute.None? then Emitted([], Some(MissingTypeAttribute))
    else if !typeAttribute.value.Constant? then Emitted([], Some(WriterUnsupportedTailwater(typeAttribute.value)))
    else
      var stages := TailwaterStages(t);
      Emitted([Card("TAILWATERTYPE", [IntValue(typeAttribute.value.Code())]),
               Card("CHANNELGEOMETRY", [FloatValue(t.bottomWidth), FloatValue(t.sideslope), FloatValue(t.channelSlope),
                                        FloatValue(t.manningN), FloatValue(t.invertElevation)]),
               Card("NUMRATINGCURVE", [IntValue(|stages|)]),
               StageCard("TWRATINGCURVE", stages[0])]
              + ContinuationCards(stages[1..]),
              None)
  }

  /** The loop over the stages after the first: unnamed cards. */
  function ContinuationCards(stages: seq<real>): (r: seq<Card>)
    ensures |r| == |stages|
    ensures forall i :: 0 <= i < |stages| ==> r[i] == StageCard("", stages[i])
    decreases |stages|
  {
    if stages == [] then []
    else ContinuationCards(stages[..|stages| - 1]) + [StageCard("", stages[|stages| - 1])]
  }

  /** `_write_tailwater` reading the type the definition declares. */
  function TailwaterCards(t: Tailwaters.TailwaterValue): Emitted {
    TailwaterCardsAsWritten(t, Some(t.twType))
  }

  /** A tailwater built in code, never assigned a `type` attribute, stops the writer although it
      validates. */
  lemma TailwaterAttributeMissing()
    ensures Tailwaters.Validate(Tailwaters.DefaultTailwater, "") == []
    ensures TailwaterCardsAsWritten(Tailwaters.DefaultTailwater, None) == Emitted([], Some(MissingTypeAttribute))
  {
  }

  /** A non-constant tailwater raises before any card is written; a constant one gets its type
      card, its geometry, the stage count `max(1, entries)`, one TWRATINGCURVE card and then
      `count - 1` unnamed continuation cards, each at the constant elevation. */
  lemma TailwaterCardsSpec(t: Tailwaters.TailwaterValue)
    ensures var e := TailwaterCards(t);
      var count := if t.ratingCurveEntries > 1 then t.ratingCurveEntries else 1;
      (!t.twType.Constant? ==> e == Emitted([], Some(WriterUnsupportedTailwater(t.twType))))
      && (t.twType.Constant? ==>
            e.error.None? && |e.cards| == 3 + count
            && e.cards[0] == Card("TAILWATERTYPE", [IntValue(6)])
            && e.cards[2] == Card("NUMRATINGCURVE", [IntValue(count)])
            && e.cards[3] == StageCard("TWRATINGCURVE", t.constantElevation)
            && forall i :: 4 <= i < |e.cards| ==> e.cards[i] == StageCard("", t.constantElevation))
  {
  }

  /** The card of the `index`-th roadway point: the first on ROADWAYSECDATA, the rest on
      ROADWAYPOINT. */
  function PointCard(index: nat, point: (real, real)): Card {
    Card(if index == 0 then "ROADWAYSECDATA" else "ROADWAYPOINT", [FloatValue(point.0), FloatValue(point.1)])
  }

  /** The loop over the roadway points. */
  function PointCards(points: seq<(real, real)>): (r: seq<Card>)
    ensures |r| == |points|
    ensures forall i :: 0 <= i < |points| ==> r[i] == PointCard(i, points[i])
    decreases |points|
  {
    if points == [] then []
    else PointCards(points[..|points| - 1]) + [PointCard(|points| - 1, points[|points| - 1])]
  }

  /** `_write_roadway`: shape, width, surface code and station count, then the points. */
  function RoadwayCards(r: Roadways.RoadwayValue): seq<Card> {
    [Card("ROADWAYSHAPE", [IntValue(r.shape)]), Card("ROADWIDTH", [FloatValue(r.width)]),
     Card("SURFACE", [IntValue(r.surface.Code())]), Card("NUMSTATIONS", [IntValue(|r.stations|)])]
    + PointCards(Roadways.Points(r))
  }

  /** The station count written is the number of point cards that follow exactly when there are
      no more stations than elevations; a valid profile always has as many of each. */
  lemma RoadwayStationCount(r: Roadways.RoadwayValue)
    ensures |RoadwayCards(r)| - 4 == |r.stations| <==> |r.stations| <= |r.elevations|
    ensures Roadways.RoadwayValid(r) ==> |RoadwayCards(r)| == 4 + |r.stations|
  {
  }

  /** The material code written: a box is always written as concrete. */
  function MaterialCode(b: Barrels.BarrelValue): (code: int)
    ensures b.shape.Box? ==> code == 1
    ensures !b.shape.Box? ==> code == b.material.Code()
  {
    if b.shape.Box? then Concrete.Code() else b.material.Code()
  }

  /** Manning's n written: the explicit pair only when both are set, otherwise the material's. */
  function ManningPair(b: Barrels.BarrelValue): (n: (real, real))
    ensures b.manningNTop.Some? && b.manningNBottom.Some? ==> n == (b.manningNTop.value, b.manningNBottom.value)
    ensures (b.manningNTop.None? || b.manningNBottom.None?) ==>
      n.0 == n.1 == (if b.material.CorrugatedSteel? then 0.024 else 0.012)
  {
    if b.manningNTop.Some? && b.manningNBottom.Some? then (b.manningNTop.value, b.manningNBottom.value)
    else Barrels.ManningValues(b)
  }

  /** The barrel spacing written: the stored one, or one and a half spans but never negative. */
  function Spacing(b: Barrels.BarrelValue): (s: real)
    ensures b.barrelSpacing.Some? ==> s == b.barrelSpacing.value
    ensures b.barrelSpacing.None? ==> s >= 0.0 && s >= b.span * 1.5 && (s == 0.0 || s == b.span * 1.5)
  {
    if b.barrelSpacing.Some? then b.barrelSpacing.value else Max(b.span * 1.5, 0.0)
  }

  /** `_write_culvert`: the fixed card order of one barrel. */
  function CulvertCards(b: Barrels.BarrelValue): seq<Card> {
    var n := ManningPair(b);
    [Card("STARTCULVERT", [TextValue(Quoted(b.name))]),
     Card("CULVERTSHAPE", [IntValue(b.shape.Code())]),
     Card("CULVERTMATERIAL", [IntValue(MaterialCode(b))]),
     Card("INLETTYPE", [IntValue(b.inletType.Code())]),
     Card("INLETEDGETYPE", [IntValue(b.inletEdgeType.Code())]),
     Card("INLETEDGETYPE71", [IntValue(b.inletEdgeType71.Code())]),
     Card("IMPINLETEDGETYPE", [IntValue(b.improvedInletEdgeType.Code())]),
     Card("BARRELDATA", [FloatValue(b.span), FloatValue(b.rise), FloatValue(n.0), FloatValue(n.1)]),
     Card("EMBANKMENTTYPE", [IntValue(2)]),
     Card("NUMBEROFBARRELS", [IntValue(b.numberOfBarrels)]),
     Card("INVERTDATA", [FloatValue(b.inletInvertStation), FloatValue(b.inletInvertElevation), FloatValue(b.outletInvertStation), FloatValue(b.outletInvertElevation)]),
     Card("STARTCULVNOTES", [TextValue(Quoted(b.notes))]),
     Card("ENDCULVNOTES", []),
     Card("ROADCULVSTATION", [FloatValue(b.roadwayStation)]),
     Card("BARRELSPACING", [FloatValue(Spacing(b))]),
     Card("ENDCULVERT", [TextValue(Quoted(b.name))])]
  }

  /** A corrugated-steel box is written as concrete but keeps steel's roughness: the material
      override does not reach the Manning values, which are taken from the stored material. */
  lemma SteelBoxKeepsSteelRoughness(b: Barrels.BarrelValue)
    requires b.shape.Box? && b.material.CorrugatedSteel? && b.manningNTop.None?
    ensures CulvertCards(b)[2] == Card("CULVERTMATERIAL", [IntValue(Concrete.Code())])
    ensures CulvertCards(b)[7] == Card("BARRELDATA", [FloatValue(b.span), FloatValue(b.rise), FloatValue(0.024), FloatValue(0.024)])
  {
  }

  /** The cards of the barrels, one after another. */
  function CulvertsCards(culverts: seq<Barrels.BarrelValue>): seq<Card>
    decreases |culverts|
  {
    if culverts == [] then []
    else CulvertsCards(culverts[..|culverts| - 1]) + CulvertCards(culverts[|culverts| - 1])
  }

  /** Every barrel contributes the same number of cards. */
  lemma {:induction false} CulvertsCardsLength(culverts: seq<Barrels.BarrelValue>)
    ensures |CulvertsCards(culverts)| == 16 * |culverts|
    decreases |culverts|
  {
    if culverts != [] {
      CulvertsCardsLength(culverts[..|culverts| - 1]);
    }
  }

  /** The CROSSGUID card, written only for a non-empty identifier. */
  function GuidCards(uuid: Option<string>): seq<Card> {
    if uuid.Some? && uuid.value != "" then [Card("CROSSGUID", [TextValue(uuid.value)])] else []
  }

  /** The cards `_write_crossing` opens with: the name and the notes. */
  function OpeningCards(c: Crossings.CrossingValue): seq<Card> {
    [Card("STARTCROSSING", [TextValue(Quoted(c.name))]), Card("STARTCROSSNOTES", [TextValue(Quoted(c.notes))])]
  }

  /** The cards after the tailwater: the roadway, the barrels behind their count, the identifier and
      the closing card. */
  function ClosingCards(c: Crossings.CrossingValue): seq<Card> {
    RoadwayCards(c.roadway) + [Card("NUMCULVERTS", [IntValue(|c.culverts|)])]
    + CulvertsCards(c.culverts) + GuidCards(c.uuid)
    + [Card("ENDCROSSING", [TextValue(Quoted(c.name))])]
  }

  /** `_write_crossing`: name and notes, flow, tailwater, then the closing cards. */
  function CrossingCards(c: Crossings.CrossingValue): Emitted {
    Then(Then(Emitted(OpeningCards(c), None), FlowCards(c.flow)),
         Then(TailwaterCards(c.tailwater), Emitted(ClosingCards(c), None)))
  }

  /** A flow that raises ends the crossing after its own cards. */
  lemma CrossingFlowRaises(c: Crossings.CrossingValue)
    requires FlowCards(c.flow).error.Some?
    ensures CrossingCards(c) == Emitted(OpeningCards(c) + FlowCards(c.flow).cards, FlowCards(c.flow).error)
  {
  }

  /** A tailwater that raises ends the crossing after the cards written before it. */
  lemma CrossingTailwaterRaises(c: Crossings.CrossingValue)
    requires FlowCards(c.flow).error.None? && TailwaterCards(c.tailwater).error.Some?
    ensures CrossingCards(c) == Emitted(OpeningCards(c) + FlowCards(c.flow).cards + TailwaterCards(c.tailwater).cards,
                                        TailwaterCards(c.tailwater).error)
  {
  }

  /** The cards of a crossing whose flow and tailwater do not raise, in order. */
  lemma CrossingCardsInOrder(c: Crossings.CrossingValue)
    requires FlowCards(c.flow).error.None? && TailwaterCards(c.tailwater).error.None?
    ensures CrossingCards(c) == Emitted(OpeningCards(c) + FlowCards(c.flow).cards
                                        + TailwaterCards(c.tailwater).cards + ClosingCards(c), None)
  {
    SeqAppendAssoc(OpeningCards(c) + FlowCards(c.flow).cards, TailwaterCards(c.tailwater).cards, ClosingCards(c));
  }

  /** A loop whose passes each emit cards; the first pass that raises ends it. */
  function ThenEach<T>(items: seq<T>, pass: T -> Emitted): Emitted
    decreases |items|
  {
    if items == [] then Emitted([], None)
    else Then(ThenEach(items[..|items| - 1], pass), pass(items[|items| - 1]))
  }

  /** The loop ends without an error exactly when no pass raises. */
  lemma {:induction false} ThenEachNoError<T>(items: seq<T>, pass: T -> Emitted)
    ensures ThenEach(items, pass).error.None? <==> forall i :: 0 <= i < |items| ==> pass(items[i]).error.None?
    decreases |items|
  {
    if items != [] {
      var n := |items| - 1;
      ThenEachNoError(items[..n], pass);
      assert forall i :: 0 <= i < n ==> items[..n][i] == items[i];
    }
  }

  /** One more pass of the loop. */
  lemma ThenEachStep<T>(items: seq<T>, pass: T -> Emitted, i: nat)
    requires i < |items|
    ensures ThenEach(items[..i + 1], pass) == Then(ThenEach(items[..i], pass), pass(items[i]))
  {
    PrefixStep(items, i);
  }

  /** One more pass after passes that did not raise: its cards follow theirs in the text. */
  lemma ThenEachAppended<T>(start: string, items: seq<T>, pass: T -> Emitted, i: nat)
    requires i < |items| && ThenEach(items[..i], pass).error.None?
    ensures start + Render(ThenEach(items[..i], pass).cards) + Render(pass(items[i]).cards)
         == start + Render(ThenEach(items[..i + 1], pass).cards)
    ensures ThenEach(items[..i + 1], pass).error == pass(items[i]).error
  {
    ThenEachStep(items, pass, i);
    AppendedAll(start, ThenEach(items[..i], pass).cards, pass(items[i]).cards);
  }

  /** Once a pass raises, the items after it add nothing. */
  lemma {:induction false} ThenEachStop<T>(items: seq<T>, pass: T -> Emitted, k: nat)
    requires k <= |items| && ThenEach(items[..k], pass).error.Some?
    ensures ThenEach(items, pass) == ThenEach(items[..k], pass)
    decreases |items| - k
  {
    if k < |items| {
      var n := |items| - 1;
      assert items[..n][..k] == items[..k];
      ThenEachStop(items[..n], pass, k);
    } else {
      assert items[..k] == items;
    }
  }

  /** The loop over the crossings. */
  function CrossingsCards(crossings: seq<Crossings.CrossingValue>): Emitted {
    ThenEach(crossings, CrossingCards)
  }

  /** A crossing the validator accepts is written without an error. */
  lemma ValidCrossingWrites(c: Crossings.CrossingValue)
    requires Crossings.CrossingValid(c)
    ensures CrossingCards(c).error.None?
  {
    FlowCardsSpec(c.flow);
  }

  /** The crossings of a valid project are written without an error. */
  lemma ValidCrossingsWrite(crossings: seq<Crossings.CrossingValue>)
    requires Projects.AllCrossingsValid(crossings)
    ensures CrossingsCards(crossings).error.None?
  {
    forall i | 0 <= i < |crossings| ensures CrossingCards(crossings[i]).error.None? {
      ValidCrossingWrites(crossings[i]);
    }
    ThenEachNoError(crossings, CrossingCards);
  }

  // ---------------------------------------------------------------------------------------
  // The whole file
  // ---------------------------------------------------------------------------------------

  /** The text of cards written one after another, one line each. */
  function Render(cards: seq<Card>): string
    decreases |cards|
  {
    if cards == [] then "" else CardLine(cards[0]) + Render(cards[1..])
  }

  lemma {:induction false} RenderConcat(a: seq<Card>, b: seq<Card>)
    ensures Render(a + b) == Render(a) + Render(b)
    decreases |a|
  {
    if a == [] {
      assert a + b == b;
    } else {
      assert (a + b)[1..] == a[1..] + b;
      RenderConcat(a[1..], b);
    }
  }

  /** Writing one more card extends the text by its line. */
  lemma Appended(start: string, written: seq<Card>, c: Card)
    ensures start + Render(written) + CardLine(c) == start + Render(written + [c])
  {
    RenderConcat(written, [c]);
    RenderOne(c);
    SeqAppendAssoc(start, Render(written), CardLine(c));
  }

  lemma RenderOne(c: Card)
    ensures Render([c]) == CardLine(c)
  {
    assert [c][1..] == [];
  }

  /** Writing a further list of cards extends the text by their lines. */
  lemma AppendedAll(start: string, written: seq<Card>, more: seq<Card>)
    ensures start + Render(written) + Render(more) == start + Render(written + more)
  {
    RenderConcat(written, more);
  }

  /** `str(version)`: an integral version loses its ".0", any other is the float's repr. */
  function VersionText(version: real, repr: real -> string): string {
    if version.Floor as real == version then IntToString(version.Floor) else repr(version)
  }

  function HeaderLine(version: real, repr: real -> string): string {
    "HY8PROJECTFILE" + VersionText(version, repr) + "\n"
  }

  /** The project cards ahead of the crossings; the date is `project_timestamp_hours()`. */
  function ProjectHeadCards(p: Projects.ProjectValue, timestamp: real): seq<Card> {
    [Card("UNITS", [IntValue(p.units.ProjectFlag())]),
     Card("EXITLOSSOPTION", [IntValue(p.exitLossOption)]),
     Card("PROJTITLE", [TextValue(p.title)]),
     Card("PROJDESIGNER", [TextValue(p.designer)]),
     Card("STARTPROJNOTES", [TextValue(p.notes)]),
     Card("ENDPROJNOTES", []),
     Card("PROJDATE", [FloatValue(timestamp)]),
     Card("NUMCROSSINGS", [IntValue(|p.crossings|)])]
  }

  /** `_write_project`'s cards: the project cards, then each crossing in turn. */
  function ProjectCards(p: Projects.ProjectValue, timestamp: real): Emitted {
    Then(Emitted(ProjectHeadCards(p, timestamp), None), CrossingsCards(p.crossings))
  }

  /** What `_write_project` leaves in the file: the header line and the cards, closed by
      ENDPROJECTFILE (without a line break) only when no crossing raised. */
  function ProjectText(p: Projects.ProjectValue, version: real, timestamp: real, repr: real -> string): string {
    var e := ProjectCards(p, timestamp);
    HeaderLine(version, repr) + Render(e.cards) + (if e.error.None? then "ENDPROJECTFILE" else "")
  }

  /** Appended to what the file held, the project's text is the header line, the project cards,
      the crossings' cards and the closing line, in that order. */
  lemma ProjectTextParts(p: Projects.ProjectValue, version: real, timestamp: real, repr: real -> string, start: string)
    ensures var crossings := CrossingsCards(p.crossings);
      start + ProjectText(p, version, timestamp, repr)
      == start + HeaderLine(version, repr) + Render(ProjectHeadCards(p, timestamp)) + Render(crossings.cards)
         + (if crossings.error.None? then "ENDPROJECTFILE" else "")
  {
    var crossings := CrossingsCards(p.crossings);
    var head := Render(ProjectHeadCards(p, timestamp));
    var tail: string := if crossings.error.None? then "ENDPROJECTFILE" else "";
    RenderConcat(ProjectHeadCards(p, timestamp), crossings.cards);
    assert ProjectText(p, version, timestamp, repr) == HeaderLine(version, repr) + (head + Render(crossings.cards)) + tail;
    SeqAppendAssoc(HeaderLine(version, repr), head, Render(crossings.cards));
    SeqAppendAssoc(start, HeaderLine(version, repr) + head + Render(crossings.cards), tail);
    SeqAppendAssoc(start, HeaderLine(version, repr) + head, Render(crossings.cards));
    SeqAppendAssoc(start, HeaderLine(version, repr), head);
  }

  // ---------------------------------------------------------------------------------------
  // `output_path.with_suffix(".hy8")`
  // ---------------------------------------------------------------------------------------

  const Hy8Suffix: string := ".hy8"

  /** The position of the last `c` in `s`, if any. */
  function LastIndex(s: string, c: char): (r: Option<nat>)
    ensures r.Some? ==> r.value < |s| && s[r.value] == c && forall i :: r.value < i < |s| ==> s[i] != c
    ensures r.None? ==> forall i :: 0 <= i < |s| ==> s[i] != c
    decreases |s|
  {
    if s == [] then None
    else if s[|s| - 1] == c then Some(|s| - 1)
    else LastIndex(s[..|s| - 1], c)
  }

  /** The last `c` is the one with no other `c` after it. */
  lemma LastIndexAt(s: string, c: char, j: nat)
    requires j < |s| && s[j] == c
    requires forall i :: j < i < |s| ==> s[i] != c
    ensures LastIndex(s, c) == Some(j)
  {
    var r := LastIndex(s, c);
    assert r.Some? && r.value >= j;
  }

  /** Where the last path component starts: just past the last `/`. */
  function NameStart(path: string): (k: nat)
    ensures k <= |path|
    ensures k > 0 ==> path[k - 1] == '/'
    ensures forall i :: k <= i < |path| ==> path[i] != '/'
  {
    match LastIndex(path, '/')
    case None => 0
    case Some(i) => i + 1
  }

  /** `PurePath.stem`: the name without its suffix, where the suffix starts at the last `.` and
      counts only when that `.` is neither the name's first nor its last character. */
  function Stem(name: string): (r: string)
    ensures |r| <= |name| && r == name[..|r|]
    ensures name != [] ==> r != []
  {
    var dot := LastIndex(name, '.');
    if dot.Some? && 0 < dot.value < |name| - 1 then name[..dot.value] else name
  }

  function EmptyNameMessage(path: string): string {
    path + " has an empty name"
  }

  /** `Path(path).with_suffix(".hy8")`: trailing separators dropped, then the last component's
      suffix replaced by `.hy8`; a path whose last component is empty or `.` has no name and
      raises. */
  function Hy8Suffixed(path: string): Result<string> {
    var p := RStripChar(path, '/');
    var k := NameStart(p);
    var name := p[k..];
    if name == [] || name == "." then Err(EmptyNameMessage(path))
    else Ok(p[..k] + Stem(name) + Hy8Suffix)
  }

  /** `with_suffix` keeps the directory part and the stem, ends the path in `.hy8`, and raises
      exactly for a path without a name. */
  lemma Hy8SuffixedSpec(path: string)
    ensures var p := RStripChar(path, '/');
      var name := p[NameStart(p)..];
      var r := Hy8Suffixed(path);
      && (r.Err? <==> name == [] || name == ".")
      && (r.Ok? ==>
            && EndsWith(r.value, Hy8Suffix)
            && StartsWith(r.value, p[..NameStart(p)])
            && r.value[NameStart(p)..] == Stem(name) + Hy8Suffix)
  {
    var p := RStripChar(path, '/');
    var k := NameStart(p);
    var name := p[k..];
    if name != [] && name != "." {
      var r := p[..k] + Stem(name) + Hy8Suffix;
      assert r[|r| - 4..] == Hy8Suffix;
      assert r[..k] == p[..k];
      assert r[k..] == Stem(name) + Hy8Suffix;
    }
  }

  /** A name ending in `.hy8` after a non-empty stem keeps that stem. */
  lemma StemOfHy8Name(stem: string)
    requires stem != []
    ensures Stem(stem + Hy8Suffix) == stem
  {
    var name := stem + Hy8Suffix;
    assert name[|stem|] == '.';
    assert forall i :: |stem| < i < |name| ==> name[i] == Hy8Suffix[i - |stem|];
    LastIndexAt(name, '.', |stem|);
    assert name[..|stem|] == stem;
  }

  /** Adding the suffix twice is adding it once. */
  lemma Hy8SuffixedIdempotent(path: string)
    requires Hy8Suffixed(path).Ok?
    ensures Hy8Suffixed(Hy8Suffixed(path).value) == Hy8Suffixed(path)
  {
    var p := RStripChar(path, '/');
    var k := NameStart(p);
    var stem := Stem(p[k..]);
    var q := p[..k] + stem + Hy8Suffix;
    assert Hy8Suffixed(path).value == q;
    assert q[|q| - 1] == '8';
    assert RStripChar(q, '/') == q;
    assert forall i :: k <= i < |q| ==> q[i] != '/' by {
      forall i | k <= i < |q|
        ensures q[i] != '/'
      {
        if i < k + |stem| {
          assert q[i] == p[k..][i - k];
        } else {
          assert q[i] == Hy8Suffix[i - k - |stem|];
        }
      }
    }
    if k > 0 {
      assert q[k - 1] == p[k - 1];
      LastIndexAt(q, '/', k - 1);
    } else {
      assert LastIndex(q, '/').None?;
    }
    assert NameStart(q) == k;
    assert q[k..] == stem + Hy8Suffix;
    assert q[..k] == p[..k];
    StemOfHy8Name(stem);
  }

  function ValidationMessage(errors: seq<string>): string {
    "HY-8 project validation failed:\n" + Join("\n", errors)
  }

  function ExistsMessage(path: string): string {
    path + " already exists. Set overwrite=True to replace it."
  }

  /** The result of `write` and the text the file holds afterwards; `None` when the file is not
      opened. A crossing that raises leaves the cards written before it in the file. */
  datatype WriteOutcome = WriteOutcome(result: Result<string>, file: Option<string>)

  /** `write` once its path has the `.hy8` suffix: `path` is that path and `fileExists` says whether
      it names an existing file. */
  function WriteSpec(p: Projects.ProjectValue, version: real, path: string, fileExists: bool, overwrite: bool,
                     timestamp: real, repr: real -> string): WriteOutcome
  {
    var errors := Projects.Validate(p, "", repr);
    if errors != [] then WriteOutcome(Err(ValidationMessage(errors)), None)
    else ValidatedWriteSpec(p, version, path, fileExists, overwrite, timestamp, repr)
  }

  /** `write` past validation: a file that exists and may not be replaced is refused, otherwise the
      project's text is written. */
  function ValidatedWriteSpec(p: Projects.ProjectValue, version: real, path: string, fileExists: bool, overwrite: bool,
                              timestamp: real, repr: real -> string): WriteOutcome
  {
    if fileExists && !overwrite then WriteOutcome(Err(ExistsMessage(path)), None)
    else
      var e := ProjectCards(p, timestamp);
      WriteOutcome(if e.error.Some? then Err(e.error.value) else Ok(path), Some(ProjectText(p, version, timestamp, repr)))
  }

  /** An invalid project is refused first, then a file that exists and may not be replaced. */
  lemma WriteSpecRefuses(p: Projects.ProjectValue, version: real, path: string, fileExists: bool, overwrite: bool,
                         timestamp: real, repr: real -> string)
    ensures var errors := Projects.Validate(p, "", repr);
      var o := WriteSpec(p, version, path, fileExists, overwrite, timestamp, repr);
      && (errors != [] ==> o == WriteOutcome(Err(ValidationMessage(errors)), None))
      && (errors == [] && fileExists && !overwrite ==> o == WriteOutcome(Err(ExistsMessage(path)), None))
  {
  }

  /** Past the two refusals, `write` leaves the project's text in the file. */
  lemma WriteSpecWrites(p: Projects.ProjectValue, version: real, path: string, fileExists: bool, overwrite: bool,
                        timestamp: real, repr: real -> string)
    requires Projects.Validate(p, "", repr) == [] && (!fileExists || overwrite)
    ensures WriteSpec(p, version, path, fileExists, overwrite, timestamp, repr)
         == WriteOutcome(if ProjectCards(p, timestamp).error.Some? then Err(ProjectCards(p, timestamp).error.value)
                         else Ok(path), Some(ProjectText(p, version, timestamp, repr)))
  {
  }

  /** `write` succeeds exactly for a valid project whose file is absent or may be replaced. */
  lemma WriteSucceedsExactly(p: Projects.ProjectValue, version: real, path: string, fileExists: bool, overwrite: bool,
                             timestamp: real, repr: real -> string)
    ensures WriteSpec(p, version, path, fileExists, overwrite, timestamp, repr).result.Ok?
        <==> Projects.ProjectValid(p) && (!fileExists || overwrite)
  {
    if Projects.ProjectValid(p) {
      ValidCrossingsWrite(p.crossings);
    }
  }

  /** An invalid project is refused with the validation message, and no file is opened. */
  lemma WriteRefusesInvalid(p: Projects.ProjectValue, version: real, path: string, fileExists: bool, overwrite: bool,
                            timestamp: real, repr: real -> string)
    requires !Projects.ProjectValid(p)
    ensures var o := WriteSpec(p, version, path, fileExists, overwrite, timestamp, repr);
      o.file.None? && o.result.Err? && StartsWith(o.result.msg, "HY-8 project validation failed:\n")
  {
    var errors := Projects.Validate(p, "", repr);
    assert StartsWith(ValidationMessage(errors), "HY-8 project validation failed:\n");
  }

  /** A successful write leaves the header, the project cards, each crossing's cards and
      ENDPROJECTFILE in the file. */
  lemma WriteSucceedsWithFile(p: Projects.ProjectValue, version: real, path: string, fileExists: bool, overwrite: bool,
                              timestamp: real, repr: real -> string)
    requires WriteSpec(p, version, path, fileExists, overwrite, timestamp, repr).result.Ok?
    ensures var o := WriteSpec(p, version, path, fileExists, overwrite, timestamp, repr);
      o.result.value == path
      && o.file == Some(HeaderLine(version, repr) + Render(ProjectHeadCards(p, timestamp))
                        + Render(CrossingsCards(p.crossings).cards) + "ENDPROJECTFILE")
  {
    ProjectTextParts(p, version, timestamp, repr, "");
    EmptyAppend(ProjectText(p, version, timestamp, repr));
    EmptyAppend(HeaderLine(version, repr));
  }

  /** The files on disk, by path. */
  class Disk {
    var files: map<string, string>

    constructor(files: map<string, string>)
      ensures this.files == files
    {
      this.files := files;
    }
  }

  /** Successive `_write_card` calls, one per card. */
  method WriteCards(handle: Hy8Output, cards: seq<Card>)
    modifies handle
    ensures handle.text == old(handle.text) + Render(cards)
  {
    for i := 0 to |cards|
      invariant handle.text == old(handle.text) + Render(cards[..i])
    {
      WriteCard(handle, cards[i].name, cards[i].values);
      Appended(old(handle.text), cards[..i], cards[i]);
      PrefixStep(cards, i);
    }
    WholePrefix(cards);
  }

  /** `Hy8FileWriter`: a project and the HY-8 version written in the header. */
  class Hy8FileWriter {
    var project: Projects.ProjectValue
    var version: real

    constructor(project: Projects.ProjectValue, version: real)
      ensures this.project == project && this.version == version
    {
      this.project := project;
      this.version := version;
    }

    /** `write`: the path gets the `.hy8` suffix, then validate, refuse to replace a file unless
        allowed, and write the project. */
    method Write(disk: Disk, outputPath: string, overwrite: bool, timestamp: real, repr: real -> string)
      returns (r: Result<string>)
      modifies disk
      ensures Hy8Suffixed(outputPath).Err? ==> r == Err(Hy8Suffixed(outputPath).msg) && disk.files == old(disk.files)
      ensures Hy8Suffixed(outputPath).Ok? ==>
        var path := Hy8Suffixed(outputPath).value;
        var o := WriteSpec(project, version, path, path in old(disk.files), overwrite, timestamp, repr);
        r == o.result
        && disk.files == if o.file.Some? then old(disk.files)[path := o.file.value] else old(disk.files)
    {
      var suffixed := Hy8Suffixed(outputPath);
      if suffixed.Err? {
        return Err(suffixed.msg);
      }
      r := WriteTo(disk, suffixed.value, overwrite, timestamp, repr);
    }

    /** `write` once `output_path` has its suffix: validation, the existing-file check, then the
        file itself. */
    method WriteTo(disk: Disk, path: string, overwrite: bool, timestamp: real, repr: real -> string)
      returns (r: Result<string>)
      modifies disk
      ensures var o := WriteSpec(project, version, path, path in old(disk.files), overwrite, timestamp, repr);
        r == o.result
        && disk.files == if o.file.Some? then old(disk.files)[path := o.file.value] else old(disk.files)
    {
      var errors := Projects.Validate(project, "", repr);
      if errors != [] {
        return Err(ValidationMessage(errors));
      }
      r := WriteValidated(disk, path, overwrite, timestamp, repr);
    }

    /** `write` for a project that validates: the existing-file check, then the file itself. */
    method WriteValidated(disk: Disk, path: string, overwrite: bool, timestamp: real, repr: real -> string)
      returns (r: Result<string>)
      modifies disk
      ensures var o := ValidatedWriteSpec(project, version, path, path in old(disk.files), overwrite, timestamp, repr);
        r == o.result
        && disk.files == if o.file.Some? then old(disk.files)[path := o.file.value] else old(disk.files)
    {
      if path in disk.files && !overwrite {
        return Err(ExistsMessage(path));
      }
      var error := WriteFile(disk, path, timestamp, repr);
      if error.Some? {
        return Err(error.value);
      }
      return Ok(path);
    }

    /** `with path.open("w") as handle: self._write_project(handle)`: the file is replaced by what
        `_write_project` writes, including when a crossing raises part-way. */
    method WriteFile(disk: Disk, path: string, timestamp: real, repr: real -> string) returns (error: Option<string>)
      modifies disk
      ensures disk.files == old(disk.files)[path := ProjectText(project, version, timestamp, repr)]
      ensures error == ProjectCards(project, timestamp).error
    {
      var handle := new Hy8Output();
      error := WriteProject(handle, timestamp, repr);
      EmptyAppend(ProjectText(project, version, timestamp, repr));
      disk.files := disk.files[path := handle.text];
    }

    /** `_write_project`: the header line, the project cards, each crossing, ENDPROJECTFILE. */
    method WriteProject(handle: Hy8Output, timestamp: real, repr: real -> string) returns (error: Option<string>)
      modifies handle
      ensures handle.text == old(handle.text) + ProjectText(project, version, timestamp, repr)
      ensures error == ProjectCards(project, timestamp).error
    {
      var versionValue := version;
      var versionText := if versionValue.Floor as real == versionValue then IntToString(versionValue.Floor)
                         else repr(versionValue);
      handle.text := handle.text + ("HY8PROJECTFILE" + versionText + "\n");
      WriteCards(handle, ProjectHeadCards(project, timestamp));
      error := WriteCrossings(handle, project.crossings);
      ProjectTextParts(project, version, timestamp, repr, old(handle.text));
      if error.Some? {
        AppendEmpty(handle.text);
        return;
      }
      handle.text := handle.text + "ENDPROJECTFILE";
    }

    /** The loop of `_write_project` over the crossings; the first one that raises ends it. */
    method WriteCrossings(handle: Hy8Output, crossings: seq<Crossings.CrossingValue>) returns (error: Option<string>)
      modifies handle
      ensures handle.text == old(handle.text) + Render(CrossingsCards(crossings).cards)
      ensures error == CrossingsCards(crossings).error
    {
      error := None;
      var i := 0;
      while i < |crossings|
        invariant 0 <= i <= |crossings| && error.None?
        invariant ThenEach(crossings[..i], CrossingCards).error.None?
        invariant handle.text == old(handle.text) + Render(ThenEach(crossings[..i], CrossingCards).cards)
      {
        error := WriteCrossing(handle, crossings[i]);
        ThenEachAppended(old(handle.text), crossings, CrossingCards, i);
        if error.Some? {
          ThenEachStop(crossings, CrossingCards, i + 1);
          return;
        }
        i := i + 1;
      }
      WholePrefix(crossings);
    }

    /** `_write_crossing`. */
    method WriteCrossing(handle: Hy8Output, crossing: Crossings.CrossingValue) returns (error: Option<string>)
      modifies handle
      ensures handle.text == old(handle.text) + Render(CrossingCards(crossing).cards)
      ensures error == CrossingCards(crossing).error
    {
      var opening := [Card("STARTCROSSING", [TextValue(Quoted(crossing.name))]),
                      Card("STARTCROSSNOTES", [TextValue(Quoted(crossing.notes))])];
      WriteCards(handle, opening);
      error := WriteFlow(handle, crossing.flow);
      AppendedAll(old(handle.text), opening, FlowCards(crossing.flow).cards);
      if error.Some? {
        CrossingFlowRaises(crossing);
        return;
      }
      ghost var beforeTailwater := opening + FlowCards(crossing.flow).cards;
      error := WriteTailwater(handle, crossing.tailwater);
      AppendedAll(old(handle.text), beforeTailwater, TailwaterCards(crossing.tailwater).cards);
      if error.Some? {
        CrossingTailwaterRaises(crossing);
        return;
      }
      ghost var middle := handle.text;
      WriteRoadway(handle, crossing.roadway);
      WriteCard(handle, "NUMCULVERTS", [IntValue(|crossing.culverts|)]);
      Appended(middle, RoadwayCards(crossing.roadway), Card("NUMCULVERTS", [IntValue(|crossing.culverts|)]));
      ghost var closing := RoadwayCards(crossing.roadway) + [Card("NUMCULVERTS", [IntValue(|crossing.culverts|)])];
      WriteCulverts(handle, crossing.culverts);
      AppendedAll(middle, closing, CulvertsCards(crossing.culverts));
      closing := closing + CulvertsCards(crossing.culverts);
      if crossing.uuid.Some? && crossing.uuid.value != "" {
        WriteCard(handle, "CROSSGUID", [TextValue(crossing.uuid.value)]);
        Appended(middle, closing, Card("CROSSGUID", [TextValue(crossing.uuid.value)]));
      } else {
        AppendEmpty(closing);
      }
      closing := closing + GuidCards(crossing.uuid);
      WriteCard(handle, "ENDCROSSING", [TextValue(Quoted(crossing.name))]);
      Appended(middle, closing, Card("ENDCROSSING", [TextValue(Quoted(crossing.name))]));
      AppendedAll(old(handle.text), beforeTailwater + TailwaterCards(crossing.tailwater).cards, ClosingCards(crossing));
      CrossingCardsInOrder(crossing);
    }

    /** `_write_flow`. */
    method WriteFlow(handle: Hy8Output, flow: Flows.FlowValue) returns (error: Option<string>)
      modifies handle
      ensures handle.text == old(handle.text) + Render(FlowCards(flow).cards)
      ensures error == FlowCards(flow).error
    {
      var dischargeMethod := if flow.flowMethod.MinDesignMax? then 0 else 1;
      var (minFlow, designFlow, maxFlow) := FlowRangeValues(flow);
      var head := [Card("DISCHARGERANGE", [FloatValue(minFlow), FloatValue(designFlow), FloatValue(maxFlow)]),
                   Card("DISCHARGEMETHOD", [IntValue(dischargeMethod)])];
      WriteCards(handle, head);
      var sequence := Flows.Sequence(flow);
      if sequence.Err? {
        return Some(sequence.msg);
      }
      var flowValues := sequence.value;
      var labels := flow.userValueLabels;
      WriteCard(handle, "DISCHARGEXYUSER", [IntValue(|flowValues|)]);
      Appended(old(handle.text), head, Card("DISCHARGEXYUSER", [IntValue(|flowValues|)]));
      WriteFlowValues(handle, flowValues, labels);
      AppendedAll(old(handle.text), head + [Card("DISCHARGEXYUSER", [IntValue(|flowValues|)])],
                  FlowValueCards(flowValues, labels));
      error := None;
    }

    /** The loop of `_write_flow` over the flows: each value, then its label when the flow has labels. */
    method WriteFlowValues(handle: Hy8Output, flowValues: seq<real>, labels: seq<string>)
      modifies handle
      ensures handle.text == old(handle.text) + Render(FlowValueCards(flowValues, labels))
    {
      var includeLabels := labels != [];
      for idx := 0 to |flowValues|
        invariant handle.text == old(handle.text) + Render(FlowValueCards(flowValues[..idx], labels))
      {
        ghost var before := FlowValueCards(flowValues[..idx], labels);
        WriteCard(handle, "DISCHARGEXYUSER_Y", [FloatValue(flowValues[idx])]);
        Appended(old(handle.text), before, FlowValueCard(flowValues[idx]));
        if includeLabels {
          var text := if idx < |labels| then labels[idx] else "";
          WriteCard(handle, "DISCHARGEXYUSER_NAME", [TextValue(Quoted(text))]);
          Appended(old(handle.text), before + [FlowValueCard(flowValues[idx])], FlowLabelCard(text));
          AppendTwo(before, FlowValueCard(flowValues[idx]), FlowLabelCard(text));
        }
        PrefixStep(flowValues, idx);
      }
      WholePrefix(flowValues);
    }

    /** `_write_tailwater`, reading the type the definition declares. */
    method WriteTailwater(handle: Hy8Output, tailwater: Tailwaters.TailwaterValue) returns (error: Option<string>)
      modifies handle
      ensures handle.text == old(handle.text) + Render(TailwaterCards(tailwater).cards)
      ensures error == TailwaterCards(tailwater).error
    {
      if !tailwater.twType.Constant? {
        return Some(WriterUnsupportedTailwater(tailwater.twType));
      }
      var stages := TailwaterStages(tailwater);
      var vel := 0.0;
      var shear := 0.0;
      var froude := 0.0;
      var firstStage := if stages != [] then stages[0] else 0.0;
      var head := [Card("TAILWATERTYPE", [IntValue(tailwater.twType.Code())]),
                   Card("CHANNELGEOMETRY", [FloatValue(tailwater.bottomWidth), FloatValue(tailwater.sideslope),
                     FloatValue(tailwater.channelSlope), FloatValue(tailwater.manningN), FloatValue(tailwater.invertElevation)]),
                   Card("NUMRATINGCURVE", [IntValue(|stages|)]),
                   Card("TWRATINGCURVE", [FloatValue(firstStage), FloatValue(vel), FloatValue(shear), FloatValue(froude)])];
      WriteCards(handle, head);
      WriteContinuations(handle, stages[1..]);
      AppendedAll(old(handle.text), head, ContinuationCards(stages[1..]));
      error := None;
    }

    /** The `for stage in stages[1:]` loop of `_write_tailwater`: one unnamed card per stage. */
    method WriteContinuations(handle: Hy8Output, stages: seq<real>)
      modifies handle
      ensures handle.text == old(handle.text) + Render(ContinuationCards(stages))
    {
      for i := 0 to |stages|
        invariant handle.text == old(handle.text) + Render(ContinuationCards(stages[..i]))
      {
        ghost var before := ContinuationCards(stages[..i]);
        WriteCard(handle, "", [FloatValue(stages[i]), FloatValue(0.0), FloatValue(0.0), FloatValue(0.0)]);
        Appended(old(handle.text), before, StageCard("", stages[i]));
        PrefixStep(stages, i);
      }
      WholePrefix(stages);
    }

    /** `_write_roadway`: the first point goes on ROADWAYSECDATA, the rest on ROADWAYPOINT. */
    method WriteRoadway(handle: Hy8Output, roadway: Roadways.RoadwayValue)
      modifies handle
      ensures handle.text == old(handle.text) + Render(RoadwayCards(roadway))
    {
      var head := [Card("ROADWAYSHAPE", [IntValue(roadway.shape)]), Card("ROADWIDTH", [FloatValue(roadway.width)]),
                   Card("SURFACE", [IntValue(roadway.surface.Code())]), Card("NUMSTATIONS", [IntValue(|roadway.stations|)])];
      WriteCards(handle, head);
      ghost var pointsStart := handle.text;
      var card := "ROADWAYSECDATA";
      var points := Roadways.Points(roadway);
      for i := 0 to |points|
        invariant handle.text == pointsStart + Render(PointCards(points[..i]))
        invariant card == if i == 0 then "ROADWAYSECDATA" else "ROADWAYPOINT"
      {
        var (station, elevation) := points[i];
        ghost var before := PointCards(points[..i]);
        WriteCard(handle, card, [FloatValue(station), FloatValue(elevation)]);
        Appended(pointsStart, before, PointCard(i, points[i]));
        PrefixStep(points, i);
        card := "ROADWAYPOINT";
      }
      WholePrefix(points);
      AppendedAll(old(handle.text), head, PointCards(points));
    }

    /** The loop of `_write_crossing` over the barrels. */
    method WriteCulverts(handle: Hy8Output, culverts: seq<Barrels.BarrelValue>)
      modifies handle
      ensures handle.text == old(handle.text) + Render(CulvertsCards(culverts))
    {
      for i := 0 to |culverts|
        invariant handle.text == old(handle.text) + Render(CulvertsCards(culverts[..i]))
      {
        ghost var before := CulvertsCards(culverts[..i]);
        WriteCulvert(handle, culverts[i]);
        AppendedAll(old(handle.text), before, CulvertCards(culverts[i]));
        PrefixStep(culverts, i);
      }
      WholePrefix(culverts);
    }

    /** `_write_culvert`: the sixteen cards of one barrel, in order. */
    method WriteCulvert(handle: Hy8Output, culvert: Barrels.BarrelValue)
      modifies handle
      ensures handle.text == old(handle.text) + Render(CulvertCards(culvert))
    {
      WriteCards(handle, CulvertCards(culvert));
    }
  }
}
