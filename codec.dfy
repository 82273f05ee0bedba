/** The card layout seen from both sides: what the reader's stream makes of a line the writer
    lays out. The writer ends each card with a newline and the reader splits the file into
    lines, so a card's line is its layout text. */
module Codec {
  import opened Wrappers
  import opened Text
  import opened Enums
  import opened CardStreams
  import opened CardFields
  import opened CardWriter
  import Barrels
  import Projects
  import Reader

  /** The card `next_card` makes of one line: nothing for a blank line, otherwise the split of
      the stripped line. */
  function LineCard(line: string): (r: Option<Hy8Card>)
    ensures r.None? <==> Strip(line) == []
  {
    if Strip(line) == [] then None
    else
      StripHead(line);
      Some(SplitCard(Strip(line)))
  }

  /** `LineCard` is what the stream hands out when the line is the next one to read. */
  lemma TakeLineCard(st: StreamState)
    requires st.buffer == [] && st.index < |st.lines|
    ensures LineCard(st.lines[st.index]).Some? ==>
      TakeCard(st) == Taken(LineCard(st.lines[st.index]), st.(index := st.index + 1))
  {
    if LineCard(st.lines[st.index]).Some? {
      TakeSkipsBlankLines(st, st.index);
    }
  }

  // ---------------------------------------------------------------------------------------
  // Splitting a line
  // ---------------------------------------------------------------------------------------

  /** Leading whitespace does not change a string's words. */
  lemma WordsOfLStrip(s: string)
    ensures Words(s) == Words(LStrip(s))
  {
    LStripSuffix(s);
    var t := LStrip(s);
    var blank := s[..|s| - |t|];
    assert s == blank + t;
    LStripBlank(blank);
    WordsBlankFront(blank, t);
  }

  /** A word that opens a line and is followed by whitespace or the end of the line is the
      only such word: `_split_card`'s key is fixed by the line. */
  lemma LeadingWordUnique(line: string, a: string, b: string)
    requires a != [] && NoSpace(a) && StartsWith(line, a) && (|a| < |line| ==> IsSpace(line[|a|]))
    requires b != [] && NoSpace(b) && StartsWith(line, b) && (|b| < |line| ==> IsSpace(line[|b|]))
    ensures a == b
  {
    if |a| < |b| {
      assert false;
    } else if |b| < |a| {
      assert false;
    } else {
      assert a == line[..|a|];
    }
  }

  /** A line that opens with a word other than the header keyword, followed by whitespace, does
      not start with the header keyword. */
  lemma NotHeaderLine(name: string, rest: string)
    requires name != [] && NoSpace(name) && !StartsWith(name, HeaderKey)
    requires rest == [] || IsSpace(rest[0])
    ensures !StartsWith(name + rest, HeaderKey)
  {
    var line := name + rest;
    var n := |HeaderKey|;
    if |name| >= n {
      assert line[..n] == name[..n];
    } else if |line| >= n {
      assert line[..n][|name|] == rest[0];
      assert !IsSpace(HeaderKey[|name|]);
    }
  }

  /** `_split_card` on an ordinary line: the key is the line's first word and the value holds
      the remaining words. */
  lemma SplitCardWords(line: string)
    requires line != [] && !IsSpace(line[0]) && !StartsWith(line, HeaderKey)
    ensures Words(line) == [SplitCard(line).key] + Words(SplitCard(line).value)
  {
    var c := SplitCard(line);
    PrefixSplit(line, c.key);
    WordsOfKeyAndRest(c.key, line[|c.key|..]);
  }

  /** A word followed by whitespace (or nothing) contributes itself and then the words of what
      follows. */
  lemma WordsOfKeyAndRest(key: string, rest: string)
    requires key != [] && NoSpace(key) && (rest == [] || IsSpace(rest[0]))
    ensures Words(key + rest) == [key] + Words(LStrip(rest))
  {
    assert LStrip(key) == key;
    TokenLengthAppend(key, []);
    assert key + [] == key;
    WordsAfterFirst(key, rest);
    assert key[|key|..] + rest == rest;
    WordsOfLStrip(rest);
  }

  /** A card line opening with `name` and then whitespace, whose last character is not
      whitespace, reads back with `name` as its key. */
  lemma KeyOfLine(line: string, name: string, rest: string)
    requires name != [] && NoSpace(name) && !StartsWith(name, HeaderKey)
    requires rest != [] && IsSpace(rest[0]) && !IsSpace(rest[|rest| - 1])
    requires line == name + rest
    ensures LineCard(line).Some?
    ensures Strip(line) == line && !StartsWith(line, HeaderKey)
    ensures LineCard(line).value == SplitCard(line)
    ensures SplitCard(line).key == name && SplitCard(line).value == LStrip(rest)
  {
    StripUnpadded(line);
    NotHeaderLine(name, rest);
    var c := SplitCard(line);
    LeadingWordUnique(line, c.key, name);
  }

  // ---------------------------------------------------------------------------------------
  // Numeric cards
  // ---------------------------------------------------------------------------------------

  /** A card of numbers reads back under its own name, with exactly the written numbers as the
      words of its value, provided the name is one word, not exactly 21 characters long (a
      21-character name runs into the first number) and not the header keyword. */
  lemma NumericCardRead(name: string, values: seq<CardValue>)
    requires name != [] && NoSpace(name) && |name| != CardColumn && !StartsWith(name, HeaderKey)
    requires values != [] && AllNumeric(values)
    ensures var card := LineCard(LayoutOf(name, values).text);
      && card.Some? && card.value.key == name
      && Words(card.value.value) == RenderedNumbers(values)
  {
    var line := LayoutOf(name, values).text;
    NumericCardWords(name, values);
    NumericLineShape(name, values);
    LastNumberEnds(name, values);
    var tail := line[|name|..];
    PrefixSplit(line, name);
    KeyOfTail(line, name, tail);
    SplitCardWords(line);
    ConsCancel(name, Words(SplitCard(line).value), RenderedNumbers(values));
  }

  lemma ConsCancel<T>(x: T, a: seq<T>, b: seq<T>)
    requires [x] + a == [x] + b
    ensures a == b
  {
    assert a == ([x] + a)[1..];
  }

  lemma PrefixSplit(line: string, name: string)
    requires StartsWith(line, name)
    ensures line == name + line[|name|..]
  {
  }

  /** The name opens a card with one value, and whitespace follows it. */
  lemma FirstLineShape(name: string, v: CardValue)
    requires name != [] && |name| != CardColumn && v.IsNumeric()
    ensures var f := LayoutOf(name, [v]).text;
      |f| > |name| && StartsWith(f, name) && IsSpace(f[|name|])
  {
    FirstNumberColumn(name, v);
    var t := FmtNumeric(v);
    if |name| < CardColumn {
      var field := NameField(name);
      assert field[|name|] == ' ';
      assert (field + t)[..|name|] == field[..|name|];
    } else {
      assert (name + " " + t)[..|name|] == name;
      assert (name + " " + t)[|name|] == ' ';
    }
  }

  /** Every numeric card line opens with its name followed by whitespace. */
  lemma NumericLineShape(name: string, values: seq<CardValue>)
    requires name != [] && |name| != CardColumn
    requires values != [] && AllNumeric(values)
    ensures var line := LayoutOf(name, values).text;
      |line| > |name| && StartsWith(line, name) && IsSpace(line[|name|])
  {
    var line := LayoutOf(name, values).text;
    var first := values[0];
    LayoutGrows(name, values, 1);
    assert values[..1] == [first];
    FirstLineShape(name, first);
    var f := LayoutOf(name, [first]).text;
    assert line[..|f|] == f;
    assert line[|name|] == f[|name|];
    assert line[..|name|] == f[..|name|];
  }

  /** The last character of a numeric card is the last digit of its last number. */
  lemma LastNumberEnds(name: string, values: seq<CardValue>)
    requires values != [] && AllNumeric(values)
    ensures var line := LayoutOf(name, values).text;
      line != [] && !IsSpace(line[|line| - 1])
  {
    var init := values[..|values| - 1];
    var v := values[|values| - 1];
    var l := LayoutOf(name, init);
    var t := FmtNumeric(v);
    assert LayoutOf(name, values).text == l.text + Separator(l, v) + t;
  }

  lemma KeyOfTail(line: string, name: string, tail: string)
    requires name != [] && NoSpace(name) && !StartsWith(name, HeaderKey)
    requires tail != [] && IsSpace(tail[0]) && !IsSpace(tail[|tail| - 1])
    requires line == name + tail
    ensures LineCard(line).Some? && LineCard(line).value == SplitCard(line)
    ensures SplitCard(line).key == name
    ensures !StartsWith(line, HeaderKey) && line != [] && !IsSpace(line[0])
  {
    KeyOfLine(line, name, tail);
  }

  /** An integer card reads back as the integer written, whatever default `_as_int` is given. */
  lemma IntCardRead(name: string, k: int, default: int, values: seq<CardValue>)
    requires name != [] && NoSpace(name) && |name| != CardColumn && !StartsWith(name, HeaderKey)
    requires values == [IntValue(k)]
    ensures var card := LineCard(LayoutOf(name, values).text);
      card.Some? && card.value.key == name && AsInt(card.value.value, default) == k
  {
    NumericCardRead(name, values);
    assert RenderedNumbers(values) == [IntToString(k)];
    ParseIntOfString(k);
  }

  /** The UNITS card the writer emits gives the reader back the project's unit system. */
  lemma UnitsRoundTrip(p: Projects.ProjectValue, q: Projects.ProjectValue)
    ensures var card := LineCard(LayoutOf("UNITS", [IntValue(q.units.ProjectFlag())]).text);
      && card.Some?
      && Reader.ProjectCard(p, card.value.key, card.value.value).units == q.units
  {
    assert !StartsWith("UNITS", HeaderKey);
    IntCardRead("UNITS", q.units.ProjectFlag(), 0, [IntValue(q.units.ProjectFlag())]);
  }

  /** The CULVERTSHAPE card the writer emits gives the reader back the barrel's shape. */
  lemma ShapeRoundTrip(b: Barrels.BarrelValue, shape: CulvertShape)
    ensures var card := LineCard(LayoutOf("CULVERTSHAPE", [IntValue(shape.Code())]).text);
      && card.Some?
      && Reader.CulvertCard(b, card.value.key, card.value.value).shape == shape
  {
    assert !StartsWith("CULVERTSHAPE", HeaderKey);
    IntCardRead("CULVERTSHAPE", shape.Code(), 0, [IntValue(shape.Code())]);
  }

  // ---------------------------------------------------------------------------------------
  // Text cards
  // ---------------------------------------------------------------------------------------

  /** A text card whose text has no whitespace at either end reads back as that text, provided
      the name is one word shorter than 21 characters and not the header keyword. */
  lemma TextCardRead(name: string, text: string, values: seq<CardValue>)
    requires name != [] && NoSpace(name) && |name| < CardColumn && !StartsWith(name, HeaderKey)
    requires text != [] && !IsSpace(text[0]) && !IsSpace(text[|text| - 1])
    requires values == [TextValue(text)]
    ensures LineCard(LayoutOf(name, values).text) == Some(Hy8Card(name, text))
  {
    TextLine(name, text);
    PaddedLineRead(LayoutOf(name, values).text, name, Spaces(CardColumn - |name|), text);
  }

  /** A word, then whitespace, then text with no whitespace at either end: the word is the key
      and the text the value. */
  lemma PaddedLineRead(line: string, name: string, pad: string, text: string)
    requires name != [] && NoSpace(name) && !StartsWith(name, HeaderKey)
    requires pad != [] && AllSpaces(pad)
    requires text != [] && !IsSpace(text[0]) && !IsSpace(text[|text| - 1])
    requires line == name + pad + text
    ensures LineCard(line) == Some(Hy8Card(name, text))
  {
    var rest := pad + text;
    SeqAppendAssoc(name, pad, text);
    assert rest[0] == pad[0];
    KeyOfLine(line, name, rest);
    LStripBlank(pad);
    LStripAppendBlank(pad, text);
    LStripUnpadded(text);
  }

  lemma LStripUnpadded(s: string)
    requires s == [] || !IsSpace(s[0])
    ensures LStrip(s) == s
  {
  }

  /** A single text value starts right at column 21, after the padded name. */
  lemma TextLine(name: string, text: string)
    requires name != [] && |name| < CardColumn
    ensures LayoutOf(name, [TextValue(text)]).text == name + Spaces(CardColumn - |name|) + text
  {
    var field := NameField(name);
    var l0 := Layout(field, 0, None);
    assert LayoutOf(name, [TextValue(text)]) == Place(l0, TextValue(text)) by {
      assert [TextValue(text)][..0] == [];
    }
    assert Separator(l0, TextValue(text)) == [];
    AppendEmpty(field);
  }

  /** A quoted text card, as the writer emits for crossing, barrel and notes text, reads back
      through `_clean_string` as the text with its surrounding whitespace removed. */
  lemma QuotedCardRead(name: string, s: string, values: seq<CardValue>)
    requires name != [] && NoSpace(name) && |name| < CardColumn && !StartsWith(name, HeaderKey)
    requires values == [TextValue(Quoted(s))]
    ensures var card := LineCard(LayoutOf(name, values).text);
      card.Some? && card.value.key == name && CleanString(card.value.value) == Strip(s)
  {
    TextCardRead(name, Quoted(s), values);
    CleanQuoted(s);
  }

  /** The STARTCULVERT card gives the barrel block its name back, stripped. */
  lemma CulvertNameRoundTrip(name: string)
    ensures var card := LineCard(LayoutOf("STARTCULVERT", [TextValue(Quoted(name))]).text);
      card.Some? && card.value.key == "STARTCULVERT" && CleanString(card.value.value) == Strip(name)
  {
    assert !StartsWith("STARTCULVERT", HeaderKey);
    QuotedCardRead("STARTCULVERT", name, [TextValue(Quoted(name))]);
  }

  /** A project title without surrounding whitespace or enclosing quotes survives a write and a
      read unchanged. */
  lemma TitleRoundTrip(p: Projects.ProjectValue, title: string)
    requires title != [] && !IsSpace(title[0]) && !IsSpace(title[|title| - 1])
    requires !(|title| >= 2 && title[0] == '"' && title[|title| - 1] == '"')
    ensures var card := LineCard(LayoutOf("PROJTITLE", [TextValue(title)]).text);
      card.Some? && Reader.ProjectCard(p, card.value.key, card.value.value).title == title
  {
    assert !StartsWith("PROJTITLE", HeaderKey);
    TextCardRead("PROJTITLE", title, [TextValue(title)]);
    StripUnpadded(title);
  }

  // ---------------------------------------------------------------------------------------
  // The header line
  // ---------------------------------------------------------------------------------------

  /** The header line the writer emits is read as the header card. */
  lemma HeaderLineRead(version: real, repr: real -> string)
    ensures var line := HeaderKey + VersionText(version, repr);
      LineCard(line).Some? && LineCard(line).value.key == HeaderKey
  {
    var line := HeaderKey + VersionText(version, repr);
    assert line[0] == 'H';
    assert LStrip(line) == line;
    var r := RStrip(line);
    assert line[|HeaderKey| - 1] == 'E';
    assert !IsSpace(line[|HeaderKey| - 1]);
    assert |r| >= |HeaderKey|;
    assert r[..|HeaderKey|] == line[..|HeaderKey|];
    assert StartsWith(Strip(line), HeaderKey);
  }
}
