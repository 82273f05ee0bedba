/** `_Hy8CardStream`: the reader's view of a project file, a cursor over its raw lines and a
    push-back buffer of cards that have been read but not used. */
module CardStreams {
  import opened Wrappers
  import opened Text

  /** `_Hy8Card`: a card's key and the rest of its line. */
  datatype Hy8Card = Hy8Card(key: string, value: string)

  const HeaderKey: string := "HY8PROJECTFILE"

  /** The first character of a stripped, non-empty line is not whitespace. */
  lemma StripHead(s: string)
    requires Strip(s) != []
    ensures !IsSpace(Strip(s)[0])
  {
    var l := LStrip(s);
    assert Strip(s) == l[..|Strip(s)|];
  }

  /** `_split_card`: a line opening with the header keyword is keyed by it, with the rest of the
      line stripped as its value; any other line is keyed by its first word and carries the
      rest of the line, leading whitespace removed. */
  function SplitCard(line: string): (c: Hy8Card)
    requires line != [] && !IsSpace(line[0])
    ensures StartsWith(line, HeaderKey) ==> c == Hy8Card(HeaderKey, Strip(line[|HeaderKey|..]))
    ensures !StartsWith(line, HeaderKey) ==>
      && c.key != [] && NoSpace(c.key) && StartsWith(line, c.key)
      && (|c.key| < |line| ==> IsSpace(line[|c.key|]))
      && c.value == LStrip(line[|c.key|..])
  {
    if StartsWith(line, HeaderKey) then Hy8Card(HeaderKey, Strip(line[|HeaderKey|..]))
    else
      var parts := SplitFirstWord(line);
      if |parts| == 1 then Hy8Card(parts[0], "") else Hy8Card(parts[0], parts[1])
  }

  // ---------------------------------------------------------------------------------------
  // The stream as a value
  // ---------------------------------------------------------------------------------------

  /** The stream's state: the raw lines, the index of the next unread line and the buffer of
      pushed-back cards (the last one is returned first). */
  datatype StreamState = StreamState(lines: seq<string>, index: nat, buffer: seq<Hy8Card>)

  function Initial(lines: seq<string>): StreamState {
    StreamState(lines, 0, [])
  }

  /** The number of lines not yet read. */
  function Remaining(st: StreamState): nat {
    if st.index < |st.lines| then |st.lines| - st.index else 0
  }

  /** What is left to read: the unread lines and the buffered cards. */
  function Measure(st: StreamState): nat {
    Remaining(st) + |st.buffer|
  }

  /** A card taken from the stream, `None` when it is exhausted (`StopIteration`), and the state
      after taking it. */
  datatype Taken = Taken(card: Option<Hy8Card>, rest: StreamState)

  /** `next_card`: the most recently pushed-back card when there is one; otherwise the next
      non-blank line, split into a card. */
  function TakeCard(st: StreamState): (t: Taken)
    ensures t.rest.lines == st.lines
    ensures Measure(t.rest) <= Measure(st)
    ensures t.card.Some? ==> Measure(t.rest) < Measure(st)
    decreases Remaining(st)
  {
    if st.buffer != [] then
      Taken(Some(st.buffer[|st.buffer| - 1]), st.(buffer := st.buffer[..|st.buffer| - 1]))
    else if st.index >= |st.lines| then Taken(None, st)
    else
      var stripped := Strip(st.lines[st.index]);
      var next := st.(index := st.index + 1);
      if stripped == [] then TakeCard(next)
      else
        StripHead(st.lines[st.index]);
        Taken(Some(SplitCard(stripped)), next)
  }

  /** `push_back`: the card goes on top of the buffer. */
  function PushBack(st: StreamState, card: Hy8Card): (r: StreamState)
    ensures Measure(r) == Measure(st) + 1
  {
    st.(buffer := st.buffer + [card])
  }

  /** Whether line `k` holds nothing but whitespace. */
  predicate BlankLine(lines: seq<string>, k: nat)
    requires k < |lines|
  {
    Strip(lines[k]) == []
  }

  /** Pushed-back cards come out last-in, first-out: a card pushed back is the next card taken,
      and taking it restores the state from before the push. */
  lemma {:induction false} PushBackThenTake(st: StreamState, a: Hy8Card, b: Hy8Card)
    ensures TakeCard(PushBack(st, a)) == Taken(Some(a), st)
    ensures var twice := PushBack(PushBack(st, a), b);
      && TakeCard(twice) == Taken(Some(b), PushBack(st, a))
      && TakeCard(TakeCard(twice).rest) == Taken(Some(a), st)
  {
    var once := PushBack(st, a);
    assert once.buffer[..|once.buffer| - 1] == st.buffer;
    var twice := PushBack(once, b);
    assert twice.buffer[..|twice.buffer| - 1] == once.buffer;
  }

  /** With an empty buffer, `next_card` skips blank lines: it returns the split of the first
      non-blank line at or after the cursor and leaves the cursor just past it; when every
      remaining line is blank it reports exhaustion with every line consumed. */
  lemma {:induction false} TakeSkipsBlankLines(st: StreamState, j: nat)
    requires st.buffer == [] && st.index <= j <= |st.lines|
    requires forall k :: st.index <= k < j ==> BlankLine(st.lines, k)
    requires j < |st.lines| ==> !BlankLine(st.lines, j)
    ensures j < |st.lines| ==> Strip(st.lines[j]) != [] && !IsSpace(Strip(st.lines[j])[0])
    ensures j < |st.lines| ==>
      TakeCard(st) == Taken(Some(SplitCard(Strip(st.lines[j]))), st.(index := j + 1))
    ensures j == |st.lines| ==> TakeCard(st) == Taken(None, st.(index := j))
    decreases j - st.index
  {
    if j < |st.lines| {
      StripHead(st.lines[j]);
    }
    if st.index < j {
      var next := st.(index := st.index + 1);
      assert Strip(st.lines[st.index]) == [] by {
        assert BlankLine(st.lines, st.index);
      }
      assert TakeCard(st) == TakeCard(next);
      TakeSkipsBlankLines(next, j);
      assert next.(index := j + 1) == st.(index := j + 1);
      assert next.(index := j) == st.(index := j);
    }
  }

  // ---------------------------------------------------------------------------------------
  // Raw-line blocks
  // ---------------------------------------------------------------------------------------

  /** Whether a raw line ends a block: stripped and upper-cased, it starts with the marker,
      itself stripped and upper-cased. */
  predicate ClosesBlock(raw: string, marker: string) {
    StartsWith(Upper(Strip(raw)), Upper(Strip(marker)))
  }

  /** The text after the marker on the closing line (`stripped[len(end_marker):].strip()`). */
  function Trailing(raw: string, marker: string): string {
    var stripped := Strip(raw);
    Strip(if |marker| <= |stripped| then stripped[|marker|..] else [])
  }

  /** A raw line as the block keeps it, without a trailing newline. */
  function Chomp(raw: string): string {
    RStripChar(raw, '\n')
  }

  /** The state after the closing line: the cursor past it and, when text follows the marker,
      that text pushed back as a card keyed by the marker. */
  function AfterClosing(next: StreamState, raw: string, marker: string): StreamState {
    var trailing := Trailing(raw, marker);
    if trailing != [] then PushBack(next, Hy8Card(marker, trailing)) else next
  }

  datatype Block = Block(contents: seq<string>, rest: StreamState)

  /** `read_block`'s closing-line test for a marker, as a value. */
  function Closer(marker: string): string -> bool {
    raw => ClosesBlock(raw, marker)
  }

  /** `read_block`'s loop, with the lines collected so far; `closes` tells a closing line. */
  function ReadBlockFrom(st: StreamState, marker: string, closes: string -> bool, contents: seq<string>): (b: Block)
    ensures b.rest.lines == st.lines
    ensures Measure(b.rest) <= Measure(st)
    decreases Remaining(st)
  {
    if st.index >= |st.lines| then Block(contents, st)
    else
      var raw := st.lines[st.index];
      var next := st.(index := st.index + 1);
      if closes(raw) then Block(contents, AfterClosing(next, raw, marker))
      else ReadBlockFrom(next, marker, closes, contents + [Chomp(raw)])
  }

  /** `read_block(end_marker)` */
  function ReadBlock(st: StreamState, marker: string): Block {
    ReadBlockFrom(st, marker, Closer(marker), [])
  }

  /** The lines `lo..hi` as a block returns them. */
  function ChompedLines(lines: seq<string>, lo: nat, hi: nat): (r: seq<string>)
    requires lo <= hi <= |lines|
    ensures |r| == hi - lo && forall k :: 0 <= k < |r| ==> r[k] == Chomp(lines[lo + k])
  {
    seq(hi - lo, k requires 0 <= k < hi - lo => Chomp(lines[lo + k]))
  }

  lemma ChompedLinesStep(lines: seq<string>, lo: nat, hi: nat)
    requires lo < hi <= |lines|
    ensures ChompedLines(lines, lo, hi) == [Chomp(lines[lo])] + ChompedLines(lines, lo + 1, hi)
  {
  }

  /** `read_block`'s loop collects the raw lines before the first closing line, consumes that
      line and pushes back any text after the marker as a card keyed by the marker; without a
      closing line it collects every remaining line. The buffer is otherwise untouched. */
  lemma {:induction false} ReadBlockFromSpec(st: StreamState, marker: string, closes: string -> bool,
                                             contents: seq<string>, j: nat)
    requires st.index <= j <= |st.lines|
    requires forall k :: st.index <= k < j ==> !closes(st.lines[k])
    requires j < |st.lines| ==> closes(st.lines[j])
    ensures var b := ReadBlockFrom(st, marker, closes, contents);
      && b.contents == contents + ChompedLines(st.lines, st.index, j)
      && (j < |st.lines| ==> b.rest == AfterClosing(st.(index := j + 1), st.lines[j], marker))
      && (j == |st.lines| ==> b.rest == st.(index := j))
    decreases j - st.index
  {
    if st.index == j {
      assert ChompedLines(st.lines, st.index, j) == [];
      assert contents + [] == contents;
    } else {
      var next := st.(index := st.index + 1);
      var more := contents + [Chomp(st.lines[st.index])];
      ReadBlockFromSpec(next, marker, closes, more, j);
      ChompedLinesStep(st.lines, st.index, j);
      SeqAppendAssoc(contents, [Chomp(st.lines[st.index])], ChompedLines(st.lines, next.index, j));
    }
  }

  /** `read_block` returns the raw lines before the first line that starts, stripped and
      upper-cased, with the marker; it consumes that line and pushes back any text after the
      marker as a card keyed by the marker; without a closing line it returns every remaining
      line. The buffer is otherwise untouched. */
  lemma ReadBlockSpec(st: StreamState, marker: string, j: nat)
    requires st.index <= j <= |st.lines|
    requires forall k :: st.index <= k < j ==> !ClosesBlock(st.lines[k], marker)
    requires j < |st.lines| ==> ClosesBlock(st.lines[j], marker)
    ensures var b := ReadBlock(st, marker);
      && b.contents == ChompedLines(st.lines, st.index, j)
      && (j < |st.lines| ==> b.rest == AfterClosing(st.(index := j + 1), st.lines[j], marker))
      && (j == |st.lines| ==> b.rest == st.(index := j))
  {
    ReadBlockFromSpec(st, marker, Closer(marker), [], j);
    assert [] + ChompedLines(st.lines, st.index, j) == ChompedLines(st.lines, st.index, j);
  }

  /** Whether a raw line is the target of `skip_until`: equal to it once both are stripped and
      upper-cased. */
  predicate IsTarget(raw: string, target: string) {
    Upper(Strip(raw)) == Upper(Strip(target))
  }

  /** `skip_until(target)` */
  function SkipUntil(st: StreamState, target: string): (r: StreamState)
    ensures r.lines == st.lines && r.buffer == st.buffer
    ensures Measure(r) <= Measure(st)
    decreases Remaining(st)
  {
    if st.index >= |st.lines| then st
    else if IsTarget(st.lines[st.index], target) then st.(index := st.index + 1)
    else SkipUntil(st.(index := st.index + 1), target)
  }

  /** `skip_until` consumes every line up to and including the first target line, or every
      remaining line when there is none; the buffer is untouched. */
  lemma {:induction false} SkipUntilSpec(st: StreamState, target: string, j: nat)
    requires st.index <= j <= |st.lines|
    requires forall k {:trigger IsTarget(st.lines[k], target)} :: st.index <= k < j ==> !IsTarget(st.lines[k], target)
    requires j < |st.lines| ==> IsTarget(st.lines[j], target)
    ensures j < |st.lines| ==> SkipUntil(st, target) == st.(index := j + 1)
    ensures j == |st.lines| ==> SkipUntil(st, target) == st.(index := j)
    decreases j - st.index
  {
    if st.index < j {
      SkipUntilSpec(st.(index := st.index + 1), target, j);
    }
  }

  // ---------------------------------------------------------------------------------------
  // The stream object
  // ---------------------------------------------------------------------------------------

  class CardStream {
    const lines: seq<string>
    var index: nat
    var buffer: seq<Hy8Card>

    function State(): StreamState
      reads this
    {
      StreamState(lines, index, buffer)
    }

    constructor (lines: seq<string>)
      ensures State() == Initial(lines)
    {
      this.lines := lines;
      index, buffer := 0, [];
    }

    /** `next_card`; `None` stands for the `StopIteration` it raises at the end. */
    method NextCard() returns (card: Option<Hy8Card>)
      modifies this
      ensures Taken(card, State()) == TakeCard(old(State()))
    {
      if buffer != [] {
        card := Some(buffer[|buffer| - 1]);
        buffer := buffer[..|buffer| - 1];
        return;
      }
      while index < |lines|
        invariant buffer == []
        invariant TakeCard(State()) == TakeCard(old(State()))
        decreases |lines| - index
      {
        var raw := lines[index];
        index := index + 1;
        var stripped := Strip(raw);
        if stripped != [] {
          StripHead(raw);
          card := Some(SplitCard(stripped));
          return;
        }
      }
      card := None;
    }

    /** `push_back` */
    method PushBackCard(card: Hy8Card)
      modifies this
      ensures State() == PushBack(old(State()), card)
    {
      buffer := buffer + [card];
    }

    /** `read_block(end_marker)` */
    method ReadBlockLines(marker: string) returns (contents: seq<string>)
      modifies this
      ensures Block(contents, State()) == ReadBlock(old(State()), marker)
    {
      contents := [];
      var target := Upper(Strip(marker));
      while index < |lines|
        invariant ReadBlockFrom(State(), marker, Closer(marker), contents) == ReadBlock(old(State()), marker)
        decreases |lines| - index
      {
        var raw := lines[index];
        index := index + 1;
        var stripped := Strip(raw);
        assert Closer(marker)(raw) == StartsWith(Upper(stripped), target);
        if StartsWith(Upper(stripped), target) {
          var trailing := Strip(if |marker| <= |stripped| then stripped[|marker|..] else []);
          if trailing != [] {
            buffer := buffer + [Hy8Card(marker, trailing)];
          }
          return;
        }
        contents := contents + [Chomp(raw)];
      }
    }

    /** `skip_until(target)` */
    method SkipUntilLine(target: string)
      modifies this
      ensures State() == SkipUntil(old(State()), target)
    {
      var goal := Upper(Strip(target));
      while index < |lines|
        invariant SkipUntil(State(), target) == SkipUntil(old(State()), target)
        decreases |lines| - index
      {
        var raw := lines[index];
        index := index + 1;
        if Upper(Strip(raw)) == goal {
          return;
        }
      }
    }
  }
}
