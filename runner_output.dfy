/** What the reference writer (`tests/hy8runner`) produces: the lines it writes to the open HY-8
    file, modelled as the sequence of strings passed to `write`, in order, and the message text its
    validators build up. */
module RunnerOutput {

  /** One line of the file: `f"{card}{fields}\n"`. */
  function Line(card: string, fields: string): string {
    card + fields + "\n"
  }

  /** A line opens with its card and ends the line. */
  lemma LineShape(card: string, fields: string)
    ensures |Line(card, fields)| > |card|
    ensures Line(card, fields)[..|card|] == card
    ensures Line(card, fields)[|Line(card, fields)| - 1..] == "\n"
  {
    assert Line(card, fields) == card + (fields + "\n");
  }

  /** The lines a `for` loop writes, one per item. */
  function EachLine<T>(items: seq<T>, line: T -> string): (r: seq<string>)
    ensures |r| == |items|
    ensures forall i :: 0 <= i < |items| ==> r[i] == line(items[i])
    decreases |items|
  {
    if items == [] then [] else EachLine(items[..|items| - 1], line) + [line(items[|items| - 1])]
  }

  /** `for item in items: hy8_file.write(line(item))` */
  method WriteEach<T>(items: seq<T>, line: T -> string, file: seq<string>) returns (out: seq<string>)
    ensures out == file + EachLine(items, line)
  {
    out := file;
    var i := 0;
    while i < |items|
      invariant 0 <= i <= |items|
      invariant out == file + EachLine(items[..i], line)
    {
      assert items[..i + 1][..i] == items[..i];
      out := out + [line(items[i])];
      i := i + 1;
    }
    assert items[..|items|] == items;
  }

  /** What a `for` loop produces when each item adds a block: the lines it writes when each item
      takes several lines, or the text it appends to a message. */
  function EachBlock<T, U>(items: seq<T>, block: T -> seq<U>): seq<U>
    decreases |items|
  {
    if items == [] then [] else EachBlock(items[..|items| - 1], block) + block(items[|items| - 1])
  }

  /** One more item appends its block. */
  lemma EachBlockStep<T, U>(items: seq<T>, i: nat, block: T -> seq<U>)
    requires i < |items|
    ensures EachBlock(items[..i + 1], block) == EachBlock(items[..i], block) + block(items[i])
  {
    assert items[..i + 1][..i] == items[..i];
  }

  /** When every block is `k` lines long, `n` items take `k·n` lines. */
  lemma {:induction false} EachBlockLength<T, U>(items: seq<T>, block: T -> seq<U>, k: nat)
    requires forall x :: |block(x)| == k
    ensures |EachBlock(items, block)| == k * |items|
    decreases |items|
  {
    if items != [] {
      var n := |items| - 1;
      EachBlockLength(items[..n], block, k);
      assert k * |items| == k * n + k;
    }
  }

  /** Item `i`'s block sits between the blocks of the items before it and those after it. */
  lemma {:induction false} EachBlockSplit<T, U>(items: seq<T>, block: T -> seq<U>, i: nat)
    requires i < |items|
    ensures EachBlock(items, block) == EachBlock(items[..i], block) + block(items[i]) + EachBlock(items[i + 1..], block)
    decreases |items|
  {
    var n := |items| - 1;
    if i == n {
      assert items[i + 1..] == [];
    } else {
      EachBlockSplit(items[..n], block, i);
      assert items[..n][..i] == items[..i] && items[..n][i] == items[i];
      var after := items[i + 1..];
      assert after[..|after| - 1] == items[..n][i + 1..] && after[|after| - 1] == items[n];
      var x, y, z := EachBlock(items[..i], block), block(items[i]), EachBlock(items[..n][i + 1..], block);
      assert EachBlock(items, block) == x + y + z + block(items[n]);
      assert EachBlock(after, block) == z + block(items[n]);
    }
  }

  /** The blocks add up to nothing exactly when every block is empty. */
  lemma {:induction false} EachBlockEmpty<T, U>(items: seq<T>, block: T -> seq<U>)
    ensures EachBlock(items, block) == [] <==> forall i :: 0 <= i < |items| ==> block(items[i]) == []
    decreases |items|
  {
    if items != [] {
      var n := |items| - 1;
      EachBlockEmpty(items[..n], block);
      assert forall i :: 0 <= i < n ==> items[..n][i] == items[i];
    }
  }

  /** What a `for index, item in enumerate(items)` loop produces in its first `n` passes. */
  function EachIndexed<T, U>(items: seq<T>, block: (T, nat) -> seq<U>, n: nat): seq<U>
    requires n <= |items|
  {
    if n == 0 then [] else EachIndexed(items, block, n - 1) + block(items[n - 1], n - 1)
  }

  /** One more pass adds its block at the end. */
  lemma EachIndexedStep<T, U>(items: seq<T>, block: (T, nat) -> seq<U>, n: nat)
    requires n < |items|
    ensures EachIndexed(items, block, n + 1) == EachIndexed(items, block, n) + block(items[n], n)
  {
  }

  /** The passes add up to nothing exactly when each adds nothing. */
  lemma {:induction false} EachIndexedEmpty<T, U>(items: seq<T>, block: (T, nat) -> seq<U>, n: nat)
    requires n <= |items|
    ensures EachIndexed(items, block, n) == [] <==> forall i :: 0 <= i < n ==> block(items[i], i) == []
  {
    if n > 0 {
      EachIndexedEmpty(items, block, n - 1);
    }
  }

  /** Text added to text is empty exactly when both are. */
  lemma AppendEmptyIff<T>(a: seq<T>, b: seq<T>)
    ensures a + b == [] <==> a == [] && b == []
  {
    if a + b == [] {
      assert |a + b| == |a| + |b|;
    }
  }

  /** The text of problems reported one after another, each behind the same lead-in
      (`messages += f"{lead}{problem}"`). */
  function Reported(lead: string, problems: seq<string>): string
    decreases |problems|
  {
    if problems == [] then ""
    else Reported(lead, problems[..|problems| - 1]) + (lead + problems[|problems| - 1])
  }

  /** Reporting one more problem appends it, behind the lead-in. */
  lemma ReportedAppend(lead: string, problems: seq<string>, problem: string)
    ensures Reported(lead, problems + [problem]) == Reported(lead, problems) + (lead + problem)
  {
    assert (problems + [problem])[..|problems|] == problems;
  }

  /** Reporting two lists of problems one after the other reports their concatenation. */
  lemma {:induction false} ReportedConcat(lead: string, first: seq<string>, second: seq<string>)
    ensures Reported(lead, first + second) == Reported(lead, first) + Reported(lead, second)
    decreases |second|
  {
    if second == [] {
      assert first + second == first;
    } else {
      var n := |second| - 1;
      ReportedConcat(lead, first, second[..n]);
      assert (first + second)[..|first| + n] == first + second[..n];
      assert (first + second)[|first| + n] == second[n];
    }
  }

  /** Problems that are never empty text leave some text exactly when there is at least one. */
  lemma {:induction false} ReportedEmpty(lead: string, problems: seq<string>)
    requires forall i :: 0 <= i < |problems| ==> problems[i] != []
    ensures Reported(lead, problems) == [] <==> problems == []
    decreases |problems|
  {
    if problems != [] {
      var last := problems[|problems| - 1];
      assert |lead + last| > 0;
      assert |Reported(lead, problems)| >= |lead + last|;
    }
  }
}
