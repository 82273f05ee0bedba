/** Helpers the batch scripts share: cutting a list into batches, the `re.sub` that makes names
    safe, splitting text into lines, and zero-padded indices. */
module ScriptShared {
  import opened Wrappers
  import opened Text
  import opened Numbers

  // ---------------------------------------------------------------------------------------
  // Batches
  // ---------------------------------------------------------------------------------------

  /** The lists of a list, one after another. */
  function Flatten<T>(xss: seq<seq<T>>): seq<T>
    decreases |xss|
  {
    if xss == [] then [] else xss[0] + Flatten(xss[1..])
  }

  /** `[items[i : i + size] for i in range(0, len(items), size)]` for a positive size. */
  function ChunksOf<T>(items: seq<T>, size: nat): seq<seq<T>>
    requires size > 0
    decreases |items|
  {
    if items == [] then []
    else if |items| <= size then [items]
    else [items[..size]] + ChunksOf(items[size..], size)
  }

  /** The same comprehension for any size: `range` refuses a zero step (`None` here) and a
      negative step yields no chunk at all. */
  function Chunks<T>(items: seq<T>, size: int): (r: Option<seq<seq<T>>>)
    ensures r.None? <==> size == 0
    ensures size < 0 ==> r == Some([])
  {
    if size == 0 then None else if size < 0 then Some([]) else Some(ChunksOf(items, size))
  }

  /** The chunks put back together are the list. */
  lemma {:induction false} ChunksJoin<T>(items: seq<T>, size: nat)
    requires size > 0
    ensures Flatten(ChunksOf(items, size)) == items
    decreases |items|
  {
    if |items| > size {
      ChunksJoin(items[size..], size);
      assert items == items[..size] + items[size..];
    }
  }

  /** Every chunk but the last holds exactly `size` items, and the last holds one to `size`. */
  lemma {:induction false} ChunksSizes<T>(items: seq<T>, size: nat)
    requires size > 0
    ensures var r := ChunksOf(items, size);
      (forall i :: 0 <= i < |r| - 1 ==> |r[i]| == size)
      && (r != [] ==> 0 < |r[|r| - 1]| <= size)
    decreases |items|
  {
    var r := ChunksOf(items, size);
    if |items| > size {
      var rest := ChunksOf(items[size..], size);
      ChunksSizes(items[size..], size);
      assert r == [items[..size]] + rest;
      forall i | 0 <= i < |r| - 1
        ensures |r[i]| == size
      {
        if i > 0 {
          assert r[i] == rest[i - 1];
        }
      }
    }
  }

  // ---------------------------------------------------------------------------------------
  // re.sub(r"[^A-Za-z0-9]+", "_", text)
  // ---------------------------------------------------------------------------------------

  /** The length of the run of characters other than ASCII letters and digits at the front. */
  function RunLength(s: string): (k: nat)
    ensures k <= |s|
    ensures forall i :: 0 <= i < k ==> !IsAsciiAlnum(s[i])
    ensures k == |s| || IsAsciiAlnum(s[k])
    decreases |s|
  {
    if s == [] || IsAsciiAlnum(s[0]) then 0 else 1 + RunLength(s[1..])
  }

  /** `re.sub(r"[^A-Za-z0-9]+", "_", s)`: each maximal run of other characters becomes one
      underscore. */
  function ReplaceRuns(s: string): string
    decreases |s|
  {
    if s == [] then []
    else if IsAsciiAlnum(s[0]) then [s[0]] + ReplaceRuns(s[1..])
    else "_" + ReplaceRuns(s[RunLength(s)..])
  }

  /** The letters and digits of a text, in order. */
  function Alnums(s: string): string
    decreases |s|
  {
    if s == [] then [] else (if IsAsciiAlnum(s[0]) then [s[0]] else []) + Alnums(s[1..])
  }

  /** A text made only of letters, digits and single underscores between them or at an end. */
  predicate SafeName(r: string) {
    && (forall i :: 0 <= i < |r| ==> IsAsciiAlnum(r[i]) || r[i] == '_')
    && (forall i :: 0 <= i < |r| - 1 ==> r[i] == '_' ==> r[i + 1] != '_')
  }

  lemma AlnumsOfRun(s: string)
    ensures Alnums(s) == Alnums(s[RunLength(s)..])
    decreases |s|
  {
    if s != [] && !IsAsciiAlnum(s[0]) {
      AlnumsOfRun(s[1..]);
      assert s[1..][RunLength(s[1..])..] == s[RunLength(s)..];
    }
  }

  /** The substitution keeps every letter and digit, in order, and leaves a safe name: nothing
      but letters, digits and underscores, and never two underscores in a row. It starts with
      an underscore exactly when the text does not start with a letter or digit. */
  lemma {:induction false} ReplaceRunsSafe(s: string)
    ensures SafeName(ReplaceRuns(s))
    ensures Alnums(ReplaceRuns(s)) == Alnums(s)
    ensures |ReplaceRuns(s)| <= |s|
    ensures s != [] ==> ReplaceRuns(s) != [] && (ReplaceRuns(s)[0] == '_' <==> !IsAsciiAlnum(s[0]))
    decreases |s|
  {
    if s != [] {
      var r := ReplaceRuns(s);
      if IsAsciiAlnum(s[0]) {
        ReplaceRunsSafe(s[1..]);
        assert r == [s[0]] + ReplaceRuns(s[1..]);
        assert forall i :: 1 <= i < |r| ==> r[i] == ReplaceRuns(s[1..])[i - 1];
      } else {
        var k := RunLength(s);
        var rest := s[k..];
        ReplaceRunsSafe(rest);
        AlnumsOfRun(s);
        assert r == "_" + ReplaceRuns(rest);
        assert forall i :: 1 <= i < |r| ==> r[i] == ReplaceRuns(rest)[i - 1];
        assert Alnums(r) == Alnums(ReplaceRuns(rest));
      }
    }
  }

  /** A safe name goes through unchanged. */
  lemma {:induction false} ReplaceRunsKeepsSafe(s: string)
    requires SafeName(s)
    ensures ReplaceRuns(s) == s
    decreases |s|
  {
    if s != [] {
      assert SafeName(s[1..]) by {
        assert forall i :: 0 <= i < |s| - 1 ==> s[1..][i] == s[i + 1];
      }
      if IsAsciiAlnum(s[0]) {
        ReplaceRunsKeepsSafe(s[1..]);
      } else {
        assert s[0] == '_';
        assert |s| == 1 || IsAsciiAlnum(s[1]);
        assert RunLength(s) == 1;
        ReplaceRunsKeepsSafe(s[1..]);
      }
    }
  }

  /** The substitution is idempotent. */
  lemma ReplaceRunsIdempotent(s: string)
    ensures ReplaceRuns(ReplaceRuns(s)) == ReplaceRuns(s)
  {
    ReplaceRunsSafe(s);
    ReplaceRunsKeepsSafe(ReplaceRuns(s));
  }

  // ---------------------------------------------------------------------------------------
  // str.splitlines()
  // ---------------------------------------------------------------------------------------

  /** The characters `str.splitlines` breaks at (`\r\n` counts as one break). */
  predicate IsLineBreak(c: char) {
    var n := c as int;
    (10 <= n <= 13) || (28 <= n <= 30) || n == 0x85 || n == 0x2028 || n == 0x2029
  }

  predicate NoBreak(s: string) {
    forall i :: 0 <= i < |s| ==> !IsLineBreak(s[i])
  }

  function BreakAt(s: string): (k: nat)
    ensures k <= |s| && (k < |s| ==> IsLineBreak(s[k])) && NoBreak(s[..k])
    decreases |s|
  {
    if s == [] || IsLineBreak(s[0]) then 0
    else
      var k := 1 + BreakAt(s[1..]);
      assert forall i :: 1 <= i < k ==> s[..k][i] == s[1..][..k - 1][i - 1];
      k
  }

  /** `str.splitlines()`: the lines without their breaks, and no empty last line after a final
      break. */
  function SplitLines(s: string): (r: seq<string>)
    ensures forall i :: 0 <= i < |r| ==> NoBreak(r[i])
    ensures NoBreak(s) ==> r == (if s == [] then [] else [s])
    decreases |s|
  {
    if s == [] then []
    else
      var k := BreakAt(s);
      if k == |s| then assert s[..k] == s; [s]
      else
        var next := if s[k] == '\r' && k + 1 < |s| && s[k + 1] == '\n' then k + 2 else k + 1;
        [s[..k]] + SplitLines(s[next..])
  }

  /** The first break is where the first line ends. */
  lemma {:induction false} BreakAtIs(s: string, k: nat)
    requires k < |s| && IsLineBreak(s[k]) && NoBreak(s[..k])
    ensures BreakAt(s) == k
    decreases k
  {
    if k > 0 {
      assert s[1..][..k - 1] == s[..k][1..];
      BreakAtIs(s[1..], k - 1);
    }
  }

  /** A line ended by `\n` is split off on its own. */
  lemma SplitLinesCons(line: string, rest: string)
    requires NoBreak(line)
    ensures SplitLines(line + "\n" + rest) == [line] + SplitLines(rest)
  {
    var s := line + "\n" + rest;
    assert s[..|line|] == line && s[|line| + 1..] == rest;
    BreakAtIs(s, |line|);
  }

  // ---------------------------------------------------------------------------------------
  // f"{i:0{width}d}"
  // ---------------------------------------------------------------------------------------

  /** `f"{i:0{width}d}"`: at least `width` characters, zeros after the sign. */
  function Padded(i: int, width: nat): (r: string)
    ensures |r| >= width && r != []
    ensures i >= 0 ==> forall k :: 0 <= k < |r| ==> '0' <= r[k] <= '9'
  {
    if i >= 0 then ZeroPad(i, width)
    else "-" + ZeroPad(-i, if width > 0 then width - 1 else 0)
  }

  lemma {:induction false} NatToStringValue(n: nat)
    ensures AllDigits(NatToString(n)) && DigitsValue(NatToString(n)) == n
    decreases n
  {
    if n >= 10 {
      NatToStringValue(n / 10);
      var s := NatToString(n);
      assert s[..|s| - 1] == NatToString(n / 10);
    }
  }

  lemma {:induction false} LeadingZerosValue(zeros: string, digits: string)
    requires forall i :: 0 <= i < |zeros| ==> zeros[i] == '0'
    requires AllDigits(digits)
    ensures AllDigits(zeros + digits) && DigitsValue(zeros + digits) == DigitsValue(digits)
    decreases |digits| + |zeros|
  {
    if digits != [] {
      var n := |digits| - 1;
      LeadingZerosValue(zeros, digits[..n]);
      assert (zeros + digits)[..|zeros + digits| - 1] == zeros + digits[..n];
    } else if zeros != [] {
      LeadingZerosValue(zeros[..|zeros| - 1], []);
      assert zeros + digits == zeros;
      assert (zeros + digits)[..|zeros| - 1] == zeros[..|zeros| - 1] + [];
    }
  }

  /** The digits of a padded natural number denote that number, so two numbers padded alike
      are equal exactly when their texts are. */
  lemma PaddedValue(i: nat, width: nat)
    ensures AllDigits(Padded(i, width)) && DigitsValue(Padded(i, width)) == i
  {
    var digits := NatToString(i);
    NatToStringValue(i);
    if |digits| < width {
      LeadingZerosValue(seq(width - |digits|, _ => '0'), digits);
    }
  }
}
