/** Python string operations the source relies on, over `seq<char>`.
    Whitespace is Python's `str.isspace` set; case mapping covers ASCII letters only. */
module Text {

  /** Python's `str.isspace`: the ASCII controls 9-13 and 28-31, the space, and the
      Unicode space separators Python treats as whitespace. */
  predicate IsSpace(c: char) {
    var n := c as int;
    n == 32 || (9 <= n <= 13) || (28 <= n <= 31) || n == 0x85 || n == 0xA0 || n == 0x1680
    || (0x2000 <= n <= 0x200A) || n == 0x2028 || n == 0x2029 || n == 0x202F || n == 0x205F
    || n == 0x3000
  }

  predicate NoSpace(s: string) {
    forall i :: 0 <= i < |s| ==> !IsSpace(s[i])
  }

  predicate IsAsciiAlnum(c: char) {
    ('a' <= c <= 'z') || ('A' <= c <= 'Z') || ('0' <= c <= '9')
  }

  /** `str.lstrip()` */
  function LStrip(s: string): (r: string)
    ensures |r| <= |s|
    ensures r == [] || !IsSpace(r[0])
    ensures forall i :: 0 <= i < |s| - |r| ==> IsSpace(s[i])
    decreases |s|
  {
    if s != [] && IsSpace(s[0]) then LStrip(s[1..]) else s
  }

  /** What `lstrip` leaves is a suffix of its argument. */
  lemma {:induction false} LStripSuffix(s: string)
    ensures LStrip(s) == s[|s| - |LStrip(s)|..]
    decreases |s|
  {
    if s != [] && IsSpace(s[0]) {
      LStripSuffix(s[1..]);
    }
  }

  /** `str.rstrip()` */
  function RStrip(s: string): (r: string)
    ensures |r| <= |s| && r == s[..|r|]
    ensures r == [] || !IsSpace(r[|r| - 1])
    ensures forall i :: |r| <= i < |s| ==> IsSpace(s[i])
    decreases |s|
  {
    if s != [] && IsSpace(s[|s| - 1]) then RStrip(s[..|s| - 1]) else s
  }

  /** `str.strip()` */
  function Strip(s: string): string {
    RStrip(LStrip(s))
  }

  /** `str.rstrip(c)` for one character `c`. */
  function RStripChar(s: string, c: char): (r: string)
    ensures |r| <= |s| && r == s[..|r|]
    ensures r == [] || r[|r| - 1] != c
    decreases |s|
  {
    if s != [] && s[|s| - 1] == c then RStripChar(s[..|s| - 1], c) else s
  }

  /** `str.lstrip(c)` for one character `c`. */
  function LStripChar(s: string, c: char): (r: string)
    ensures |r| <= |s| && r == s[|s| - |r|..]
    ensures r == [] || r[0] != c
    decreases |s|
  {
    if s != [] && s[0] == c then LStripChar(s[1..], c) else s
  }

  /** `str.strip(c)` for one character `c`. */
  function StripChar(s: string, c: char): string {
    RStripChar(LStripChar(s, c), c)
  }

  /** Length of the leading run of non-whitespace characters. */
  function TokenLength(s: string): (k: nat)
    ensures k <= |s|
    ensures NoSpace(s[..k])
    ensures k == |s| || IsSpace(s[k])
    ensures s != [] && !IsSpace(s[0]) ==> k >= 1
    decreases |s|
  {
    if s == [] || IsSpace(s[0]) then 0 else 1 + TokenLength(s[1..])
  }

  /** `str.split()` with no separator: the maximal runs of non-whitespace. */
  function Words(s: string): seq<string>
    decreases |s|
  {
    var t := LStrip(s);
    if t == [] then [] else [t[..TokenLength(t)]] + Words(t[TokenLength(t)..])
  }

  /** Every word `split()` yields is non-empty and free of whitespace. */
  lemma {:induction false} WordsAreTokens(s: string)
    ensures forall i :: 0 <= i < |Words(s)| ==> Words(s)[i] != [] && NoSpace(Words(s)[i])
    decreases |s|
  {
    var t := LStrip(s);
    if t != [] {
      var k := TokenLength(t);
      var rest := Words(t[k..]);
      WordsAreTokens(t[k..]);
      var r := Words(s);
      assert r == [t[..k]] + rest;
      forall i | 0 <= i < |r| ensures r[i] != [] && NoSpace(r[i]) {
        if i > 0 {
          assert r[i] == rest[i - 1];
        }
      }
    }
  }

  predicate AllSpaces(s: string) {
    forall i :: 0 <= i < |s| ==> IsSpace(s[i])
  }

  /** Leading whitespace is stripped from the front part alone once that part has a word. */
  lemma {:induction false} LStripAppend(a: string, b: string)
    requires LStrip(a) != []
    ensures LStrip(a + b) == LStrip(a) + b
    decreases |a|
  {
    assert (a + b)[0] == a[0];
    if IsSpace(a[0]) {
      assert (a + b)[1..] == a[1..] + b;
      assert LStrip(a + b) == LStrip(a[1..] + b);
      LStripAppend(a[1..], b);
    } else {
      assert LStrip(a) == a;
    }
  }

  /** A front part made of whitespace only is stripped away whole. */
  lemma {:induction false} LStripAppendBlank(a: string, b: string)
    requires LStrip(a) == []
    ensures LStrip(a + b) == LStrip(b)
    decreases |a|
  {
    if a == [] {
      assert a + b == b;
    } else {
      assert (a + b)[1..] == a[1..] + b;
      LStripAppendBlank(a[1..], b);
    }
  }

  /** Whitespace alone strips to nothing. */
  lemma {:induction false} LStripBlank(s: string)
    requires AllSpaces(s)
    ensures LStrip(s) == []
    decreases |s|
  {
    if s != [] {
      LStripBlank(s[1..]);
    }
  }

  /** A word that ends inside the front part, or right where a whitespace-led back part
      begins, keeps its length when the back part is appended. */
  lemma {:induction false} TokenLengthAppend(u: string, b: string)
    requires TokenLength(u) < |u| || b == [] || IsSpace(b[0])
    ensures TokenLength(u + b) == TokenLength(u)
    decreases |u|
  {
    if u == [] {
      assert u + b == b;
    } else if !IsSpace(u[0]) {
      assert (u + b)[1..] == u[1..] + b;
      TokenLengthAppend(u[1..], b);
    }
  }

  /** The words of a string do not change when whitespace is appended. */
  lemma {:induction false} WordsTrailingSpaces(a: string, sp: string)
    requires AllSpaces(sp)
    ensures Words(a + sp) == Words(a)
    decreases |a|
  {
    var u := LStrip(a);
    if u == [] {
      WordsBlankFront(a, sp);
      LStripBlank(sp);
    } else {
      var k := TokenLength(u);
      WordsAfterFirst(a, sp);
      WordsTrailingSpaces(u[k..], sp);
    }
  }

  /** Once the front part has a word, that word comes first and the rest is split on. */
  lemma WordsAfterFirst(a: string, b: string)
    requires LStrip(a) != []
    requires TokenLength(LStrip(a)) < |LStrip(a)| || b == [] || IsSpace(b[0])
    ensures var u := LStrip(a); var k := TokenLength(u);
      Words(a + b) == [u[..k]] + Words(u[k..] + b)
  {
    var u := LStrip(a);
    var k := TokenLength(u);
    var v := LStrip(a + b);
    assert v == u + b by { LStripAppend(a, b); }
    assert TokenLength(v) == k by { TokenLengthAppend(u, b); }
    SliceAppend(u, b, k);
  }

  lemma SliceAppend(u: string, b: string, k: nat)
    requires k <= |u|
    ensures (u + b)[..k] == u[..k] && (u + b)[k..] == u[k..] + b
  {
  }

  /** A single word is its own only word. */
  lemma WordsOfWord(t: string)
    requires t != [] && NoSpace(t)
    ensures Words(t) == [t]
  {
    assert LStrip(t) == t;
    TokenLengthAppend(t, []);
    assert t + [] == t;
    assert TokenLength(t) == |t|;
    assert t[|t|..] == [];
  }

  /** Appending whitespace and then a word adds exactly that word to the string's words. */
  lemma {:induction false} WordsAppendWord(a: string, sp: string, t: string)
    requires AllSpaces(sp) && sp != []
    requires t != [] && NoSpace(t)
    ensures Words(a + sp + t) == Words(a) + [t]
    decreases |a|
  {
    var u := LStrip(a);
    var w := sp + t;
    SeqAppendAssoc(a, sp, t);
    if u == [] {
      WordsBlankFront(a, w);
      LStripBlank(sp);
      WordsBlankFront(sp, t);
      WordsOfWord(t);
      assert Words(a) == [];
      assert Words(a + w) == [t];
    } else {
      var k := TokenLength(u);
      WordsAfterFirst(a, w);
      SeqAppendAssoc(u[k..], sp, t);
      WordsAppendWord(u[k..], sp, t);
      assert Words(a) == [u[..k]] + Words(u[k..]);
      assert Words(a + w) == [u[..k]] + (Words(u[k..]) + [t]);
      SeqAppendAssoc([u[..k]], Words(u[k..]), [t]);
    }
  }

  /** Two words with whitespace between them split into exactly those two. */
  lemma WordsOfTwo(a: string, sp: string, t: string)
    requires a != [] && NoSpace(a) && AllSpaces(sp) && sp != [] && t != [] && NoSpace(t)
    ensures Words(a + sp + t) == [a, t]
  {
    WordsOfWord(a);
    WordsAppendWord(a, sp, t);
    PairDisplay(a, t);
  }

  lemma PairDisplay<T>(x: T, y: T)
    ensures [x] + [y] == [x, y]
  {
  }

  lemma SeqAppendAssoc<T>(x: seq<T>, y: seq<T>, z: seq<T>)
    ensures x + y + z == x + (y + z)
  {
  }

  /** Extending a prefix by one element. */
  lemma PrefixStep<T>(s: seq<T>, i: nat)
    requires i < |s|
    ensures s[..i + 1][..i] == s[..i] && s[..i + 1] == s[..i] + [s[i]]
  {
  }

  lemma AppendEmpty<T>(s: seq<T>)
    ensures s + [] == s
  {
  }

  lemma EmptyAppend<T>(s: seq<T>)
    ensures [] + s == s
  {
  }

  lemma WholePrefix<T>(s: seq<T>)
    ensures s[..|s|] == s
  {
  }

  /** Elements appended one at a time make up the display of all of them. */
  lemma AppendHeadTail<T>(s: seq<T>, t: seq<T>)
    requires t != []
    ensures s + [t[0]] + t[1..] == s + t
  {
  }

  lemma AppendTwo<T>(s: seq<T>, x1: T, x2: T)
    ensures s + [x1] + [x2] == s + [x1, x2]
  {
  }

  /** Leading whitespace contributes no words. */
  lemma WordsBlankFront(a: string, b: string)
    requires LStrip(a) == []
    ensures Words(a + b) == Words(b)
  {
    LStripAppendBlank(a, b);
  }




  /** `str.split(None, 1)`: the first word and the rest with its leading whitespace removed. */
  function SplitFirstWord(s: string): (r: seq<string>)
    ensures |r| <= 2
    ensures |r| >= 1 ==> r[0] != [] && NoSpace(r[0])
  {
    var t := LStrip(s);
    if t == [] then []
    else
      var k := TokenLength(t);
      var rest := LStrip(t[k..]);
      if rest == [] then [t[..k]] else [t[..k], rest]
  }

  /** `str.split(sep)` for a one-character separator: never empty. */
  function SplitOn(s: string, sep: char): (r: seq<string>)
    ensures |r| >= 1
    decreases |s|
  {
    if sep !in s then [s]
    else
      var i := IndexOf(s, sep);
      [s[..i]] + SplitOn(s[i + 1..], sep)
  }

  function IndexOf(s: string, c: char): (i: nat)
    requires c in s
    ensures i < |s| && s[i] == c && c !in s[..i]
  {
    if s[0] == c then 0 else 1 + IndexOf(s[1..], c)
  }

  /** `sep.join(parts)` */
  function Join(sep: string, parts: seq<string>): string {
    if parts == [] then ""
    else if |parts| == 1 then parts[0]
    else parts[0] + sep + Join(sep, parts[1..])
  }

  /** Joining with no separator and then adding one more part is joining the longer list. */
  lemma {:induction false} JoinEmptyAppend(parts: seq<string>, x: string)
    ensures Join("", parts + [x]) == Join("", parts) + x
    decreases |parts|
  {
    if |parts| == 1 {
      assert parts + [x] == [parts[0], x];
    } else if |parts| > 1 {
      assert (parts + [x])[1..] == parts[1..] + [x];
      JoinEmptyAppend(parts[1..], x);
    }
  }

  function UpperChar(c: char): char {
    if 'a' <= c <= 'z' then (c as int - 32) as char else c
  }

  function LowerChar(c: char): char {
    if 'A' <= c <= 'Z' then (c as int + 32) as char else c
  }

  /** `str.upper()` on ASCII letters. */
  function Upper(s: string): (r: string)
    ensures |r| == |s| && forall i :: 0 <= i < |s| ==> r[i] == UpperChar(s[i])
  {
    seq(|s|, i requires 0 <= i < |s| => UpperChar(s[i]))
  }

  /** `str.lower()` on ASCII letters. */
  function Lower(s: string): (r: string)
    ensures |r| == |s| && forall i :: 0 <= i < |s| ==> r[i] == LowerChar(s[i])
  {
    seq(|s|, i requires 0 <= i < |s| => LowerChar(s[i]))
  }

  /** `str.replace(a, b)` for single characters. */
  function ReplaceChar(s: string, a: char, b: char): (r: string)
    ensures |r| == |s| && forall i :: 0 <= i < |s| ==> r[i] == (if s[i] == a then b else s[i])
  {
    seq(|s|, i requires 0 <= i < |s| => if s[i] == a then b else s[i])
  }

  predicate StartsWith(s: string, prefix: string) {
    |prefix| <= |s| && s[..|prefix|] == prefix
  }

  /** A string that starts with `p + q` starts with `p`. */
  lemma StartsWithLonger(s: string, p: string, q: string)
    requires StartsWith(s, p + q)
    ensures StartsWith(s, p)
  {
    assert s[..|p|] == (p + q)[..|p|];
  }

  predicate EndsWith(s: string, suffix: string) {
    |suffix| <= |s| && s[|s| - |suffix|..] == suffix
  }

  /** Python's `sub in s` for strings. */
  predicate Contains(s: string, sub: string)
    decreases |s|
  {
    StartsWith(s, sub) || (s != [] && Contains(s[1..], sub))
  }

  function Spaces(n: nat): (r: string)
    ensures |r| == n && forall i :: 0 <= i < n ==> r[i] == ' '
  {
    seq(n, _ => ' ')
  }

  function DigitChar(d: nat): char
    requires d < 10
  {
    ('0' as int + d) as char
  }

  /** `str(n)` for a natural number. */
  function NatToString(n: nat): (r: string)
    ensures r != [] && forall i :: 0 <= i < |r| ==> '0' <= r[i] <= '9'
    decreases n
  {
    if n < 10 then [DigitChar(n)] else NatToString(n / 10) + [DigitChar(n % 10)]
  }

  /** `str(i)` for a Python int. */
  function IntToString(i: int): (r: string)
    ensures r != [] && NoSpace(r)
  {
    if i < 0 then "-" + NatToString(-i) else NatToString(i)
  }

  /** `f"{n:0{width}d}"` for a natural number. */
  function ZeroPad(n: nat, width: nat): (r: string)
    ensures |r| >= width && forall i :: 0 <= i < |r| ==> '0' <= r[i] <= '9'
  {
    var digits := NatToString(n);
    if |digits| >= width then digits else seq(width - |digits|, _ => '0') + digits
  }
}
