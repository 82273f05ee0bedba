/** Python's number <-> text conversions used by the codec and the scripts:
    `str(int)`, the fixed-point format `f"{x:.{d}f}"`, `round(x, 6)`, `float(text)` and
    `int(text)`. Floats are reals here: the binary representation error of a Python float is
    not part of the model, so rounding is exact round-half-even of the real value. */
module Numbers {
  import opened Wrappers
  import opened Text

  function Pow10(n: nat): (r: nat)
    ensures r >= 1
  {
    if n == 0 then 1 else 10 * Pow10(n - 1)
  }

  /** 10 raised to an integer power, as a real. */
  function Pow10Real(e: int): (r: real)
    ensures r > 0.0
  {
    if e >= 0 then Pow10(e) as real else 1.0 / (Pow10(-e) as real)
  }

  /** Round to the nearest integer, ties to the even neighbour (Python's rounding rule). */
  function RoundHalfEven(m: real): (r: int)
    ensures m - 0.5 <= r as real <= m + 0.5
  {
    var f := m.Floor;
    var frac := m - f as real;
    if frac < 0.5 then f
    else if frac > 0.5 then f + 1
    else if f % 2 == 0 then f else f + 1
  }

  /** The integer key Python's `round(x, 6)` compares: x scaled by 10^6 and rounded. */
  function Round6Key(x: real): int {
    RoundHalfEven(x * 1000000.0)
  }

  /** The real value `round(x, d)` stands for. */
  function RoundTo(x: real, d: nat): (r: real)
    ensures Abs(r - x) <= 0.5 / (Pow10(d) as real)
  {
    var p := Pow10(d) as real;
    var n := RoundMagnitude(x, d);
    RoundBound(Abs(x), p, n);
    if x < 0.0 then -(n as real / p) else n as real / p
  }

  lemma RoundBound(a: real, p: real, n: int)
    requires p >= 1.0 && a * p - 0.5 <= n as real <= a * p + 0.5
    ensures Abs(n as real / p - a) <= 0.5 / p
  {
    assert n as real / p - a == (n as real - a * p) / p;
  }

  /** The characters a fixed-point numeral is made of. */
  predicate IsNumeralChar(c: char) {
    ('0' <= c <= '9') || c == '.' || c == '-'
  }

  predicate NumeralText(s: string) {
    forall i :: 0 <= i < |s| ==> IsNumeralChar(s[i])
  }

  lemma NumeralNoSpace(s: string)
    requires NumeralText(s)
    ensures NoSpace(s)
  {
    forall i | 0 <= i < |s| ensures !IsSpace(s[i]) {
      assert IsNumeralChar(s[i]);
    }
  }

  /** `f"{x:.{d}f}"`: sign, integer digits, and `d` decimals after rounding half to even. */
  function Fixed(x: real, d: nat): (r: string)
    ensures r != [] && NoSpace(r)
  {
    var n := RoundMagnitude(x, d);
    var body := FixedDigits(n, d);
    var r := if x < 0.0 then "-" + body else body;
    assert NumeralText(r) by {
      if x < 0.0 {
        assert forall i :: 1 <= i < |r| ==> r[i] == body[i - 1];
      }
    }
    NumeralNoSpace(r);
    r
  }

  /** |x| * 10^d rounded half to even: the digits `Fixed` prints, without the point. */
  function RoundMagnitude(x: real, d: nat): (n: nat) {
    var m := Abs(x) * Pow10(d) as real;
    MulNonNeg(Abs(x), Pow10(d) as real);
    var r := RoundHalfEven(m);
    assert r as real >= -0.5;
    r
  }

  lemma MulNonNeg(a: real, b: real)
    requires a >= 0.0 && b >= 0.0
    ensures a * b >= 0.0
  {
  }

  /** The unsigned text of `n / 10^d` with `d` decimals: integer digits, a point, `d` digits. */
  function FixedDigits(n: nat, d: nat): (r: string)
    ensures r != [] && NumeralText(r)
  {
    var p := Pow10(d);
    DivNonNeg(n, p);
    var ip := NatToString(n / p);
    if d == 0 then ip
    else
      var fp := ZeroPad(n % p, d);
      NumeralConcat(ip, "." + fp);
      ip + ("." + fp)
  }

  lemma DivNonNeg(n: nat, p: nat)
    requires p >= 1
    ensures n / p >= 0
  {
  }

  lemma NumeralConcat(a: string, b: string)
    requires NumeralText(a) && NumeralText(b)
    ensures NumeralText(a + b)
  {
    assert forall i :: |a| <= i < |a + b| ==> (a + b)[i] == b[i - |a|];
  }

  predicate IsDigit(c: char) {
    '0' <= c <= '9'
  }

  predicate AllDigits(s: string) {
    forall i :: 0 <= i < |s| ==> IsDigit(s[i])
  }

  /** The natural number a digit string denotes (leading zeros allowed). */
  function DigitsValue(s: string): nat
    requires AllDigits(s)
    decreases |s|
  {
    if s == [] then 0 else 10 * DigitsValue(s[..|s| - 1]) + (s[|s| - 1] as int - '0' as int)
  }

  /** Python's `int(text)` for a decimal literal: surrounding whitespace, an optional
      sign and at least one digit. */
  function ParseInt(s: string): (r: Option<int>)
    ensures r.Some? ==> Strip(s) != []
  {
    var t := Strip(s);
    var u := Unsigned(t);
    if u != [] && AllDigits(u) then
      Some(if Negative(t) then -(DigitsValue(u) as int) else DigitsValue(u))
    else None
  }

  predicate HasSign(t: string) {
    t != [] && (t[0] == '+' || t[0] == '-')
  }

  /** The text after an optional leading sign. */
  function Unsigned(t: string): string {
    if HasSign(t) then t[1..] else t
  }

  /** Whether the text starts with a minus sign. */
  predicate Negative(t: string) {
    t != [] && t[0] == '-'
  }

  /** Position of the first exponent marker `e`/`E`, or the length when there is none. */
  function ExponentAt(u: string): (i: nat)
    ensures i <= |u|
    ensures forall j :: 0 <= j < i ==> u[j] != 'e' && u[j] != 'E'
    ensures i < |u| ==> u[i] == 'e' || u[i] == 'E'
  {
    if u == [] then 0
    else if u[0] == 'e' || u[0] == 'E' then 0
    else 1 + ExponentAt(u[1..])
  }

  /** The value of a mantissa `ddd`, `ddd.`, `ddd.ddd` or `.ddd`. */
  function ParseMantissa(m: string): Option<real> {
    if '.' in m then
      var dot := IndexOf(m, '.');
      var ip := m[..dot];
      var fp := m[dot + 1..];
      if AllDigits(ip) && AllDigits(fp) && |ip| + |fp| >= 1 then
        Some(DigitsValue(ip + fp) as real / (Pow10(|fp|) as real))
      else None
    else if m != [] && AllDigits(m) then Some(DigitsValue(m) as real)
    else None
  }

  /** Python's `float(text)` for decimal literals: surrounding whitespace, an optional sign, a
      mantissa and an optional exponent. The spellings `nan`/`inf` and digit separators `_`
      are outside the model. */
  function ParseFloat(s: string): (r: Option<real>) {
    var t := Strip(s);
    var m := ParseUnsigned(Unsigned(t));
    if m.Some? then Some(if Negative(t) then -m.value else m.value) else None
  }

  /** An unsigned literal: a mantissa and an optional exponent `e[sign]digits`. */
  function ParseUnsigned(u: string): Option<real> {
    var e := ExponentAt(u);
    var mantissa := ParseMantissa(u[..e]);
    var exponent := if e == |u| then Some(0) else ParseExponent(u[e + 1..]);
    if mantissa.Some? && exponent.Some? then Some(mantissa.value * Pow10Real(exponent.value))
    else None
  }

  function ParseExponent(x: string): Option<int> {
    var digits := Unsigned(x);
    if digits != [] && AllDigits(digits) then
      Some(if Negative(x) then -(DigitsValue(digits) as int) else DigitsValue(digits))
    else None
  }
}
