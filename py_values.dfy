/** The Python values that reach the model's loaders: JSON-like data (`None`, booleans,
    numbers, strings, lists, tuples, ordered dicts with string keys) plus enum members passed
    by callers. The builtin conversions `float()`, `int()`, `str()`, truthiness, iteration and
    `==` are given here with the cases the loaders meet. */
module PyValues {
  import opened Wrappers
  import opened Text
  import opened Numbers

  datatype PyValue =
    | PNone
    | PBool(b: bool)
    | PInt(i: int)
    | PFloat(x: real)
    | PStr(s: string)
    | PList(items: seq<PyValue>)
    | PTuple(elems: seq<PyValue>)
    | PDict(entries: seq<(string, PyValue)>)
    | PMember(cls: string, name: string)

  /** Python truthiness (`if value:`). */
  predicate Truthy(v: PyValue) {
    match v
    case PNone => false
    case PBool(b) => b
    case PInt(i) => i != 0
    case PFloat(x) => x != 0.0
    case PStr(s) => s != []
    case PList(items) => items != []
    case PTuple(elems) => elems != []
    case PDict(entries) => entries != []
    case PMember(_, _) => true
  }

  /** `isinstance(v, Sequence) and not isinstance(v, (str, bytes))` */
  predicate IsSequence(v: PyValue) {
    v.PList? || v.PTuple?
  }

  /** The items of a list or tuple. */
  function Items(v: PyValue): seq<PyValue>
    requires IsSequence(v)
  {
    if v.PList? then v.items else v.elems
  }

  predicate HasKey(entries: seq<(string, PyValue)>, key: string) {
    exists i :: 0 <= i < |entries| && entries[i].0 == key
  }

  /** `mapping.get(key, default)` on an ordered dict: the value of the first entry with the key.
      Its contract is the lemma `GetSpec`, kept apart so that lookups in literal dicts stay cheap. */
  function Get(entries: seq<(string, PyValue)>, key: string, default: PyValue): PyValue
    decreases |entries|
  {
    if entries == [] then default
    else if entries[0].0 == key then entries[0].1
    else Get(entries[1..], key, default)
  }

  /** `get` returns the default exactly when the key is absent, and otherwise a value stored under it. */
  lemma {:induction false} GetSpec(entries: seq<(string, PyValue)>, key: string, default: PyValue)
    ensures !HasKey(entries, key) ==> Get(entries, key, default) == default
    ensures HasKey(entries, key) ==>
      exists i :: 0 <= i < |entries| && entries[i] == (key, Get(entries, key, default))
    decreases |entries|
  {
    if entries != [] && entries[0].0 != key {
      var r := Get(entries[1..], key, default);
      GetSpec(entries[1..], key, default);
      if HasKey(entries[1..], key) {
        var j :| 0 <= j < |entries[1..]| && entries[1..][j] == (key, r);
        assert entries[j + 1] == (key, r);
      }
      if HasKey(entries, key) {
        var j :| 0 <= j < |entries| && entries[j].0 == key;
        assert entries[1..][j - 1].0 == key;
      }
    } else if entries != [] {
      assert entries[0] == (key, Get(entries, key, default));
    }
  }

  /** The value `get` finds at the first entry carrying the key. */
  lemma {:induction false} GetAt(entries: seq<(string, PyValue)>, k: nat, key: string, default: PyValue)
    requires k < |entries| && entries[k].0 == key
    requires forall j :: 0 <= j < k ==> entries[j].0 != key
    ensures Get(entries, key, default) == entries[k].1
    decreases k
  {
    if k > 0 {
      GetAt(entries[1..], k - 1, key, default);
    }
  }

  predicate DistinctKeys(keys: seq<string>) {
    forall i, j :: 0 <= i < j < |keys| ==> keys[i] != keys[j]
  }

  /** The dict literal `{keys[0]: vals[0], keys[1]: vals[1], ...}`. */
  function Zip(keys: seq<string>, vals: seq<PyValue>): (r: seq<(string, PyValue)>)
    requires |keys| == |vals|
    ensures |r| == |keys| && forall i :: 0 <= i < |r| ==> r[i] == (keys[i], vals[i])
  {
    seq(|keys|, i requires 0 <= i < |keys| => (keys[i], vals[i]))
  }

  /** In a dict literal with distinct keys, each key finds its own value. */
  lemma GetZip(keys: seq<string>, vals: seq<PyValue>, k: nat, default: PyValue)
    requires |keys| == |vals| && k < |keys| && DistinctKeys(keys)
    ensures Get(Zip(keys, vals), keys[k], default) == vals[k]
  {
    GetAt(Zip(keys, vals), k, keys[k], default);
  }

  /** The keys of a dict, in insertion order. */
  function Keys(entries: seq<(string, PyValue)>): (r: seq<string>)
    ensures |r| == |entries| && forall i :: 0 <= i < |r| ==> r[i] == entries[i].0
  {
    seq(|entries|, i requires 0 <= i < |entries| => entries[i].0)
  }

  /** `for item in v`: list and tuple items, the characters of a string, the keys of a dict. */
  function Iterate(v: PyValue): (r: Result<seq<PyValue>>)
    ensures IsSequence(v) ==> r == Ok(Items(v))
    ensures r.Err? <==> !(IsSequence(v) || v.PStr? || v.PDict?)
  {
    match v
    case PList(items) => Ok(items)
    case PTuple(elems) => Ok(elems)
    case PStr(s) => Ok(seq(|s|, i requires 0 <= i < |s| => PStr([s[i]])))
    case PDict(entries) => Ok(seq(|entries|, i requires 0 <= i < |entries| => PStr(entries[i].0)))
    case _ => Err("object is not iterable")
  }

  /** `float(v)`; NaN and infinity spellings of a string are outside the model. */
  function ToFloat(v: PyValue): (r: Result<real>)
    ensures v.PFloat? ==> r == Ok(v.x)
    ensures v.PInt? ==> r == Ok(v.i as real)
    ensures r.Ok? ==> v.PBool? || v.PInt? || v.PFloat? || v.PStr?
  {
    match v
    case PBool(b) => Ok(if b then 1.0 else 0.0)
    case PInt(i) => Ok(i as real)
    case PFloat(x) => Ok(x)
    case PStr(s) =>
      var parsed := ParseFloat(s);
      if parsed.Some? then Ok(parsed.value) else Err("could not convert string to float")
    case _ => Err("float() argument must be a string or a real number")
  }

  /** Truncation toward zero, as Python's `int(float)` does. */
  function Truncate(x: real): (r: int)
    ensures Abs(r as real) <= Abs(x) && Abs(x - r as real) < 1.0
    ensures (x >= 0.0 ==> r >= 0) && (x <= 0.0 ==> r <= 0)
  {
    if x >= 0.0 then x.Floor else -((-x).Floor)
  }

  /** `int(v)` */
  function ToInt(v: PyValue): (r: Result<int>)
    ensures v.PInt? ==> r == Ok(v.i)
    ensures r.Ok? ==> v.PBool? || v.PInt? || v.PFloat? || v.PStr?
  {
    match v
    case PBool(b) => Ok(if b then 1 else 0)
    case PInt(i) => Ok(i)
    case PFloat(x) => Ok(Truncate(x))
    case PStr(s) =>
      var parsed := ParseInt(s);
      if parsed.Some? then Ok(parsed.value) else Err("invalid literal for int() with base 10")
    case _ => Err("int() argument must be a string or a real number")
  }

  /** `str(v)` for the values whose text the model renders; `None` for a float or a container,
      whose `repr` is outside the model. */
  function ToStr(v: PyValue): (r: Option<string>)
    ensures v.PStr? ==> r == Some(v.s)
    ensures r.None? <==> v.PFloat? || v.PList? || v.PTuple? || v.PDict?
  {
    match v
    case PNone => Some("None")
    case PBool(b) => Some(if b then "True" else "False")
    case PInt(i) => Some(IntToString(i))
    case PStr(s) => Some(s)
    case PMember(cls, name) => Some(cls + "." + name)
    case _ => None
  }

  /** The numeric value of a bool, int or float, which Python's `==` compares across types. */
  function NumericValue(v: PyValue): Option<real> {
    match v
    case PBool(b) => Some(if b then 1.0 else 0.0)
    case PInt(i) => Some(i as real)
    case PFloat(x) => Some(x)
    case _ => None
  }

  /** Python's `a == b` for the values enum lookup compares. */
  predicate PyEq(a: PyValue, b: PyValue) {
    var na := NumericValue(a);
    var nb := NumericValue(b);
    if na.Some? || nb.Some? then na == nb else a == b
  }

  function HexDigit(d: nat): char
    requires d < 16
  {
    if d < 10 then ('0' as int + d) as char else ('a' as int + d - 10) as char
  }

  /** One character of a string's `repr`, inside the chosen quotes. ASCII control characters
      are escaped; every other character is taken as printable. */
  function ReprChar(c: char, quote: char): (r: string)
    ensures r != []
  {
    if c == quote || c == '\\' then ['\\', c]
    else if c == '\t' then "\\t"
    else if c == '\n' then "\\n"
    else if c == '\r' then "\\r"
    else if c < ' ' || c == 0x7F as char then ['\\', 'x', HexDigit(c as int / 16), HexDigit(c as int % 16)]
    else [c]
  }

  function ReprBody(s: string, quote: char): string {
    if s == [] then [] else ReprChar(s[0], quote) + ReprBody(s[1..], quote)
  }

  /** `repr(s)`: single quotes unless the text holds a single quote and no double quote. */
  function StrRepr(s: string): (r: string)
    ensures |r| >= 2 && r[0] == r[|r| - 1] && (r[0] == '\'' || r[0] == '"')
  {
    var quote := if '\'' in s && '"' !in s then '"' else '\'';
    [quote] + ReprBody(s, quote) + [quote]
  }

  /** `str(items)` for a list of strings. */
  function StrListRepr(items: seq<string>): (r: string)
    ensures |r| >= 2 && r[0] == '[' && r[|r| - 1] == ']'
  {
    "[" + ReprJoin(items) + "]"
  }

  function ReprJoin(items: seq<string>): string {
    if items == [] then ""
    else if |items| == 1 then StrRepr(items[0])
    else StrRepr(items[0]) + ", " + ReprJoin(items[1..])
  }

  /** `list(text)`: the one-character strings of a text. */
  function Chars(s: string): (r: seq<string>)
    ensures |r| == |s| && forall i :: 0 <= i < |s| ==> r[i] == [s[i]]
  {
    seq(|s|, i requires 0 <= i < |s| => [s[i]])
  }

  // List comprehensions over loaded values

  /** `[float(v) for v in items]` */
  function FloatsOf(items: seq<PyValue>): (r: Result<seq<real>>)
    ensures r.Ok? ==> |r.value| == |items|
    ensures r.Ok? ==> forall i :: 0 <= i < |items| ==> ToFloat(items[i]) == Ok(r.value[i])
    ensures (forall i :: 0 <= i < |items| ==> ToFloat(items[i]).Ok?) ==> r.Ok?
  {
    if items == [] then Ok([])
    else
      var head := ToFloat(items[0]);
      if head.Err? then Err(head.msg)
      else
        var rest := FloatsOf(items[1..]);
        if rest.Err? then
          assert !(forall i :: 0 <= i < |items| ==> ToFloat(items[i]).Ok?) by {
            var k :| 0 <= k < |items[1..]| && !ToFloat(items[1..][k]).Ok?;
            assert items[k + 1] == items[1..][k];
          }
          Err(rest.msg)
        else Ok([head.value] + rest.value)
  }

  /** `[str(v) for v in items]` */
  function StringsOf(items: seq<PyValue>): (r: Result<seq<string>>)
    ensures r.Ok? ==> |r.value| == |items|
    ensures r.Ok? ==> forall i :: 0 <= i < |items| ==> ToStr(items[i]) == Some(r.value[i])
  {
    if items == [] then Ok([])
    else
      var head := ToStr(items[0]);
      if head.None? then Err("str() of a float or container is outside the model")
      else
        var rest := StringsOf(items[1..]);
        if rest.Err? then Err(rest.msg) else Ok([head.value] + rest.value)
  }

  /** A list of floats as loaded values. */
  function FloatItems(v: seq<real>): (r: seq<PyValue>)
    ensures |r| == |v| && forall i :: 0 <= i < |v| ==> r[i] == PFloat(v[i])
  {
    seq(|v|, i requires 0 <= i < |v| => PFloat(v[i]))
  }

  /** A list of strings as loaded values. */
  function StrItems(v: seq<string>): (r: seq<PyValue>)
    ensures |r| == |v| && forall i :: 0 <= i < |v| ==> r[i] == PStr(v[i])
  {
    seq(|v|, i requires 0 <= i < |v| => PStr(v[i]))
  }

  /** Converting a list of floats back with `float()` gives the list. */
  lemma {:induction false} FloatsRoundTrip(v: seq<real>)
    ensures FloatsOf(FloatItems(v)) == Ok(v)
    decreases |v|
  {
    if v != [] {
      FloatsRoundTrip(v[1..]);
      assert FloatItems(v)[1..] == FloatItems(v[1..]);
      assert [v[0]] + v[1..] == v;
    }
  }

  /** Converting a list of strings back with `str()` gives the list. */
  lemma {:induction false} StringsRoundTrip(v: seq<string>)
    ensures StringsOf(StrItems(v)) == Ok(v)
    decreases |v|
  {
    if v != [] {
      StringsRoundTrip(v[1..]);
      assert StrItems(v)[1..] == StrItems(v[1..]);
      assert [v[0]] + v[1..] == v;
    }
  }
}
