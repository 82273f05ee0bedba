/** Shared helpers of the domain classes: input normalisation and `assert_valid`. */
module Base {
  import opened Wrappers
  import opened PyValues
  import opened References
  import opened Text

  /** `_normalize_sequence`: lists and tuples pass through, anything else becomes `()`. */
  function NormalizeSequence(v: PyValue): (r: PyValue)
    ensures IsSequence(r)
    ensures IsSequence(v) ==> r == v
    ensures !IsSequence(v) ==> r == PTuple([])
  {
    if IsSequence(v) then v else PTuple([])
  }

  /** `_normalize_mapping`: dicts pass through, anything else becomes `{}`. */
  function NormalizeMapping(v: PyValue): (r: PyValue)
    ensures r.PDict?
    ensures v.PDict? ==> r == v
    ensures !v.PDict? ==> r == PDict([])
  {
    if v.PDict? then v else PDict([])
  }

  /** `assert_valid`: the validation errors are rendered with `str(list)` before the emptiness
      test, so even an empty list gives the non-empty text "[]" and the error is always raised.
      Its `errors` are the characters of that text. */
  function AssertValid(errors: seq<string>): (raised: Option<ValidationError>)
    ensures raised.Some?
    ensures |raised.value.errors| >= 2
    ensures raised.value.errors[0] == "[" && raised.value.errors[|raised.value.errors| - 1] == "]"
  {
    var text := StrListRepr(errors);
    Some(NewValidationError(Chars(text)))
  }

  /** A model with nothing to report still fails `assert_valid`, with the message "[; ]". */
  lemma AssertValidEmpty()
    ensures AssertValid([]).value.message == "[; ]"
  {
    assert StrListRepr([]) == "[]";
    assert Chars("[]") == ["[", "]"];
  }

  // ---------------------------------------------------------------------------------------
  // Lists of nested objects
  // ---------------------------------------------------------------------------------------

  /** `errors.extend(report(x, index))` for `index, x in enumerate(xs, start=start)`. */
  function NumberedReports<T>(xs: seq<T>, start: nat, report: (T, nat) -> seq<string>): seq<string>
    decreases |xs|
  {
    if xs == [] then [] else report(xs[0], start) + NumberedReports(xs[1..], start + 1, report)
  }

  /** The reports add up to nothing exactly when each item reports nothing. */
  lemma {:induction false} NumberedReportsEmpty<T>(xs: seq<T>, start: nat, report: (T, nat) -> seq<string>)
    ensures NumberedReports(xs, start, report) == [] <==>
      forall i :: 0 <= i < |xs| ==> report(xs[i], start + i) == []
    decreases |xs|
  {
    if xs != [] {
      NumberedReportsEmpty(xs[1..], start + 1, report);
      if forall i :: 0 <= i < |xs| ==> report(xs[i], start + i) == [] {
        forall i | 0 <= i < |xs[1..]|
          ensures report(xs[1..][i], start + 1 + i) == []
        {
          assert xs[1..][i] == xs[i + 1];
        }
      }
      if NumberedReports(xs, start, report) == [] {
        forall i | 0 <= i < |xs|
          ensures report(xs[i], start + i) == []
        {
          if i > 0 {
            assert xs[i] == xs[1..][i - 1];
          }
        }
      }
    }
  }

  /** When every item's report carries the prefix, so does the whole. */
  lemma {:induction false} NumberedReportsPrefixed<T>(xs: seq<T>, start: nat, report: (T, nat) -> seq<string>,
                                                      prefix: string)
    requires forall i :: 0 <= i < |xs| ==> forall e :: e in report(xs[i], start + i) ==> StartsWith(e, prefix)
    ensures forall e :: e in NumberedReports(xs, start, report) ==> StartsWith(e, prefix)
    decreases |xs|
  {
    if xs != [] {
      assert forall e :: e in report(xs[0], start) ==> StartsWith(e, prefix);
      forall i | 0 <= i < |xs[1..]|
        ensures forall e :: e in report(xs[1..][i], start + 1 + i) ==> StartsWith(e, prefix)
      {
        assert xs[1..][i] == xs[i + 1];
      }
      NumberedReportsPrefixed(xs[1..], start + 1, report, prefix);
    }
  }

  /** Appending an item appends its report, numbered after the existing items. */
  lemma {:induction false} NumberedReportsAppend<T>(xs: seq<T>, x: T, start: nat, report: (T, nat) -> seq<string>)
    ensures NumberedReports(xs + [x], start, report) == NumberedReports(xs, start, report) + report(x, start + |xs|)
    decreases |xs|
  {
    if xs == [] {
      assert xs + [x] == [x];
    } else {
      assert (xs + [x])[1..] == xs[1..] + [x];
      NumberedReportsAppend(xs[1..], x, start + 1, report);
    }
  }

  /** `[load(raw) for raw in items if isinstance(raw, Mapping)]`: the first load that fails raises. */
  function LoadMappings<T>(items: seq<PyValue>, load: seq<(string, PyValue)> -> Result<T>): Result<seq<T>>
    decreases |items|
  {
    if items == [] then Ok([])
    else if !items[0].PDict? then LoadMappings(items[1..], load)
    else
      var x :- load(items[0].entries);
      var rest :- LoadMappings(items[1..], load);
      Ok([x] + rest)
  }

  /** The number of entries that are not mappings. */
  function CountNonMappings(items: seq<PyValue>): (n: nat)
    ensures n <= |items|
    decreases |items|
  {
    if items == [] then 0 else (if items[0].PDict? then 0 else 1) + CountNonMappings(items[1..])
  }

  /** Entries that are not mappings are dropped: one object per mapping entry, and none at all when
      no entry is a mapping. */
  lemma {:induction false} LoadMappingsSkips<T>(items: seq<PyValue>, load: seq<(string, PyValue)> -> Result<T>)
    ensures LoadMappings(items, load).Ok? ==> |LoadMappings(items, load).value| == |items| - CountNonMappings(items)
    ensures (forall i :: 0 <= i < |items| ==> !items[i].PDict?) ==> LoadMappings(items, load) == Ok([])
    decreases |items|
  {
    if items != [] {
      LoadMappingsSkips(items[1..], load);
      if forall i :: 0 <= i < |items| ==> !items[i].PDict? {
        forall i | 0 <= i < |items[1..]|
          ensures !items[1..][i].PDict?
        {
          assert items[1..][i] == items[i + 1];
        }
      }
    }
  }

  /** `[x.to_dict() for x in xs]`, given the entries each object writes. */
  function Dumped<T>(xs: seq<T>, dump: T -> seq<(string, PyValue)>): (r: seq<PyValue>)
    ensures |r| == |xs| && forall i :: 0 <= i < |xs| ==> r[i] == PDict(dump(xs[i]))
  {
    seq(|xs|, i requires 0 <= i < |xs| => PDict(dump(xs[i])))
  }

  /** When each object survives its own dictionary, a list of them survives the list of dictionaries. */
  lemma {:induction false} LoadDumped<T>(xs: seq<T>, dump: T -> seq<(string, PyValue)>,
                                         load: seq<(string, PyValue)> -> Result<T>)
    requires forall i :: 0 <= i < |xs| ==> load(dump(xs[i])) == Ok(xs[i])
    ensures LoadMappings(Dumped(xs, dump), load) == Ok(xs)
    decreases |xs|
  {
    if xs != [] {
      forall i | 0 <= i < |xs[1..]|
        ensures load(dump(xs[1..][i])) == Ok(xs[1..][i])
      {
        assert xs[1..][i] == xs[i + 1];
      }
      LoadDumped(xs[1..], dump, load);
      assert Dumped(xs, dump)[1..] == Dumped(xs[1..], dump);
      assert [xs[0]] + xs[1..] == xs;
    }
  }
}
