/** The unit systems and the validation error the domain raises. */
module References {
  import opened Text

  /** Each unit system carries a command-line flag and the integer HY-8 writes as UNITS. */
  datatype UnitSystem = English | SI {
    function Name(): string {
      match this
      case English => "ENGLISH"
      case SI => "SI"
    }
    function CliFlag(): string {
      match this
      case English => "EN"
      case SI => "SI"
    }
    function ProjectFlag(): int {
      match this
      case English => 0
      case SI => 1
    }
  }

  const UnitSystems: seq<UnitSystem> := [English, SI]

  /** The two systems are told apart by either flag. */
  lemma UnitFlagsDistinct(a: UnitSystem, b: UnitSystem)
    ensures a.ProjectFlag() == b.ProjectFlag() <==> a == b
    ensures a.CliFlag() == b.CliFlag() <==> a == b
  {
  }

  /** `ValidationError(errors)`: a `ValueError` that keeps its own copy of the errors. */
  datatype ValidationError = ValidationError(errors: seq<string>, message: string)

  function NewValidationError(errors: seq<string>): (e: ValidationError)
    ensures e.errors == errors
    ensures errors == [] ==> e.message == "Unknown validation error."
    ensures errors != [] ==> e.message == Join("; ", errors)
    ensures errors != [] ==> |e.message| == JoinedLength(errors, 2)
    ensures |errors| == 1 ==> e.message == errors[0]
  {
    JoinLength("; ", errors);
    ValidationError(errors, if errors == [] then "Unknown validation error." else Join("; ", errors))
  }

  /** The length of `sep.join(parts)` for a separator of length `w`. */
  function JoinedLength(parts: seq<string>, w: nat): nat
    requires parts != []
  {
    if |parts| == 1 then |parts[0]| else |parts[0]| + w + JoinedLength(parts[1..], w)
  }

  lemma {:induction false} JoinLength(sep: string, parts: seq<string>)
    ensures parts != [] ==> |Join(sep, parts)| == JoinedLength(parts, |sep|)
    decreases |parts|
  {
    if |parts| > 1 {
      JoinLength(sep, parts[1..]);
    }
  }
}
