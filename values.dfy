/** Values that travel between pipeline segments, shared by the three revisions of the engine.
    Python's dynamically typed values are a small closed union: a plain value, or the
    `NextInput(args, kwd)` envelope that the engine unpacks into the next call's arguments. */
module Values {

  datatype Option<T> = None | Some(value: T)

  datatype Result<T, E> = Ok(value: T) | Err(error: E)

  /** A plain Python value that is not an envelope. */
  datatype Atom = NoneVal | Bool(b: bool) | Int(i: int) | Str(s: string)

  /** Whatever a segment's `process` may return: the `isinstance(data, NextInput)` test of the
      engine becomes the tag of this union. */
  datatype Value = Plain(atom: Atom) | Next(input: NextInput)

  /** The envelope `NextInput(args, kwd)`: positional and named arguments for the next call. */
  datatype NextInput = NextInput(args: seq<Value>, kwd: map<string, Value>)

  /** A raised exception. `catchable` says whether its class derives from `Exception`, so that an
      `except Exception:` clause intercepts it (KeyboardInterrupt and SystemExit do not). */
  datatype Raised = Raised(cls: string, message: string, catchable: bool)

  /** What one loop iteration did with one segment: the previous segment passed to
      `check_inputs` (by its string form), the arguments delivered, the result of the check
      (`Some` when it raised) and, when `process` was called, its result. */
  datatype StepRecord = StepRecord(
    previous: Option<string>,
    input: NextInput,
    checked: Option<Raised>,
    processed: Option<Result<Value, Raised>>)

  /** `check_inputs(previous, *args, **kwd)` of a user segment: `Some` when it raises. The
      previous segment is passed by its string form. */
  type CheckHook = (Option<string>, NextInput) -> Option<Raised>

  /** `process(*args, **kwd)` of a user segment: the returned value or the raised exception. */
  type ProcessHook = NextInput -> Result<Value, Raised>

  /** The class attribute `name` of the segment base class. */
  const DEFAULT_NAME := "default"

  /** The name an initializer sets: the given one unless it is None. */
  function InitName(name: Option<string>): (r: string)
    ensures name.Some? ==> r == name.value
    ensures name.None? ==> r == "default"
  {
    if name.Some? then name.value else DEFAULT_NAME
  }

  /** The envelope with no arguments at all. */
  const Empty := NextInput([], map[])

  /** `wrap_for_next_segment(*args, **kwd)`: a carrier that never inspects what it carries. */
  function Wrap(args: seq<Value>, kwd: map<string, Value>): (r: NextInput)
    ensures r.args == args && r.kwd == kwd
  {
    NextInput(args, kwd)
  }

  /** The engine's normalisation before each segment: an envelope is unpacked as it is, any other
      value becomes the sole positional argument. */
  function Normalize(data: Value): (r: NextInput)
    ensures data.Next? ==> r == data.input
    ensures data.Plain? ==> r.args == [data] && r.kwd == map[]
  {
    match data
    case Next(input) => input
    case Plain(_) => NextInput([data], map[])
  }

  /** The failure a step ended with, if any. */
  function Failure(r: StepRecord): (e: Option<Raised>)
    ensures r.checked.Some? ==> e == r.checked
    ensures r.checked.None? && r.processed.Some? && r.processed.value.Err? ==> e == Some(r.processed.value.error)
    ensures e.None? <==> r.checked.None? && (r.processed.None? || r.processed.value.Ok?)
  {
    if r.checked.Some? then r.checked
    else if r.processed.Some? && r.processed.value.Err? then Some(r.processed.value.error)
    else None
  }

  /** The data the engine holds after a step: the segment's result when `process` returned,
      otherwise the (normalised) data the step was given, which a failed step leaves unchanged. */
  function DataAfter(r: StepRecord): Value
  {
    if r.processed.Some? && r.processed.value.Ok? then r.processed.value.value else Next(r.input)
  }

  /** Normalising an envelope a second time changes nothing. */
  lemma NormalizeIdempotent(v: Value)
    ensures Normalize(Next(Normalize(v))) == Normalize(v)
  {
  }
}
