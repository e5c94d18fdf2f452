/** Outcomes shared by every layer: optional and nilable values, and the three panics that the
    operation boundary turns into a status. */
module Common {

  const MAX_U32: nat := 0xFFFF_FFFF

  datatype Option<+T> = None | Some(value: T)

  /** A Go slice value: a nil slice is distinct from an empty one. */
  datatype List<+T> = Nil | Items(values: seq<T>)

  /** Why a step panicked. `Internal` stands for every panic value that has no status of its own. */
  datatype Failure = Overflow | Canceled | Internal

  datatype Result<+T> = Success(value: T) | Fail(error: Failure) {
    predicate IsFailure() {
      Fail?
    }

    function PropagateFailure<U>(): Result<U>
      requires Fail?
    {
      Fail(error)
    }

    function Extract(): T
      requires Success?
    {
      value
    }
  }

  /** The status that a recovered panic is reported with. */
  function PanicStatus(f: Failure): nat {
    match f
    case Overflow => 2
    case Canceled => 4
    case Internal => 1
  }

  function Smaller(a: nat, b: nat): nat {
    if a < b then a else b
  }

  /** All parts, one after the other. */
  function Flatten<T>(parts: seq<seq<T>>): seq<T> {
    if parts == [] then [] else Flatten(parts[..|parts| - 1]) + parts[|parts| - 1]
  }

  function Larger(a: nat, b: nat): nat {
    if a < b then b else a
  }

  /** `int` to `uint32`, or the overflow panic. */
  function Checked(v: int): Result<nat> {
    if 0 <= v <= MAX_U32 then Success(v) else Fail(Overflow)
  }

  /** The context a computation polls. A nil context never cancels. */
  datatype Context = NoContext | Cancelable

  /** Polling the context: the caller may cancel between any two polls, so a context that can be
      canceled may give any answer. */
  method CheckContext(ctx: Context) returns (canceled: bool)
    ensures canceled ==> ctx.Cancelable?
  {
    if ctx == NoContext {
      return false;
    }
    canceled := *;
  }
}
