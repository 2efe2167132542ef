/** Shared vocabulary: optional values, TensorFlow statuses, and results. */
module Common {

  datatype Option<+T> = None | Some(value: T)

  datatype Code = Unavailable | InvalidArgument | FailedPrecondition | ResourceExhausted | Internal

  /** A status: OK, or an error code together with its message. */
  datatype Status = OK | Error(code: Code, message: string)

  /** A value or the status of its failure; the failure-compatible type of the operations that return a status. */
  datatype Result<+T> = Success(value: T) | Failure(error: Status) {

    predicate IsFailure() {
      Failure?
    }

    function PropagateFailure<U>(): (r: Result<U>)
      requires Failure?
    {
      Failure(error)
    }

    function Extract(): T
      requires Success?
    {
      value
    }
  }

  /** The elements of a sequence. */
  ghost function SetOf<T>(s: seq<T>): set<T> {
    set x | x in s
  }

  lemma PrefixGrows<T>(s: seq<T>, i: nat)
    requires i < |s|
    ensures s[..i + 1] == s[..i] + [s[i]]
  {}

  lemma OrderedMultiples(a: int, b: int, m: nat)
    ensures a * m < b * m ==> a < b
  {
    if a >= b {
      assert a * m == b * m + (a - b) * m;
    }
  }
}
