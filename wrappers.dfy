/** Optional values and results, used wherever the source returns None or raises. */
module Wrappers {

  datatype Option<+T> = None | Some(value: T)

  datatype Result<+T, +E> = Ok(value: T) | Err(error: E) {
    predicate IsFailure() { Err? }

    function PropagateFailure<U>(): Result<U, E>
      requires Err?
    {
      Err(error)
    }

    function Extract(): T
      requires Ok?
    {
      value
    }
  }
}

/** What running an external command yields, and the exceptions the tool raises. */
module Exec {

  /** Exit status and the two captured streams of one subprocess run. */
  datatype Process = Process(status: int, stdout: string, stderr: string)

  /** The exception classes the core raises or lets propagate. */
  datatype Error =
    | CcmError(detail: string)      // ccm.CCMError
    | RtcError(detail: string)      // rtc.RTCError
    | KeyError(key: string)         // a missing dictionary key
    | TypeError                     // indexing a JSON string as if it were an object
    | IndexError                    // indexing an empty string
    | ValueError(detail: string)    // a bad unpack or an unparsable date
    | AssertionError                // a failed `assert`
    | AttributeError                // `m.group` on a pattern that did not match
}
