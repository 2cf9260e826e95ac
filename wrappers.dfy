/** Error values for the exceptions the modelled code raises, and a
    failure-compatible Result so that `:-` propagates them. */
module Wrappers {

  /** The Python exceptions raised by the modelled code. */
  datatype Error =
    | ValueError(message: string)       // unknown configuration key
    | AssertionError(message: string)   // a failed `assert`
    | IndexError                        // indexing past the end of a vector
    | KeyError(key: string)             // a missing dictionary key
    | DeviceNotConnected                // lerobot's DeviceNotConnectedError

  /** A Python value as dictionaries carry it in the modelled code: a
      string, a number, or a list of values. */
  datatype Value =
    | Str(s: string)
    | Number(x: real)
    | List(items: seq<Value>)

  datatype Option<+T> = None | Some(value: T)

  datatype Result<+T> = Ok(value: T) | Err(error: Error) {
    predicate IsFailure() { Err? }

    function PropagateFailure<U>(): Result<U>
      requires Err?
    {
      Err(error)
    }

    function Extract(): T
      requires Ok?
    {
      value
    }
  }
}
