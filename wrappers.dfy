/** Error outcomes shared by every module: the Python exceptions the modelled
    code can raise, and an Option / Result pair to carry them. */
module Wrappers {

  datatype Option<T> = None | Some(value: T)

  /** The exceptions the modelled code raises, by kind. */
  datatype Error =
    | KeyError(key: string)        // dictionary lookup of a missing key
    | IndexError                   // list index out of range
    | TypeError                    // subscripting a value that is not a dictionary
    | AttributeError               // `.get` on a value that is not a dictionary
    | NameError(name: string)      // reading a local that was never bound
    | ValueError                   // `min`/`max`/`amin` of an empty sequence, or a
                                   // marching-cubes level outside the field's range
    | AssertionError(message: string)
    | NoTermination                // a loop that never exits

  datatype Result<T> = Ok(value: T) | Err(error: Error) {
    predicate IsFailure() { Err? }

    function PropagateFailure<U>(): Result<U>
      requires Err?
    {
      Err(error)
    }

    function Extract(): T
      requires Ok?
    {
      value
    }
  }
}
