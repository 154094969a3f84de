/** Small result types shared by the model. */
module Wrappers {

  datatype Option<+T> = None | Some(value: T)

  /** The Python exceptions the modelled code can raise and does not catch. */
  datatype PyError =
    | KeyError        // a dictionary subscript with a key the dictionary lacks
    | TypeError       // subscripting or iterating a value that does not support it
    | AttributeError  // calling `.keys()` on a value that is not a dictionary
    | ValueError      // unpacking a list of the wrong length

  /** The outcome of a call: the value it returns, or the exception it raises. */
  datatype Result<+T> = Ok(value: T) | Err(error: PyError)
}
