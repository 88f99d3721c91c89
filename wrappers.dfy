/** Result and option types shared by every module of the model. */
module Wrappers {

  /** Python's `None` or a present value. */
  datatype Option<+T> = None | Some(value: T)

  /** The Python exceptions the modelled code can raise on ordinary input. */
  datatype Error =
    | KeyError(key: string)        // `d[k]` on a dict without `k`
    | IndexError                   // `xs[i]` past the end of a list
    | TypeError(reason: string)    // an operation applied to a value of the wrong kind
    | AttributeError(name: string) // a method missing on a value of the wrong kind
    | ValueError(reason: string)   // a text of the right kind that does not parse

  /** The outcome of a computation that either returns normally or raises. */
  datatype Result<+T> = Success(value: T) | Failure(error: Error)
}
