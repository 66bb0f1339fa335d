/** The failures the engine raises, written as values instead of exceptions. */
module Failures {

  /** Every kind of failure that the modelled operations can raise. */
  datatype Error =
    | InvalidShape          // an activation Jacobian asked of a matrix that is not a single column
    | UnsetState            // a layer's stored output or error signal used before it was computed
    | EmptyInput            // a reduction (maximum, argmin) over a zero-size array
    | NoLayers              // the classifier asked for the output of a network without layers
    | UnknownLayerType      // a layer tag that is not in the registry
    | UnknownErrorFunction  // an error-function name that is not in the registry
    | BadArguments          // a call with arguments its callee does not accept (Python's TypeError)
    | MalformedJson         // a serialized network that lacks a field or has one of the wrong form

  /** A computed value, or the failure that stopped the computation. */
  datatype Result<T> = Ok(value: T) | Err(error: Error)

  /** A value that may be absent, as Python's `None` is. */
  datatype Option<T> = None | Some(value: T)

  /** The outcome of an operation that only changes state. */
  datatype Outcome = Pass | Fail(error: Error)
}
