/** Option and Result values, and the exceptions the Python and TypeScript code raises,
    written as values so that every error path of the source is a result of the model. */
module Outcome {

  datatype Option<+T> = None | Some(value: T)

  /** A value or the error that stopped the computation; `:-` propagates the error. */
  datatype Result<+T, +E> = Ok(value: T) | Err(error: E) {
    predicate IsFailure() {
      Err?
    }

    function PropagateFailure<U>(): Result<U, E>
      requires Err?
    {
      Err(error)
    }

    function Extract(): T
      requires Ok?
    {
      value
    }
  }

  /** The `detail` of a FastAPI HTTPException: most handlers send a `{code, message}` object,
      a few a plain string. */
  datatype Detail = Coded(code: string, message: string) | Text(text: string)

  /** The exceptions the modelled code raises, by kind.
      `TypeFault` stands for the AttributeError, TypeError and KeyError that Python raises when a
      value has an unexpected type or a key is missing: the source never raises these on purpose.
      `HttpFault` is FastAPI's HTTPException; `UpstreamError` is the `requests.HTTPError` that
      `raise_for_status()` raises for an upstream status from 400 to 599. */
  datatype Fault =
    | ValueError(message: string)
    | ConfigError(message: string)
    | RuntimeError(message: string)
    | AuthError(message: string)
    | TypeFault(message: string)
    | HttpFault(status: int, detail: Detail)
    | UpstreamError(status: int, message: string)
}
