/** Option and Result values standing in for Python's `None` and for the
    exceptions that collaborator calls (engine, network) may raise. */
module Outcomes {

  datatype Option<+T> = None | Some(value: T)

  /** The outcome of a call into code outside the model: `Ok` carries the
      value returned, `Err` the reason an exception was raised. */
  datatype Result<+T> = Ok(value: T) | Err(reason: string)
}
