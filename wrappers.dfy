/** Option and Result, the two shapes the rest of the model uses for
    "maybe a value" (a JavaScript `undefined`, `null` or `NaN`) and for
    "a value or an error" (a rejected promise). */
module Wrappers {

  datatype Option<+T> = None | Some(value: T)

  datatype Result<+T, +E> = Ok(value: T) | Err(error: E)
}
