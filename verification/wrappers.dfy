/** Option and Result, for the values the game leaves absent (`null`,
    `undefined`) and for the failures it raises. */
module Wrappers {

  datatype Option<+T> = None | Some(value: T)

  datatype Result<+T, +E> = Ok(value: T) | Err(error: E)
}
