/** Option and Result values used for the JavaScript code's null returns and thrown errors. */
module Wrappers {

  /** `None` stands for JavaScript's `null`/`undefined` result. */
  datatype Option<+T> = None | Some(value: T)

  /** `Err(message)` stands for a thrown `Error` whose `message` is given. */
  datatype Result<+T> = Ok(value: T) | Err(message: string)
}
