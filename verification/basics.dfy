/** Small failure-carrying datatypes shared by the whole model. */
module Basics {

  /** An optional value; `None` stands for a JavaScript `undefined` field. */
  datatype Option<T> = None | Some(value: T)
  {
    function GetOr(default: T): T
    {
      match this
      case Some(v) => v
      case None => default
    }
  }

  /** The outcome of an operation that may throw: `Err` carries the thrown message. */
  datatype Result<T> = Ok(value: T) | Err(message: string)
}
