/** Outcome types shared by every module of the model. */
module Results {

  /** A value that may be absent (`null` / `undefined` in the application). */
  datatype Option<+T> = None | Some(value: T)

  /** What an action or a route hands back: a value, or the message the caller sees. */
  datatype Result<+T> = Ok(value: T) | Err(message: string)
}
