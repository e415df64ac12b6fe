/** Failure-carrying datatypes shared by the other modules. */
module Wrappers {

  /** A value that may be absent: `undefined` in the TypeScript, or a step that throws. */
  datatype Option<+T> = None | Some(value: T)

  /** The one exception the serialiser raises: a BigInt reaching JSON.stringify. */
  datatype SerializeError = TypeError

  /** The outcome of a step that may throw. */
  datatype Result<+T> = Ok(value: T) | Err(error: SerializeError)
}
