/** Results that can fail, and the parameters captured from a path, used across the model. */
module Wrappers {
  datatype Option<+T> = None | Some(value: T)

  datatype Result<+T> = Ok(value: T) | Err(reason: string)

  type Params = map<string, string>
}
