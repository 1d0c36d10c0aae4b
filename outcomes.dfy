/** Value wrappers shared by the data access layer and the asset cache worker. */
module Outcomes {

  /** A value that may be absent (JavaScript `undefined` / `null`). */
  datatype Option<+T> = None | Some(value: T)

  /**
   * What a `(error, result)` callback receives: `Ok(v)` stands for
   * `callback(null, v)` and `Err(e)` for `callback(e, null)`.
   */
  datatype Result<+T> = Ok(value: T) | Err(error: string)
}
