/** Values shared by every part of the model: optional values, results,
    time, JavaScript truthiness of strings and the errors the database raises. */
module Common {

  /** `undefined`/`null` versus a present value. */
  datatype Option<+T> = None | Some(value: T)

  /** A value or the error that was thrown instead. */
  datatype Result<+T, +E> = Ok(value: T) | Err(error: E)

  /** Wall-clock time in whole seconds (the resolution of JWT `iat`/`exp`). */
  type Time = int

  /** Store-assigned identifier of a user document (`_id`). */
  type UserId = nat

  /** JavaScript truthiness of a value that is either missing or a string:
      `undefined` and `""` are falsy, every other string is truthy. */
  predicate Truthy(v: Option<string>)
  {
    v.Some? && v.value != ""
  }

  /** Errors raised by the document store on `create`. */
  datatype DbError =
    | ValidationError(path: string)   // a schema validator (required, minlength) failed
    | DuplicateKey(path: string)      // a unique index was violated (MongoDB E11000)
}
