/** Values shared by every module: JavaScript's `null`/`undefined` as `Option`, and a thrown
    exception as `Result.Fail`. */
module Wrappers {

  /** `None` stands for `null` or `undefined`. */
  datatype Option<+T> = None | Some(value: T)

  /** The outcome of a call that either returns a value or throws (a `TypeError` from
      reading a property of `undefined`, say); `reason` names what went wrong. */
  datatype Result<+T> = Ok(value: T) | Fail(reason: string)
}
