/** Optional values and fallible results, used in place of `null`/`undefined`
    and of thrown errors. */
module Options {

  /** A value that may be absent: `T | null` or an optional field `x?: T`. */
  datatype Option<+T> = None | Some(value: T)

  /** Either a returned value or a thrown error. */
  datatype Result<+R, +E> = Success(value: R) | Failure(error: E)
}
