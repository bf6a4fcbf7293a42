/** Optional values and results with an error side, used for the nullable
    columns of a lead row, for JSON fields that may be missing, and for the
    thrown-or-returned outcomes of the external calls. */
module Wrappers {

  datatype Option<+T> = None | Some(value: T)

  /** `Failure` stands for a call that threw; `Success` for one that returned. */
  datatype Result<+R, +E> = Success(value: R) | Failure(error: E)
}
