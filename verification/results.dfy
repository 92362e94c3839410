/** Failure-carrying wrappers shared by every module of the model.

    Go reports failure through a trailing `error` value whose text this model
    does not keep: a failure is just `Failure`, and a Go nil pointer or nil
    function value is `None`.
 */
module Results {

  /** An optional value: `None` stands for Go's nil. */
  datatype Option<+T> = None | Some(value: T)

  /** A value or an error whose message is not modelled. */
  datatype Result<+T> = Success(value: T) | Failure
}
