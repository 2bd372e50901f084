/** The error conditions a review state reports, and the wrappers that carry them. */
module StateErrors {

  datatype Option<T> = None | Some(value: T)

  /** Why an operation on the state was refused. */
  datatype StateError =
    | ReadOnlyViolation                              // a write through a store opened read-only
    | UnequalColumns                                 // parallel lists of labeling data differ in length
    | ProbabilityCountMismatch(stored: nat, given: nat) // new probabilities do not match the stored count
    | QueryNotFound(query: nat)                      // a query number beyond the last model round
    | RecordNotFound(recordId: int)                  // a record id with no row in the results log

  /** The value of a read, or the reason it failed. */
  datatype Result<T> = Ok(value: T) | Err(error: StateError)

  /** The outcome of a write: done, or refused with nothing written. */
  datatype Outcome = Done | Fail(error: StateError)
}
