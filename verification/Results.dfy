/** Optional values, and results that carry one of the failures storage can report. */
module Results {
  datatype Option<+T> = None | Some(value: T)

  /** The domain failures of `storage.rs`; every other storage error is `Runtime`. */
  datatype Failure =
    | InvalidRequest
    | NotFound
    | RevisionConflict
    | IdempotencyConflict
    | RuleIdConflict
    | RuleNameConflict
    | Runtime

  datatype Result<+T> = Ok(value: T) | Err(failure: Failure)
}
