// Results of operations that the C++ code ends with a return value or an exception.
module Outcomes {
  datatype Option<+T> = None | Some(value: T)

  datatype Outcome<+T> = Ok(value: T) | Throw(error: Error)

  // One constructor for each exception the modelled code can raise.
  datatype Error =
    | QueryPrecedesState          // "query precedes persistent state"
    | UnorderedImu                // "unordered received IMU"
    | ShortImuNotReady            // "SHORT_IMU_NOT_READY"
    | UnexpectedLookahead         // "SHORT_IMU_INVALID: unexpected lookahead on normal path"
    | CarryNewerThanState         // "SHORT_IMU_INVALID: carry newer than state"
    | UnorderedSupport            // "SHORT_IMU_INVALID: unordered support"
    | NonpositiveInterval         // "SHORT_IMU_INVALID: nonpositive covered interval"
    | IncompleteUnion             // "SHORT_IMU_INVALID: incomplete interval union"
    | MovedBackwards              // the IMU propagation or the estimator timestamp would go back
    | PoseMovedBackwards          // "image-time scan pose moved backwards"
    | InvalidHandoff              // "invalid persistent handoff"
    | NoSharedPrediction          // "SHORT_IMU_INVALID: no shared prediction commit"
    | VioBlocked                  // "VIO_TEMPORAL_COMMIT_BLOCKED: incomplete prediction"
    | CausalTraceNeedsImu         // "causal trace requires initialized IMU"
    | UnclosedTransaction         // "unclosed estimator transaction"
    | MissingCheckpoint           // "missing estimator checkpoint"
    | ScanContract                // any exception of the scan lifecycle contract
    | InitTimeInvalid             // "INIT_TIME_INVALID: last initialization sample"
}
