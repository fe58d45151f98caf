/** Optional values and results that carry either a value or one of the system's errors. */
module Wrappers {

  datatype Option<+T> = None | Some(value: T)

  datatype Result<+T> = Ok(value: T) | Err(error: Error)

  /** The sentinel errors of the packages money, wallet, wagertx, ledger, ports and usecase. */
  datatype Error =
    // money
    | ErrEmptyAmount | ErrInvalidFormat | ErrExcessiveScale | ErrNegativeNotAllowed
    | ErrEmptyCurrency | ErrInvalidCurrency | ErrCurrencyMismatch | ErrOverflow
    // wallet, wagertx and ledger
    | ErrEmptyID | ErrEmptyProviderID | ErrEmptyExternalID | ErrEmptyIdempotencyKey
    | ErrEmptyWalletID | ErrEmptyPlayerID | ErrEmptyRoundID | ErrEmptyGameID | ErrEmptyTransactionID
    | ErrOpeningNotExternal | ErrInvalidKind | ErrLossAmountMustBeZero | ErrAmountMustBePositive
    | ErrReferenceRequired | ErrReferenceNotAllowed | ErrEmptyFailureCode | ErrInvalidTransition
    | ErrNegativeInitial | ErrInsufficientBalance | ErrBalanceMismatch
    // ports
    | ErrNotFound | ErrOptimisticLock | ErrAlreadyExists
    // usecase and sqs
    | ErrIdempotencyConflict | ErrUnsupportedKind | ErrWalletPlayerMismatch | ErrTooManyRetries
    | ErrWalletAlreadyExists | ErrInvalidEnvelope
}
