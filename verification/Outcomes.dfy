/** Error codes, and the two failure-compatible types the handlers are written with. */
module Outcomes {

  /** Custom errors of `error.rs`, Anchor's account errors, SPL token errors, and the runtime's overflow panic. */
  datatype Error =
    // Anchor
    | AccountNotInitialized
    | AccountInUse
    | ConstraintHasOne
    | ConstraintAddress
    | ConstraintTokenOwner
    // SPL token
    | InsufficientFunds
    | TokenOverflow
    | NonEmptyAccount
    // `overflow-checks = true`
    | Panicked
    // error.rs
    | ZeroPeriod
    | ZeroPrice
    | ZeroPeriodsToFund
    | ZeroRatePerSecond
    | InsufficientUnlockedFunds
    | ClockBackwards
    | MathOverflow
    | IllegalStateForCancel
    | IllegalStateForCharge
    | AtaMismatch
    | IllegalStateForCleanup
    | UnauthorizedCleanup
    | IllegalStateForTopUp
    | IllegalAmountForTopUp
    | MissingGraceSatellite
    | NoCancelAuthority
    | SubscriberAccountMismatch
    | UnauthorizedOpenSession
    | ParentNotActive
    | ReservationCapExceedsEscrow
    | IllegalAmountForSettle
    | IllegalStateForSettle
    | ReservationCapExceeded
    | UnauthorizedFacilitator
    | PaySessionParentMismatch
    | IllegalStateForClose
    | UnauthorizedClose
    | ArithmeticOverflow
    | PaySessionMerchantAtaMismatch
    | UnauthorizedPause
    | IllegalStateForPause
    | UnauthorizedResume
    | IllegalStateForResume
    | UnexpectedGraceSatellite
    | InvalidPeriod

  datatype Result<+T> = Ok(value: T) | Err(error: Error) {
    predicate IsFailure() {
      Err?
    }
    function PropagateFailure<U>(): Result<U>
      requires Err?
    {
      Err(error)
    }
    function Extract(): T
      requires Ok?
    {
      value
    }
  }

  datatype Check = Pass | Fail(error: Error) {
    predicate IsFailure() {
      Fail?
    }
    function PropagateFailure<U>(): Result<U>
      requires Fail?
    {
      Err(error)
    }
  }

  /** `require!(condition, error)`. */
  function Need(condition: bool, error: Error): Check {
    if condition then Pass else Fail(error)
  }
}
