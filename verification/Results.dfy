/** Option and Result, with the error codes of the contract. */
module Results {
  datatype Option<+T> = None | Some(value: T) {
    function UnwrapOr(default: T): T {
      if Some? then value else default
    }
  }

  /** The contract's own error codes, plus the two ways the host aborts a call:
      a failed signature check and a trap (integer overflow, division by zero,
      or a token transfer the token contract refuses). */
  datatype Error =
    | InvalidAmount | StreamNotFound | Unauthorized | StreamInactive | AlreadyInitialized
    | NotAdmin | InvalidFeeRate | NotInitialized | InvalidDuration | InvalidRate
    | StreamIsPaused | StreamNotPaused | StreamAlreadyPaused | ProtocolIsPaused
    | EmptyVestingSchedule | TooManyVestingSteps | NonMonotonicVestingSteps
    | InvalidVestingStepAmount | VestingStepTotalMismatch | VestingStepBeforeStart
    | InvalidCliffParameters | BatchTooLarge | NotGuardian | UnsupportedMigration
    | StateVersionTooNew | TopUpUnsupported | ArithmeticOverflow | StreamNotActive
    | StreamStillActive | AuthFailed | HostTrap

  datatype Result<+T> = Ok(value: T) | Err(error: Error) {
    predicate IsFailure() {
      Err?
    }

    function PropagateFailure<U>(): Result<U>
      requires Err?
    {
      Err(error)
    }

    function Extract(): T
      requires Ok?
    {
      value
    }
  }

  datatype Check = Pass | Fail(error: Error) {
    predicate IsFailure() {
      Fail?
    }

    function PropagateFailure<U>(): Result<U>
      requires Fail?
    {
      Err(error)
    }
  }

  function Need(condition: bool, error: Error): Check {
    if condition then Pass else Fail(error)
  }
}
