/** Option and Result types, and the errors the two contracts can answer with. */
module Results {

  datatype Option<+T> = None | Some(value: T)

  /** `Panic` stands for an `unwrap` on `None`, an arithmetic overflow or an explicit panic; `Std` for a failed
      storage load. Both abort the transaction exactly as a returned error does. */
  datatype Error =
    | Unauthorized
    | NoFunds
    | MultipleFunds
    | InvalidDenom
    | ValidatorNotDiscoverable
    | ValidatorNotAdded
    | ValidatorAlreadyAdded
    | ValidatorsCannotBeSame
    | RedelegationInProgress
    | NoValidatorsInPool
    | AllValidatorsJailed
    | InSufficientFunds
    | ZeroAmount
    | NoOp
    | OperationPaused
    | MaxDeposit
    | MinDeposit
    | ReinvestInCooldown
    | UndelegationInCooldown
    | UndelegationBatchNotFound
    | UndelegationBatchNotReconciled
    | UndelegationEntryNotFound
    | ProtocolFeeAboveLimit
    | InvalidUnbondingPeriod
    | InvalidUndelegationCooldown
    | InvalidMinDeposit
    | InvalidMaxDeposit
    | Std
    | Panic

  datatype Result<+T> = Ok(value: T) | Err(error: Error) {
    predicate IsFailure() { Err? }

    function PropagateFailure<U>(): Result<U>
      requires Err?
    {
      Err(error)
    }

    function Extract(): T
      requires Ok?
    {
      value
    }

    function GetOr(default: T): T {
      if Ok? then value else default
    }
  }

  datatype Check = Pass | Fail(error: Error) {
    predicate IsFailure() { Fail? }

    function PropagateFailure<U>(): Result<U>
      requires Fail?
    {
      Err(error)
    }
  }

  function Need(condition: bool, error: Error): Check {
    if condition then Pass else Fail(error)
  }
}
