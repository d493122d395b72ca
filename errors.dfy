/** Outcome types shared by the whole pool model. */
module Errors {

  datatype Option<+T> = None | Some(value: T) {

    /** `Option::unwrap_or` */
    function GetOr(default: T): T {
      if Some? then value else default
    }
  }

  /** The contract's error kinds. Where the source panics (an `.expect`, an
      `.unwrap()`, an unchecked `-`, a `Decimal` that does not fit) the model
      returns the error kind that the abort stands for, so that every failure
      is an explicit value and the whole call is rejected atomically. */
  datatype ContractError =
    | AssetMismatch
    | InvalidZeroAmount
    | InvalidInitialLiquidityAmount(minimum: nat)
    | Overflow                        // checked arithmetic failed (or an unchecked one would panic)
    | DivideByZero                    // `Decimal::from_ratio` with a zero denominator
    | OperationDisabled(operation: string)
    | Unauthorized
    | Std(message: string)            // a generic `StdError`
    | FeesNotFound(assetId: string)   // `get_fees_for_asset` found no entry
    | WrongAssetInfo                  // the deposit lookup of `provide_liquidity` found no asset
    | SolverFailure                   // an `.unwrap()` on a solver result that was `None`
    | InvalidFee                      // `PoolFee::is_valid` refused a fee schedule

  /** Success or failure; usable with `:-`. */
  datatype Result<+T> = Success(value: T) | Failure(error: ContractError) {

    predicate IsFailure() {
      Failure?
    }

    function PropagateFailure<U>(): Result<U>
      requires Failure?
    {
      Failure(error)
    }

    function Extract(): T
      requires Success?
    {
      value
    }
  }

  /** The outcome of an assertion helper that returns `Result<(), ContractError>`. */
  datatype Check = Pass | Fail(error: ContractError)
}
