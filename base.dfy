/** Machine integers, account keys, error codes and instruction outcomes shared by
    both programs (`ali_pump_fun` and its twin `pump_fun`). */
module Base {

  /** 2^64: the modulus of Rust's `u64`. */
  const U64_MODULUS: nat := 0x1_0000_0000_0000_0000

  /** Largest `u64` value. */
  const U64_MAX: nat := U64_MODULUS - 1

  /** Rust `u64`: every stored amount and every instruction argument. */
  type u64 = x: int | 0 <= x < U64_MODULUS

  /** An account address, represented by its base58 text. The programs compare
      addresses both as keys and through `key().to_string()`; for 32-byte keys the
      two comparisons agree. */
  type Pubkey = string

  datatype Option<+T> = None | Some(value: T) {
    /** Rust's `Option::unwrap_or`. */
    function UnwrapOr(default: T): T {
      match this
      case Some(v) => v
      case None => default
    }
  }

  /** `PumpFunError` of both programs. The two enums share most codes; the comment
      names the program when a code exists in only one of them. */
  datatype PumpFunError =
    | Unauthorised
    | AlreadyBecameOwner
    | InvalidFee
    | InvalidTotalSupply
    | InvalidInitVirtBaseReserves
    | InvalidInitVirtQuoteReserves
    | InvalidRealQuoteThreshold
    | WrongBaseAmountOnCreation
    | BaseTokenMustNotBeMintable
    | BaseTokenMustNotBeFreezable
    | WrongQuoteAmount
    | WrongBaseAmount
    | InsufficientFund
    | UnknownQuoteMint      // ali_pump_fun only
    | UnknownToken          // pump_fun only
    | InvalidTokenPair
    | TooFewOutputTokens
    | TooMuchInputQuote     // ali_pump_fun only
    | TooLowOutputQuote     // ali_pump_fun only
    | BondingCurveIncomplete
    | BondingCurveComplete
    | BondingCurveAlreadyWithdrawn

  /** Why an instruction failed. Whatever the reason, the host discards every write
      the instruction made. */
  datatype Fault =
    | Program(code: PumpFunError)  // a `require!` or a `constraint = … @ PumpFunError::…`
    | ConstraintHasOne             // Anchor's `has_one` account check
    | AccountAlreadyInUse          // `init` of an address that already holds an account
    | AccountNotInitialized        // a required program account does not exist yet
    | ArithmeticPanic              // an overflowing `+`/`-`, or `unwrap()` of a failed checked operation

  datatype Result<+T> = Ok(value: T) | Err(fault: Fault)

  /** The state the host keeps after an instruction: the new state on success,
      the state before the instruction otherwise (roll-back). */
  function Committed<S, R>(before: S, outcome: Result<(S, R)>): (kept: S) {
    match outcome
    case Ok((after, _)) => after
    case Err(_) => before
  }

  /** What the caller of an instruction observes: its record on success, its fault otherwise. */
  function Reply<S, R>(outcome: Result<(S, R)>): (observed: Result<R>) {
    match outcome
    case Ok((_, reply)) => Ok(reply)
    case Err(f) => Err(f)
  }
}
