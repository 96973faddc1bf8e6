/**
 * The collectibles contract's error enum (tycoon-collectibles/src/errors.rs)
 * and the host-level panics its entry points can raise.
 */
module CollectibleErrors {
  import opened Ints

  datatype CollectibleError =
    | AlreadyInitialized
    | InsufficientBalance
    | InvalidAmount
    | Unauthorized
    | TokenIdMismatch
    | ContractPaused
    | InvalidPerk
    | InvalidStrength
  {
    /** The `#[repr(u32)]` discriminant the host reports. */
    function Code(): (c: u32)
      ensures 1 <= c <= 8
    {
      match this
      case AlreadyInitialized => 1
      case InsufficientBalance => 2
      case InvalidAmount => 3
      case Unauthorized => 4
      case TokenIdMismatch => 5
      case ContractPaused => 6
      case InvalidPerk => 7
      case InvalidStrength => 8
    }
  }

  /** Distinct errors reach the caller as distinct codes, so the code identifies the error. */
  lemma CodeInjective(a: CollectibleError, b: CollectibleError)
    ensures a.Code() == b.Code() <==> a == b
  {
  }

  /** Failures that are panics of the host, not values of the error enum. */
  datatype Trap =
    | AddOverflow            // a `u64` addition that does not fit
    | AdminNotSet            // `get_admin` unwraps an absent admin
    | AuthMissing(who: Address)  // `require_auth` of an address that did not sign

  /** Why an invocation failed. */
  datatype Fault = Error(error: CollectibleError) | Panic(trap: Trap)
}
