/**
 * Values shared by the product registry: who calls, what is stored, and how a
 * call can fail.
 */
module Types {

  /** An account identifier (near_sdk's AccountId is a string). */
  type Principal = string

  /** A role name; the role namespace is open, any string names a role. */
  type Role = string

  const U128_LIMIT: int := 0x1_0000_0000_0000_0000_0000_0000_0000_0000
  const U8_LIMIT: int := 0x100

  /** Rust's `u128`: no arithmetic is done on it, only its range matters. */
  type U128 = n: int | 0 <= n < U128_LIMIT

  /** Rust's `u8`. */
  type U8 = n: int | 0 <= n < U8_LIMIT

  /** A stored product. No field is validated: an empty name, a zero price and a zero stock are all legal. */
  datatype Item = Item(name: string, price: U128, stock: U8)

  datatype Option<+T> = None | Some(value: T)

  /** The ways a call aborts. Every abort leaves the stored state as it was. */
  datatype Error =
    | AlreadyInitialized  // `new` on storage that already holds the contract state
    | NotInitialized      // any other call before `new`: loading the state falls back to the panicking Default
    | NotOwner            // the owner assertion failed
    | Unauthorized        // the caller lacks the role the operation is gated by

  datatype Result<+T> = Ok(value: T) | Err(error: Error)

  /** The result of a call that returns nothing on success. */
  datatype Outcome = Pass | Fail(error: Error)

  /**
   * The panic message a failed call reports. The owner assertion lives in a
   * library outside this model, so its message is not given here.
   */
  function Message(e: Error): (m: Option<string>)
    ensures m == Some("401") <==> e.Unauthorized?
    ensures m.None? <==> e.NotOwner?
  {
    match e
    case AlreadyInitialized => Some("The contract is already initialized")
    case NotInitialized => Some("Product contract should be initialized before usage")
    case NotOwner => None
    case Unauthorized => Some("401")
  }
}
