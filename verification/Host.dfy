/** What the Soroban host gives every contract: addresses, bounded integers with
    checked arithmetic, authorisation, and calls that answer, fail or trap. */
module Host {

  datatype Option<+T> = None | Some(value: T)

  datatype Address = Account(id: nat) | Contract(id: nat)

  /** A 32-byte identifier; the contracts only compare identifiers. */
  type Bytes32 = nat

  const I128_MIN: int := -0x8000_0000_0000_0000_0000_0000_0000_0000
  const I128_MAX: int := 0x7FFF_FFFF_FFFF_FFFF_FFFF_FFFF_FFFF_FFFF

  type i128 = x: int | I128_MIN <= x <= I128_MAX

  type u32 = x: int | 0 <= x <= 0xFFFF_FFFF

  function Checked(x: int): Option<i128> {
    if I128_MIN <= x <= I128_MAX then Some(x) else None
  }

  function CheckedAdd(a: i128, b: i128): Option<i128> { Checked(a + b) }

  function CheckedSub(a: i128, b: i128): Option<i128> { Checked(a - b) }

  function CheckedMul(a: i128, b: i128): Option<i128> { Checked(a * b) }

  /** The answer of a contract call. `Err` is a contract error code, `Trap` a host
      failure: a missing authorisation, or a failing call made without `try_`. */
  datatype Reply<+T, +E> = Ok(value: T) | Err(error: E) | Trap {
    predicate IsFailure() { !Ok? }

    function PropagateFailure<U>(): Reply<U, E>
      requires IsFailure()
    {
      match this
      case Err(e) => Err(e)
      case Trap => Trap
    }

    function Extract(): T
      requires Ok?
    {
      value
    }
  }

  /** The circumstances of one call: who signed it, which contract makes the call
      directly (if any), and the ledger sequence number. */
  datatype Env = Env(signers: set<Address>, invoker: Option<Address>, ledger: u32) {
    predicate Authorises(a: Address) {
      a in signers || invoker == Some(a)
    }

    /** The circumstances of a call that contract `caller` makes in turn. */
    function CalledBy(caller: Address): Env {
      this.(invoker := Some(caller))
    }
  }

  function RequireAuth<E>(env: Env, a: Address): Reply<(), E> {
    if env.Authorises(a) then Ok(()) else Trap
  }

  function Require<E>(condition: bool, error: E): Reply<(), E> {
    if condition then Ok(()) else Err(error)
  }

  function Flag(flags: map<Address, bool>, a: Address, default: bool): bool {
    if a in flags then flags[a] else default
  }
}
