/** Shared vocabulary: addresses, machine widths and the outcome of a call that may abort. */
module Prelude {

  /** A contract or account address. */
  type Addr = nat

  /** One past the largest `Uint128`. */
  const U128: nat := 0x1_0000_0000_0000_0000_0000_0000_0000_0000

  datatype Option<+T> = None | Some(value: T)

  /** The outcome of a handler. `Err` reverts the whole transaction. */
  datatype Result<+T> = Ok(value: T) | Err {
    predicate IsFailure() { Err? }

    function PropagateFailure<U>(): Result<U>
      requires Err?
    {
      Err
    }

    function Extract(): T
      requires Ok?
    {
      value
    }
  }

  /** Storage lookups with `unwrap_or_default` on an integer entry. */
  function Get<K>(m: map<K, nat>, k: K): nat {
    if k in m then m[k] else 0
  }

  /** `Uint128` addition: overflow aborts. */
  function AddU128(a: nat, b: nat): Result<nat> {
    if a + b < U128 then Ok(a + b) else Err
  }

  /** `checked_sub` followed by `?` or `unwrap`: underflow aborts. */
  function SubU128(a: nat, b: nat): Result<nat> {
    if b <= a then Ok(a - b) else Err
  }
}
