/** Shared vocabulary of the two contracts: account addresses and the
    failure-carrying results their entry points return. */
module Ledger {
  /** An account address (an externally owned account or a contract). */
  type Address = nat

  /** One ether in wei, the integer unit value is counted in. */
  const WEI_PER_ETHER: nat := 1_000_000_000_000_000_000

  datatype Option<T> = None | Some(value: T)

  /** A call that either returns a value or reverts with an error. */
  datatype Result<T, E> = Success(value: T) | Failure(error: E)

  /** A call that returns nothing or reverts with an error. */
  datatype Outcome<E> = Pass | Fail(error: E)

  /** No address occurs twice. */
  predicate Distinct(s: seq<Address>)
  {
    forall i, j :: 0 <= i < j < |s| ==> s[i] != s[j]
  }
}
