/**
 The two resources the ledger tracks, money and latency, move together in
 every operation.  An Amount carries one figure of each.
 */
module Amounts {

  datatype Amount = Amount(cost: real, latency: real) {

    predicate NonNegative() {
      cost >= 0.0 && latency >= 0.0
    }

    predicate AtMost(other: Amount) {
      cost <= other.cost && latency <= other.latency
    }
  }

  const ZERO := Amount(0.0, 0.0)

  /** Slack granted when a reservation is admitted (1e-12). */
  const ADMIT_EPS: real := 0.000000000001

  /** Slack granted when a reservation is committed (1e-9). */
  const COMMIT_EPS: real := 0.000000001

  function Add(a: Amount, b: Amount): Amount {
    Amount(a.cost + b.cost, a.latency + b.latency)
  }

  function Subtract(a: Amount, b: Amount): Amount {
    Amount(a.cost - b.cost, a.latency - b.latency)
  }

  function Max(x: real, y: real): real {
    if x >= y then x else y
  }

  function Abs(x: real): real {
    if x >= 0.0 then x else -x
  }

  /** `max(0.0, ...)` applied to each resource. */
  function Clamp(a: Amount): Amount {
    Amount(Max(0.0, a.cost), Max(0.0, a.latency))
  }

  /** `x` added up `n` times: n times x, in the form the inductions follow. */
  function Times(n: nat, x: real): real {
    if n == 0 then 0.0 else x + Times(n - 1, x)
  }

  lemma {:induction false} TimesIsProduct(n: nat, x: real)
    ensures Times(n, x) == n as real * x
  {
    if n > 0 {
      TimesIsProduct(n - 1, x);
      assert n as real == 1.0 + (n - 1) as real;
      assert n as real * x == x + (n - 1) as real * x;
    }
  }
}
