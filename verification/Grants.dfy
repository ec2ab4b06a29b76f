/**
 Exactly how many of N identical requests a fresh manager grants.
 */
module Grants {
  import opened Amounts
  import opened Ledgers

  /** Grants among successive identical calls, one per clock reading, nothing settled between. */
  function GrantCount(l: Ledger, want: Amount, clock: seq<real>): nat
    decreases |clock|
  {
    if clock == [] then 0
    else
      var (l', reply) := TryReserve(l, want, clock[0]);
      (if reply.Granted? then 1 else 0) + GrantCount(l', want, clock[1..])
  }

  /** How many of `n` equal shares fit into a budget. */
  function Quota(budget: real, share: real, n: nat): nat
    requires share >= 0.0
  {
    if share == 0.0 then (if budget + ADMIT_EPS >= 0.0 then n else 0)
    else
      var whole := ((budget + ADMIT_EPS) / share).Floor;
      if whole < 0 then 0 else whole
  }

  function Min(a: nat, b: nat): nat {
    if a <= b then a else b
  }

  ghost predicate Fits(cap: Amount, want: Amount, k: nat) {
    && k as real * want.cost <= cap.cost + ADMIT_EPS
    && k as real * want.latency <= cap.latency + ADMIT_EPS
  }

  lemma {:induction false} QuotaFits(budget: real, share: real, n: nat, k: nat)
    requires share >= 0.0 && 1 <= k <= n
    ensures k <= Quota(budget, share, n) <==> k as real * share <= budget + ADMIT_EPS
  {
    if share > 0.0 {
      var q := (budget + ADMIT_EPS) / share;
      assert q * share == budget + ADMIT_EPS;
      if k as real <= q {
        assert k as real * share <= q * share;
      } else {
        assert k as real * share > q * share;
      }
    } else {
      assert k as real * share == 0.0;
    }
  }

  /** The state after `k` grants: the next call is granted exactly when one more share fits. */
  lemma NextGrant(l: Ledger, want: Amount, k: nat, now: real)
    requires ValidRequest(want) && l.spent == ZERO
    requires l.reserved == Amount(k as real * want.cost, k as real * want.latency)
    ensures var (l', reply) := TryReserve(l, want, now);
            && (reply.Granted? <==> Fits(l.cap, want, k + 1))
            && l'.spent == ZERO && l'.cap == l.cap
            && (reply.Granted? ==>
                  l'.reserved == Amount((k + 1) as real * want.cost, (k + 1) as real * want.latency))
            && (!reply.Granted? ==> l' == l)
  {
    assert (k + 1) as real * want.cost == k as real * want.cost + want.cost;
    assert (k + 1) as real * want.latency == k as real * want.latency + want.latency;
  }

  lemma FitsFewer(cap: Amount, want: Amount, k: nat, j: nat)
    requires want.NonNegative() && j <= k && Fits(cap, want, k)
    ensures Fits(cap, want, j)
  {
    assert j as real * want.cost <= k as real * want.cost;
    assert j as real * want.latency <= k as real * want.latency;
  }

  lemma {:induction false} CountFrom(l: Ledger, want: Amount, k: nat, clock: seq<real>)
    requires ValidRequest(want) && l.spent == ZERO
    requires l.reserved == Amount(k as real * want.cost, k as real * want.latency)
    ensures var m := GrantCount(l, want, clock);
            && m <= |clock|
            && (m > 0 ==> Fits(l.cap, want, k + m))
            && (m < |clock| ==> !Fits(l.cap, want, k + m + 1))
    decreases |clock|
  {
    if clock != [] {
      NextGrant(l, want, k, clock[0]);
      var (l', reply) := TryReserve(l, want, clock[0]);
      if reply.Granted? {
        CountFrom(l', want, k + 1, clock[1..]);
      } else {
        CountFrom(l, want, k, clock[1..]);
        if GrantCount(l, want, clock[1..]) > 0 {
          FitsFewer(l.cap, want, k + GrantCount(l, want, clock[1..]), k + 1);
        }
      }
    }
  }

  lemma FitsQuotas(cap: Amount, want: Amount, n: nat, k: nat)
    requires want.NonNegative() && 1 <= k <= n
    ensures Fits(cap, want, k)
       <==> k <= Quota(cap.cost, want.cost, n) && k <= Quota(cap.latency, want.latency, n)
  {
    QuotaFits(cap.cost, want.cost, n, k);
    QuotaFits(cap.latency, want.latency, n, k);
  }

  lemma LargestWithin(n: nat, m: nat, q: nat, r: nat)
    requires m <= n && (m > 0 ==> m <= q && m <= r) && (m < n ==> !(m + 1 <= q && m + 1 <= r))
    ensures m == Min(n, Min(q, r))
  {}

  /**
   N identical calls on a fresh manager are granted as often as whole shares fit into both
   budgets, whoever the callers are and whenever they call.
   */
  lemma ExactGrantCount(cap: Amount, ttl: real, want: Amount, clock: seq<real>)
    requires ValidRequest(want)
    ensures GrantCount(Fresh(cap, ttl), want, clock)
         == Min(|clock|, Min(Quota(cap.cost, want.cost, |clock|), Quota(cap.latency, want.latency, |clock|)))
  {
    var n, m := |clock|, GrantCount(Fresh(cap, ttl), want, clock);
    CountFrom(Fresh(cap, ttl), want, 0, clock);
    if m > 0 { FitsQuotas(cap, want, n, m); }
    if m < n { FitsQuotas(cap, want, n, m + 1); }
    LargestWithin(n, m, Quota(cap.cost, want.cost, n), Quota(cap.latency, want.latency, n));
  }
}
