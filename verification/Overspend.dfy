/**
 The overspend bound is exact: for every peak and every tolerated overrun a run reaches it.
 */
module Overspend {
  import opened Amounts
  import opened Ledgers
  import opened Grants
  import LedgerInvariant
  import opened Spending

  // ---------- the peak of a composed run ----------

  lemma {:induction false} PeakConcat(l: Ledger, es: seq<Event>, fs: seq<Event>)
    ensures Peak(l, es + fs)
         == if Peak(l, es) >= Peak(Run(l, es), fs) then Peak(l, es) else Peak(Run(l, es), fs)
    decreases |es|
  {
    if es == [] {
      assert es + fs == fs;
      PeakCoversEnd(l, fs);
    } else {
      assert (es + fs)[0] == es[0] && (es + fs)[1..] == es[1..] + fs;
      PeakConcat(Apply(l, es[0]), es[1..], fs);
    }
  }

  lemma {:induction false} OverrunsConcat(l: Ledger, es: seq<Event>, fs: seq<Event>, eps: real)
    requires OverrunsWithin(l, es, eps) && OverrunsWithin(Run(l, es), fs, eps)
    ensures OverrunsWithin(l, es + fs, eps)
    decreases |es|
  {
    if es == [] {
      assert es + fs == fs;
    } else {
      assert (es + fs)[0] == es[0] && (es + fs)[1..] == es[1..] + fs;
      OverrunsConcat(Apply(l, es[0]), es[1..], fs, eps);
    }
  }

  // ---------- the family of runs ----------

  /** `n` reservations of `want`, then `n` commits of `actual`. */
  function Reserves(n: nat, want: Amount): seq<Event> {
    if n == 0 then [] else Reserves(n - 1, want) + [ReserveCall(want, 0.0)]
  }

  function CommitsFrom(first: nat, n: nat, actual: Amount): seq<Event>
    decreases n
  {
    if n == 0 then [] else [CommitCall(first, actual)] + CommitsFrom(first + 1, n - 1, actual)
  }

  ghost predicate Uniform(rs: seq<Reservation>, first: nat, n: nat, want: Amount) {
    |rs| == n && forall i :: 0 <= i < n ==> rs[i].id == first + i && rs[i].amount == want
  }

  lemma {:induction false} ReservesGrant(cap: Amount, ttl: real, n: nat, want: Amount)
    requires ValidRequest(want) && Fits(cap, want, n)
    ensures var l := Run(Fresh(cap, ttl), Reserves(n, want));
            && Uniform(l.active, 0, n, want)
            && l.reserved == Amount(n as real * want.cost, n as real * want.latency)
            && l.spent == ZERO && l.cap == cap && |l.issued| == n
  {
    if n > 0 {
      FitsFewer(cap, want, n, n - 1);
      ReservesGrant(cap, ttl, n - 1, want);
      RunConcat(Fresh(cap, ttl), Reserves(n - 1, want), [ReserveCall(want, 0.0)]);
      var l := Run(Fresh(cap, ttl), Reserves(n - 1, want));
      NextGrant(l, want, n - 1, 0.0);
      assert Run(l, [ReserveCall(want, 0.0)]) == Apply(l, ReserveCall(want, 0.0));
    }
  }

  lemma {:induction false} ReservesPeak(cap: Amount, ttl: real, n: nat, want: Amount, eps: real)
    requires ValidRequest(want) && Fits(cap, want, n)
    ensures Peak(Fresh(cap, ttl), Reserves(n, want)) == n
    ensures OverrunsWithin(Fresh(cap, ttl), Reserves(n, want), eps)
  {
    if n > 0 {
      FitsFewer(cap, want, n, n - 1);
      ReservesPeak(cap, ttl, n - 1, want, eps);
      ReservesGrant(cap, ttl, n - 1, want);
      ReservesGrant(cap, ttl, n, want);
      var last := ReserveCall(want, 0.0);
      RunConcat(Fresh(cap, ttl), Reserves(n - 1, want), [last]);
      OneMore(Run(Fresh(cap, ttl), Reserves(n - 1, want)), last, eps);
      PeakConcat(Fresh(cap, ttl), Reserves(n - 1, want), [last]);
      OverrunsConcat(Fresh(cap, ttl), Reserves(n - 1, want), [last], eps);
    }
  }

  lemma OneMore(l: Ledger, e: Event, eps: real)
    requires e.ReserveCall?
    ensures Peak(l, [e]) == |Run(l, [e]).active| && OverrunsWithin(l, [e], eps)
  {
    assert Run(l, [e]) == Run(Apply(l, e), []);
  }

  lemma CommitOldest(l: Ledger, actual: Amount)
    requires |l.active| > 0
    requires actual.cost <= l.active[0].amount.cost + COMMIT_EPS
    requires l.spent.latency + actual.latency <= l.cap.latency + COMMIT_EPS
    ensures var (l', reply) := Commit(l, l.active[0].id, actual);
            && reply == Settled
            && l'.active == l.active[1..] && l'.spent == Add(l.spent, actual) && l'.cap == l.cap
  {}

  /** Every commit in the run that names an active reservation succeeds. */
  predicate NeverRefused(l: Ledger, es: seq<Event>)
    decreases |es|
  {
    es == [] ||
    (&& (es[0].CommitCall? && Has(l.active, es[0].id) ==> Commit(l, es[0].id, es[0].actual).1 == Settled)
     && NeverRefused(Apply(l, es[0]), es[1..]))
  }

  lemma {:induction false} NoCommitNeverRefused(l: Ledger, es: seq<Event>, fs: seq<Event>)
    requires forall i :: 0 <= i < |es| ==> !es[i].CommitCall?
    requires NeverRefused(Run(l, es), fs)
    ensures NeverRefused(l, es + fs)
    decreases |es|
  {
    if es == [] {
      assert es + fs == fs;
    } else {
      assert (es + fs)[0] == es[0] && (es + fs)[1..] == es[1..] + fs;
      NoCommitNeverRefused(Apply(l, es[0]), es[1..], fs);
    }
  }

  lemma {:induction false} CommitsSettle(l: Ledger, first: nat, n: nat, want: Amount, actual: Amount, eps: real)
    requires Uniform(l.active, first, n, want) && eps <= COMMIT_EPS
    requires actual.cost <= want.cost + eps && actual.latency == 0.0
    requires l.spent.latency <= l.cap.latency
    ensures var es := CommitsFrom(first, n, actual);
            && Run(l, es).active == [] && Run(l, es).spent.cost == l.spent.cost + Times(n, actual.cost)
            && Peak(l, es) == n && OverrunsWithin(l, es, eps) && NeverRefused(l, es)
    decreases n
  {
    if n > 0 {
      assert l.active[0].id == first && l.active[0].amount == want;
      CommitOldest(l, actual);
      var l' := Apply(l, CommitCall(first, actual));
      var es := CommitsFrom(first + 1, n - 1, actual);
      assert CommitsFrom(first, n, actual)[1..] == es;
      CommitsSettle(l', first + 1, n - 1, want, actual, eps);
    }
  }

  /** An equal share of all the money that admission can be made to hand out. */
  function Share(cap: Amount, n: nat): Amount
    requires n > 0
  {
    Amount((cap.cost + ADMIT_EPS) / n as real, 0.0)
  }

  lemma SharesFit(cap: Amount, n: nat, eps: real)
    requires cap.cost > 0.0 && cap.latency >= 0.0 && n > 0
    ensures ValidRequest(Share(cap, n)) && Fits(cap, Share(cap, n), n)
    ensures Times(n, Share(cap, n).cost + eps) == cap.cost + ADMIT_EPS + n as real * eps
  {
    var share := Share(cap, n).cost;
    assert n as real * share == cap.cost + ADMIT_EPS;
    TimesIsProduct(n, share + eps);
    assert n as real * (share + eps) == n as real * share + n as real * eps;
  }

  function Spends(cap: Amount, n: nat, eps: real): Amount
    requires n > 0
  {
    Amount(Share(cap, n).cost + eps, 0.0)
  }

  /** A run in which `n` handlers reserve equal shares and each overruns its share by `eps`. */
  function Overrun(cap: Amount, n: nat, eps: real): seq<Event>
    requires n > 0
  {
    Reserves(n, Share(cap, n)) + CommitsFrom(0, n, Spends(cap, n, eps))
  }

  lemma {:induction false} NoCommits(n: nat, want: Amount)
    ensures forall i :: 0 <= i < |Reserves(n, want)| ==> !Reserves(n, want)[i].CommitCall?
  {
    if n > 0 { NoCommits(n - 1, want); }
  }

  /**
   The bound is reached, for every peak `n` and every tolerated overrun `eps`: all commits are
   accepted, and the run leaves the ledger overspent by exactly what OverspendWithin allows.
   */
  lemma OverspendReached(cap: Amount, ttl: real, n: nat, eps: real)
    requires cap.cost > 0.0 && cap.latency >= 0.0 && n > 0 && 0.0 <= eps <= 0.000000001
    ensures var l0, es := Fresh(cap, ttl), Overrun(cap, n, eps);
            && Peak(l0, es) == n && OverrunsWithin(l0, es, eps) && NeverRefused(l0, es)
            && Run(l0, es).active == []
            && Run(l0, es).spent.cost == cap.cost + 0.000000000001 + n as real * eps
  {
    var l0, share, actual := Fresh(cap, ttl), Share(cap, n), Spends(cap, n, eps);
    var es, fs := Reserves(n, share), CommitsFrom(0, n, actual);
    SharesFit(cap, n, eps);
    ReservesGrant(cap, ttl, n, share);
    ReservesPeak(cap, ttl, n, share, eps);
    CommitsSettle(Run(l0, es), 0, n, share, actual, eps);
    RunConcat(l0, es, fs);
    PeakConcat(l0, es, fs);
    OverrunsConcat(l0, es, fs, eps);
    NoCommits(n, share);
    NoCommitNeverRefused(l0, es, fs);
  }

  // ---------- what the cap is worth ----------

  /** At most `n` reservations at once, and no accepted overrun above `eps`. */
  predicate Disciplined(cap: Amount, ttl: real, es: seq<Event>, n: nat, eps: real) {
    Peak(Fresh(cap, ttl), es) <= n && OverrunsWithin(Fresh(cap, ttl), es, eps)
  }

  ghost predicate Overspends(cap: Amount, ttl: real, es: seq<Event>, slack: real) {
    var l := Run(Fresh(cap, ttl), es); l.spent.cost + l.reserved.cost > cap.cost + slack
  }

  /**
   How hard the cap is: runs of that discipline stay within `slack` of it exactly when the slack
   covers the admission tolerance and `n` overruns.  Without slack no discipline keeps the cap.
   */
  lemma CapWorth(cap: Amount, ttl: real, n: nat, eps: real, slack: real)
    requires cap.cost > 0.0 && cap.latency >= 0.0 && n > 0 && 0.0 <= eps <= 0.000000001
    ensures (forall es :: Disciplined(cap, ttl, es, n, eps) ==> !Overspends(cap, ttl, es, slack))
       <==> n as real * eps + 0.000000000001 <= slack
  {
    var worst := Overrun(cap, n, eps);
    OverspendReached(cap, ttl, n, eps);
    LedgerIsEmpty(cap, ttl, worst);
    assert Disciplined(cap, ttl, worst, n, eps);
    if n as real * eps + ADMIT_EPS <= slack {
      forall es | Disciplined(cap, ttl, es, n, eps) ensures !Overspends(cap, ttl, es, slack) {
        OverspendWithin(cap, ttl, es, n, eps);
        Fewer(n, |Run(Fresh(cap, ttl), es).active|, eps);
      }
    } else {
      assert Overspends(cap, ttl, worst, slack);
    }
  }

  lemma Fewer(n: nat, k: nat, eps: real)
    requires k <= n && eps >= 0.0
    ensures (n - k) as real * eps <= n as real * eps
  {}

  lemma LedgerIsEmpty(cap: Amount, ttl: real, es: seq<Event>)
    requires Run(Fresh(cap, ttl), es).active == []
    ensures Run(Fresh(cap, ttl), es).reserved == ZERO
  {
    LedgerInvariant.FreshInv(cap, ttl);
    LedgerInvariant.RunInv(Fresh(cap, ttl), es);
  }
}
