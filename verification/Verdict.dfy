/**
 What the metrics endpoint reports and the verdict the load generator draws from it.
 */
module Verdicts {
  import opened Amounts
  import opened Ledgers
  import opened LedgerInvariant
  import opened Overspend
  import opened Spending

  datatype Metrics = Metrics(
    cost: real,
    reserved: real,
    latency: real,
    reservedLatency: real,
    activeLocal: nat,
    activeReservations: nat)

  /** Slack the load generator grants (1e-9). */
  const VERDICT_EPS: real := 0.000000001

  /** `math.isclose(v, 0.0, abs_tol=1e-9)` with its default relative tolerance of 1e-9. */
  predicate IsCloseToZero(v: real) {
    Abs(v) <= Max(VERDICT_EPS * Abs(v), VERDICT_EPS)
  }

  function Clean(v: real): real {
    if IsCloseToZero(v) then 0.0 else v
  }

  function Observe(l: Ledger, activeLocal: nat): Metrics {
    Metrics(Clean(l.spent.cost), Clean(l.reserved.cost), Clean(l.spent.latency),
            Clean(l.reserved.latency), activeLocal, |l.active|)
  }

  predicate Passes(m: Metrics, maxBudget: real, maxLatency: real) {
    && !(m.cost > maxBudget + VERDICT_EPS)
    && IsCloseToZero(m.reserved)
    && m.activeReservations == 0
    && m.activeLocal == 0
    && IsCloseToZero(m.reservedLatency)
    && !(m.latency > maxLatency + VERDICT_EPS)
  }

  /**
   In every reachable state the verdict says exactly this: no reservation and no slot is
   outstanding, and the money committed is within the cap by one commit tolerance.  The
   latency it also looks at can never fail it.
   */
  lemma VerdictMeaning(cap: Amount, ttl: real, es: seq<Event>, activeLocal: nat)
    requires cap.NonNegative()
    ensures var l := Run(Fresh(cap, ttl), es);
            Passes(Observe(l, activeLocal), cap.cost, cap.latency)
            <==> l.active == [] && activeLocal == 0 && l.spent.cost <= cap.cost + 0.000000001
  {
    Conservation(cap, ttl, es);
    OverspendBounded(cap, ttl, es);
  }

  // ---------- well-behaved backends ----------

  /** No commit of an active reservation reports more than was reserved, on either resource. */
  predicate WellBehaved(l: Ledger, es: seq<Event>)
    decreases |es|
  {
    es == [] ||
    (&& (es[0].CommitCall? && Has(l.active, es[0].id) ==>
           es[0].actual.AtMost(Lookup(l.active, es[0].id).amount))
     && WellBehaved(Apply(l, es[0]), es[1..]))
  }

  ghost predicate WithinCaps(l: Ledger) {
    && l.spent.cost + l.reserved.cost <= l.cap.cost + ADMIT_EPS
    && l.spent.latency + l.reserved.latency <= l.cap.latency + ADMIT_EPS
  }

  lemma {:induction false} SweepWithinCaps(l: Ledger, todo: seq<Reservation>, clock: seq<real>)
    requires Inv(l) && WithinCaps(l) && |clock| == |todo| && Ordered(todo)
    requires forall r :: r in todo ==> r in l.active
    ensures WithinCaps(SweepOver(l, todo, clock).0)
    decreases |todo|
  {
    if todo != [] {
      if Expired(todo[0], clock[0]) {
        ReleaseHead(l, todo);
        RestIsHeld(l, todo[0].id);
        SweepWithinCaps(Release(l, todo[0]), todo[1..], clock[1..]);
      } else {
        SweepWithinCaps(l, todo[1..], clock[1..]);
      }
    }
  }

  /** A commit within its reservation frees at least what it spends, so neither guard refuses it. */
  lemma CommitWithinCaps(l: Ledger, id: nat, actual: Amount)
    requires Inv(l) && WithinCaps(l) && Has(l.active, id) && actual.AtMost(Lookup(l.active, id).amount)
    ensures Commit(l, id, actual).1 == Settled && WithinCaps(Commit(l, id, actual).0)
  {
    var r := Lookup(l.active, id);
    HeldNonNegative(l.active);
    RestIsHeld(l, id);
    assert r.amount.AtMost(l.reserved);
    assert l.spent.latency + actual.latency <= l.cap.latency + COMMIT_EPS;
  }

  lemma StepWithinCaps(l: Ledger, e: Event)
    requires Inv(l) && WithinCaps(l) && WellBehaved(l, [e])
    ensures WithinCaps(Apply(l, e)) && NeverRefused(l, [e])
  {
    match e
    case ReserveCall(want, now) =>
    case CommitCall(id, actual) =>
      if Has(l.active, id) { CommitWithinCaps(l, id, actual); }
    case RollbackCall(id) =>
      if Has(l.active, id) { RestIsHeld(l, id); }
    case SweepCall(clock) =>
      if |clock| == |l.active| { SweepWithinCaps(l, l.active, clock); }
  }

  lemma {:induction false} RunWithinCaps(l: Ledger, es: seq<Event>)
    requires Inv(l) && WithinCaps(l) && WellBehaved(l, es)
    ensures WithinCaps(Run(l, es)) && NeverRefused(l, es)
    decreases |es|
  {
    if es != [] {
      assert WellBehaved(l, [es[0]]);
      StepWithinCaps(l, es[0]);
      ApplyInv(l, es[0]);
      RunWithinCaps(Apply(l, es[0]), es[1..]);
    }
  }

  lemma FreshWithinCaps(cap: Amount, ttl: real)
    requires cap.NonNegative()
    ensures WithinCaps(Fresh(cap, ttl))
  {}

  /** Spending within the caps leaves the verdict nothing to object to. */
  lemma QuietPasses(cap: Amount, ttl: real, es: seq<Event>)
    requires cap.NonNegative()
    requires var l := Run(Fresh(cap, ttl), es); WithinCaps(l) && l.active == []
    ensures Passes(Observe(Run(Fresh(cap, ttl), es), 0), cap.cost, cap.latency)
  {
    VerdictMeaning(cap, ttl, es, 0);
    CapFixed(Fresh(cap, ttl), es);
    LedgerIsEmpty(cap, ttl, es);
  }

  /**
   Backends that stay within their reservations are never refused, keep committed plus
   reserved within both caps by the admission tolerance alone, and pass the verdict
   whenever nothing is outstanding.
   */
  lemma WellBehavedNeverRefused(cap: Amount, ttl: real, es: seq<Event>)
    requires cap.NonNegative() && WellBehaved(Fresh(cap, ttl), es)
    ensures var l := Run(Fresh(cap, ttl), es);
            && NeverRefused(Fresh(cap, ttl), es)
            && l.spent.cost + l.reserved.cost <= cap.cost + 0.000000000001
            && l.spent.latency + l.reserved.latency <= cap.latency + 0.000000000001
            && (l.active == [] ==> Passes(Observe(l, 0), cap.cost, cap.latency))
  {
    FreshInv(cap, ttl);
    FreshWithinCaps(cap, ttl);
    RunWithinCaps(Fresh(cap, ttl), es);
    CapFixed(Fresh(cap, ttl), es);
    if Run(Fresh(cap, ttl), es).active == [] { QuietPasses(cap, ttl, es); }
  }

  // ---------- backends that overrun ----------

  ghost predicate QuiescentPasses(cap: Amount, ttl: real, es: seq<Event>) {
    var l := Run(Fresh(cap, ttl), es);
    l.active == [] ==> Passes(Observe(l, 0), cap.cost, cap.latency)
  }

  /** Overruns and the admission tolerance that fit into the verdict's tolerance pass it at rest. */
  lemma DisciplinedPasses(cap: Amount, ttl: real, es: seq<Event>, n: nat, eps: real)
    requires cap.NonNegative() && eps >= 0.0 && n as real * eps + 0.000000000001 <= 0.000000001
    requires Disciplined(cap, ttl, es, n, eps)
    ensures QuiescentPasses(cap, ttl, es)
  {
    if Run(Fresh(cap, ttl), es).active == [] {
      OverspendWithin(cap, ttl, es, n, eps);
      VerdictMeaning(cap, ttl, es, 0);
      LedgerIsEmpty(cap, ttl, es);
    }
  }

  /**
   When the verdict can be relied on: with at most `n` reservations at once, each overrun by at
   most `eps`, every quiescent state passes exactly when `n` overruns and the admission
   tolerance fit into the verdict's own tolerance.
   */
  lemma VerdictExact(cap: Amount, ttl: real, n: nat, eps: real)
    requires cap.cost > 0.0 && cap.latency >= 0.0 && 0.0 <= eps <= 0.000000001
    ensures (forall es :: Disciplined(cap, ttl, es, n, eps) ==> QuiescentPasses(cap, ttl, es))
       <==> n as real * eps + 0.000000000001 <= 0.000000001
  {
    if n as real * eps + ADMIT_EPS <= COMMIT_EPS {
      forall es | Disciplined(cap, ttl, es, n, eps) ensures QuiescentPasses(cap, ttl, es) {
        DisciplinedPasses(cap, ttl, es, n, eps);
      }
    } else {
      var worst := Overrun(cap, n, eps);
      OverspendReached(cap, ttl, n, eps);
      VerdictMeaning(cap, ttl, worst, 0);
      assert Disciplined(cap, ttl, worst, n, eps) && !QuiescentPasses(cap, ttl, worst);
    }
  }

  /** In particular a single accepted commit, of a reservation that used the admission tolerance, can fail it. */
  lemma VerdictCanFail(cap: Amount, ttl: real, n: nat)
    requires cap.cost > 0.0 && cap.latency >= 0.0 && n > 0
    ensures var l0, es := Fresh(cap, ttl), Overrun(cap, n, COMMIT_EPS);
            && NeverRefused(l0, es) && Run(l0, es).active == []
            && !Passes(Observe(Run(l0, es), 0), cap.cost, cap.latency)
  {
    OverspendReached(cap, ttl, n, COMMIT_EPS);
    VerdictMeaning(cap, ttl, Overrun(cap, n, COMMIT_EPS), 0);
  }
}
