/**
 How much can be spent: the overspend bound, and exhaustion.
 */
module Spending {
  import opened Amounts
  import opened Ledgers
  import opened LedgerInvariant
  import opened Settlement

  /** The largest number of simultaneously active reservations along a run. */
  function Peak(l: Ledger, es: seq<Event>): nat
    decreases |es|
  {
    var rest := if es == [] then 0 else Peak(Apply(l, es[0]), es[1..]);
    if |l.active| >= rest then |l.active| else rest
  }

  /** Every accepted commit in the run overruns its reserved cost by at most `eps`. */
  predicate OverrunsWithin(l: Ledger, es: seq<Event>, eps: real)
    decreases |es|
  {
    es == [] ||
    (&& (es[0].CommitCall? && Has(l.active, es[0].id) && Commit(l, es[0].id, es[0].actual).1 == Settled ==>
           es[0].actual.cost <= Lookup(l.active, es[0].id).amount.cost + eps)
     && OverrunsWithin(Apply(l, es[0]), es[1..], eps))
  }

  ghost predicate WithinBound(l: Ledger, peak: nat, eps: real) {
    && |l.active| <= peak
    && l.spent.cost + l.reserved.cost <= l.cap.cost + ADMIT_EPS + Times(peak - |l.active|, eps)
    && l.spent.latency <= l.cap.latency + COMMIT_EPS
  }

  lemma {:induction false} TimesNonNegative(n: nat, x: real)
    requires x >= 0.0
    ensures Times(n, x) >= 0.0
  {
    if n > 0 { TimesNonNegative(n - 1, x); }
  }

  lemma ReleaseBound(l: Ledger, r: Reservation, peak: nat, eps: real)
    requires Inv(l) && WithinBound(l, peak, eps) && r in l.active && eps >= 0.0
    ensures WithinBound(Release(l, r), peak, eps)
  {
    ReleaseInv(l, r);
    RestIsHeld(l, r.id);
    HeldWithout(l.active, r.id);
  }

  lemma {:induction false} SweepBound(l: Ledger, todo: seq<Reservation>, clock: seq<real>, peak: nat, eps: real)
    requires Inv(l) && WithinBound(l, peak, eps) && |clock| == |todo| && Ordered(todo) && eps >= 0.0
    requires forall r :: r in todo ==> r in l.active
    ensures WithinBound(SweepOver(l, todo, clock).0, peak, eps)
    decreases |todo|
  {
    if todo != [] {
      if Expired(todo[0], clock[0]) {
        ReleaseHead(l, todo);
        ReleaseBound(l, todo[0], peak, eps);
        SweepBound(Release(l, todo[0]), todo[1..], clock[1..], peak, eps);
      } else {
        SweepBound(l, todo[1..], clock[1..], peak, eps);
      }
    }
  }

  lemma CommitBound(l: Ledger, id: nat, actual: Amount, peak: nat, eps: real)
    requires Inv(l) && WithinBound(l, peak, eps) && Has(l.active, id) && eps >= 0.0
    requires Commit(l, id, actual).1 == Settled ==> actual.cost <= Lookup(l.active, id).amount.cost + eps
    ensures WithinBound(Commit(l, id, actual).0, peak, eps)
  {
    var r := Lookup(l.active, id);
    RestIsHeld(l, id);
    HeldWithout(l.active, id);
    if Commit(l, id, actual).1 != Settled { ReleaseBound(l, r, peak, eps); }
  }

  lemma StepBound(l: Ledger, e: Event, peak: nat, eps: real)
    requires Inv(l) && WithinBound(l, peak, eps) && |Apply(l, e).active| <= peak
    requires eps >= 0.0 && OverrunsWithin(l, [e], eps)
    ensures WithinBound(Apply(l, e), peak, eps)
  {
    match e
    case ReserveCall(want, now) =>
      TimesNonNegative(peak - |Apply(l, e).active|, eps);
    case CommitCall(id, actual) =>
      if Has(l.active, id) { CommitBound(l, id, actual, peak, eps); }
    case RollbackCall(id) =>
      if Has(l.active, id) { ReleaseBound(l, Lookup(l.active, id), peak, eps); }
    case SweepCall(clock) =>
      if |clock| == |l.active| { SweepBound(l, l.active, clock, peak, eps); }
  }

  lemma {:induction false} RunBound(l: Ledger, es: seq<Event>, peak: nat, eps: real)
    requires Inv(l) && WithinBound(l, peak, eps) && Peak(l, es) <= peak
    requires eps >= 0.0 && OverrunsWithin(l, es, eps)
    ensures WithinBound(Run(l, es), peak, eps)
    decreases |es|
  {
    if es != [] {
      StepBound(l, es[0], peak, eps);
      ApplyInv(l, es[0]);
      RunBound(Apply(l, es[0]), es[1..], peak, eps);
    }
  }

  lemma {:induction false} PeakCoversEnd(l: Ledger, es: seq<Event>)
    ensures |l.active| <= Peak(l, es) && |Run(l, es).active| <= Peak(l, es)
    decreases |es|
  {
    if es != [] { PeakCoversEnd(Apply(l, es[0]), es[1..]); }
  }

  /**
   Overspend does not accumulate: a run with at most `peak` simultaneous reservations, whose
   accepted commits each overrun by at most `eps`, overspends by at most that much for each of
   the peak reservations already settled, plus the admission tolerance, however many commits ran.
   */
  lemma OverspendWithin(cap: Amount, ttl: real, es: seq<Event>, peak: nat, eps: real)
    requires cap.NonNegative() && eps >= 0.0
    requires Peak(Fresh(cap, ttl), es) <= peak && OverrunsWithin(Fresh(cap, ttl), es, eps)
    ensures var l := Run(Fresh(cap, ttl), es);
            && |l.active| <= peak
            && l.spent.cost + l.reserved.cost <= cap.cost + 0.000000000001 + (peak - |l.active|) as real * eps
            && l.spent.latency <= cap.latency + 0.000000001
  {
    var l := Run(Fresh(cap, ttl), es);
    FreshInv(cap, ttl);
    TimesNonNegative(peak, eps);
    RunBound(Fresh(cap, ttl), es, peak, eps);
    CapFixed(Fresh(cap, ttl), es);
    TimesIsProduct(peak - |l.active|, eps);
  }

  /** The manager itself accepts no greater overrun than the commit tolerance. */
  lemma {:induction false} OverrunsTolerated(l: Ledger, es: seq<Event>)
    ensures OverrunsWithin(l, es, COMMIT_EPS)
    decreases |es|
  {
    if es != [] { OverrunsTolerated(Apply(l, es[0]), es[1..]); }
  }

  /** The manager's own tolerance, for any declared peak. */
  lemma OverspendUpTo(cap: Amount, ttl: real, es: seq<Event>, peak: nat)
    requires cap.NonNegative() && Peak(Fresh(cap, ttl), es) <= peak
    ensures var l := Run(Fresh(cap, ttl), es);
            && |l.active| <= peak
            && l.spent.cost + l.reserved.cost
               <= cap.cost + 0.000000000001 + 0.000000001 * (peak - |l.active|) as real
            && l.spent.latency <= cap.latency + 0.000000001
  {
    OverrunsTolerated(Fresh(cap, ttl), es);
    OverspendWithin(cap, ttl, es, peak, COMMIT_EPS);
  }

  /** So every run whatever is within the commit tolerance for each of its peak reservations. */
  lemma OverspendBounded(cap: Amount, ttl: real, es: seq<Event>)
    requires cap.NonNegative()
    ensures var l := Run(Fresh(cap, ttl), es);
            var peak := Peak(Fresh(cap, ttl), es);
            && |l.active| <= peak
            && l.spent.cost + l.reserved.cost
               <= cap.cost + 0.000000000001 + 0.000000001 * (peak - |l.active|) as real
            && l.spent.latency <= cap.latency + 0.000000001
  {
    OverspendUpTo(cap, ttl, es, Peak(Fresh(cap, ttl), es));
  }

  lemma {:induction false} CapFixed(l: Ledger, es: seq<Event>)
    ensures Run(l, es).cap == l.cap && Run(l, es).ttl == l.ttl
    decreases |es|
  {
    if es != [] {
      match es[0]
      case SweepCall(clock) =>
        if |clock| == |l.active| { SweepIssued(l, l.active, clock); }
        CapFixed(Apply(l, es[0]), es[1..]);
      case _ => CapFixed(Apply(l, es[0]), es[1..]);
    }
  }

  // ---------- exhaustion ----------

  /** Every commit in the run reports non-negative actuals. */
  predicate NonNegativeActuals(es: seq<Event>) {
    forall e :: e in es ==> e.CommitCall? ==> e.actual.NonNegative()
  }

  predicate Exhausted(l: Ledger, want: Amount) {
    || l.cap.cost - l.spent.cost < want.cost - ADMIT_EPS
    || l.cap.latency - l.spent.latency < want.latency - ADMIT_EPS
  }

  lemma StepSpendsMore(l: Ledger, e: Event)
    requires e.CommitCall? ==> e.actual.NonNegative()
    ensures l.spent.AtMost(Apply(l, e).spent) && Apply(l, e).cap == l.cap
  {
    if e.SweepCall? && |e.clock| == |l.active| {
      SweepIssued(l, l.active, e.clock);
    }
  }

  lemma {:induction false} RunSpendsMore(l: Ledger, es: seq<Event>)
    requires NonNegativeActuals(es)
    ensures l.spent.AtMost(Run(l, es).spent) && Run(l, es).cap == l.cap
    decreases |es|
  {
    if es != [] {
      StepSpendsMore(l, es[0]);
      RunSpendsMore(Apply(l, es[0]), es[1..]);
    }
  }

  lemma ExhaustedStays(l: Ledger, es: seq<Event>, want: Amount, more: Amount, now: real)
    requires Inv(l) && NonNegativeActuals(es)
    requires Exhausted(l, want) && want.AtMost(more)
    ensures !TryReserve(Run(l, es), more, now).1.Granted?
  {
    RunInv(l, es);
    RunSpendsMore(l, es);
    HeldNonNegative(Run(l, es).active);
  }

  function RollbackAll(rs: seq<Reservation>): seq<Event> {
    if rs == [] then [] else [RollbackCall(rs[0].id)] + RollbackAll(rs[1..])
  }

  lemma {:induction false} RollbackAllEmpties(l: Ledger)
    requires Inv(l)
    ensures var l' := Run(l, RollbackAll(l.active));
            Inv(l') && l'.active == [] && l'.spent == l.spent && l'.cap == l.cap
    ensures NonNegativeActuals(RollbackAll(l.active))
    decreases |l.active|
  {
    if l.active != [] {
      var r := l.active[0];
      ReleaseInv(l, r);
      assert Apply(l, RollbackCall(r.id)) == Release(l, r);
      assert Release(l, r).active == l.active[1..];
      RollbackAllEmpties(Release(l, r));
      assert RollbackAll(l.active)[1..] == RollbackAll(l.active[1..]);
    }
  }

  /** Some continuation of the run, with non-negative actuals, ends by granting `want`. */
  ghost predicate EverGranted(l: Ledger, want: Amount) {
    exists es, now :: NonNegativeActuals(es) && TryReserve(Run(l, es), want, now).1.Granted?
  }

  /**
   Exhaustion is permanent, and is the only thing that is: a request can be granted in some
   continuation exactly while what is left unspent covers it on both resources.
   */
  lemma ExhaustionIsPermanent(l: Ledger, want: Amount)
    requires Inv(l) && ValidRequest(want)
    ensures EverGranted(l, want) <==> !Exhausted(l, want)
  {
    if Exhausted(l, want) {
      forall es, now | NonNegativeActuals(es)
        ensures !TryReserve(Run(l, es), want, now).1.Granted?
      {
        ExhaustedStays(l, es, want, want, now);
      }
    } else {
      var es := RollbackAll(l.active);
      RollbackAllEmpties(l);
      assert TryReserve(Run(l, es), want, 0.0).1.Granted?;
    }
  }
}
