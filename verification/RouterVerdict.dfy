/**
 The verdict at the endpoint: when what the metrics report at rest passes it, and when it does not.
 */
module RouterVerdicts {
  import opened Amounts
  import opened Ledgers
  import opened LedgerInvariant
  import opened Verdicts
  import opened Spending
  import opened Overspend
  import opened Options
  import opened Routing
  import opened Routers
  import opened RouterInvariant
  import opened RouterPreservation
  import opened RouterTheorems
  import opened RouterLedgers
  import opened RouterBilling
  import opened SoloRuns
  import Q = QueueMonitors

  // ---------- well-behaved backends ----------

  /** No backend reports more than the handler reserved for it. */
  predicate WithinReservations(w: World, steps: seq<Step>)
    decreases |steps|
  {
    steps == [] ||
    (&& (steps[0].Move? && steps[0].h < |w.handlers| ==>
           var x := w.handlers[steps[0].h];
           x.phase.Settling? && x.claim.Some? ==> x.phase.actual.AtMost(x.claim.value.reservation.amount))
     && WithinReservations(Do(w, steps[0]), steps[1..]))
  }

  lemma LookupIssued(l: Ledger, r: Reservation)
    requires Inv(l) && r.id < |l.issued| && l.issued[r.id] == r && Has(l.active, r.id)
    ensures Lookup(l.active, r.id) == r
  {}

  lemma {:induction false} WellBehavedConcat(l: Ledger, es: seq<Event>, fs: seq<Event>)
    requires WellBehaved(l, es) && WellBehaved(Run(l, es), fs)
    ensures WellBehaved(l, es + fs)
    decreases |es|
  {
    if es == [] {
      assert es + fs == fs;
    } else {
      assert (es + fs)[0] == es[0] && (es + fs)[1..] == es[1..] + fs;
      WellBehavedConcat(Apply(l, es[0]), es[1..], fs);
    }
  }

  lemma StepWellBehaved(w: World, s: Step, k: nat)
    requires WorldInv(w) && WithinReservations(w, [s])
    ensures WellBehaved(LedgerAt(w, k), StepLog(w, s, k))
  {
    var es := StepLog(w, s, k);
    if es != [] && es[0].CommitCall? && Has(w.ledgers[k].active, es[0].id) {
      assert Sound(w, k);
      var x := w.handlers[s.h];
      assert ClaimFits(w.ledgers[k], x);
      LookupIssued(w.ledgers[k], x.claim.value.reservation);
    }
  }

  lemma {:induction false} LogWellBehaved(w: World, steps: seq<Step>, k: nat)
    requires WorldInv(w) && WithinReservations(w, steps)
    ensures WellBehaved(LedgerAt(w, k), Log(w, steps, k))
    decreases |steps|
  {
    if steps != [] {
      StepInv(w, steps[0]);
      StepLogged(w, steps[0], k);
      assert WithinReservations(w, [steps[0]]);
      StepWellBehaved(w, steps[0], k);
      LogWellBehaved(Do(w, steps[0]), steps[1..], k);
      WellBehavedConcat(LedgerAt(w, k), StepLog(w, steps[0], k), Log(Do(w, steps[0]), steps[1..], k));
    }
  }

  /** At the endpoint too, backends that stay within their reservations are never refused, resets included. */
  lemma EndpointNeverRefused(config: Config, clock: real, steps: seq<Step>, k: nat)
    requires config.cap.NonNegative() && WithinReservations(Start(config, clock), steps)
    ensures NeverRefused(Fresh(config.cap, config.ttl), Log(Start(config, clock), steps, k))
    ensures var l := LedgerAt(RunAll(Start(config, clock), steps), k);
            && l.spent.cost + l.reserved.cost <= config.cap.cost + ADMIT_EPS
            && l.spent.latency + l.reserved.latency <= config.cap.latency + ADMIT_EPS
  {
    StartInv(config, clock);
    EveryLedgerIsARun(Start(config, clock), steps, k);
    LogWellBehaved(Start(config, clock), steps, k);
    WellBehavedNeverRefused(config.cap, config.ttl, Log(Start(config, clock), steps, k));
  }

  // ---------- the verdict at rest ----------

  /** No backend charges more than `eps` above what the handler reserved for it, whatever latency it reports. */
  predicate OverrunsAtMost(w: World, steps: seq<Step>, eps: real)
    decreases |steps|
  {
    steps == [] ||
    (&& (steps[0].Move? && steps[0].h < |w.handlers| ==>
           var x := w.handlers[steps[0].h];
           x.phase.Settling? && x.claim.Some? ==>
             x.phase.actual.cost <= x.claim.value.reservation.amount.cost + eps)
     && OverrunsAtMost(Do(w, steps[0]), steps[1..], eps))
  }

  lemma StepOverruns(w: World, s: Step, k: nat, eps: real)
    requires WorldInv(w) && OverrunsAtMost(w, [s], eps)
    ensures OverrunsWithin(LedgerAt(w, k), StepLog(w, s, k), eps)
  {
    var es := StepLog(w, s, k);
    if es != [] && es[0].CommitCall? && Has(w.ledgers[k].active, es[0].id) {
      assert Sound(w, k);
      assert ClaimFits(w.ledgers[k], w.handlers[s.h]);
      LookupIssued(w.ledgers[k], w.handlers[s.h].claim.value.reservation);
    }
  }

  lemma {:induction false} LogOverruns(w: World, steps: seq<Step>, k: nat, eps: real)
    requires WorldInv(w) && OverrunsAtMost(w, steps, eps)
    ensures OverrunsWithin(LedgerAt(w, k), Log(w, steps, k), eps)
    decreases |steps|
  {
    if steps != [] {
      StepInv(w, steps[0]);
      StepLogged(w, steps[0], k);
      assert OverrunsAtMost(w, [steps[0]], eps);
      StepOverruns(w, steps[0], k, eps);
      LogOverruns(Do(w, steps[0]), steps[1..], k, eps);
      OverrunsConcat(LedgerAt(w, k), StepLog(w, steps[0], k), Log(Do(w, steps[0]), steps[1..], k), eps);
    }
  }

  /** The k-th managers of a run of that discipline are at rest. */
  ghost predicate AtRest(config: Config, clock: real, steps: seq<Step>, k: nat, n: nat, eps: real) {
    && OverrunsAtMost(Start(config, clock), steps, eps) && PeakActive(Start(config, clock), steps, k) <= n
    && var w := RunAll(Start(config, clock), steps);
       k < |w.ledgers| && k < |w.queues| && k < |w.swept| && Quiet(w) && OrphansSwept(w, k)
  }

  /** What the metrics endpoint reports of the k-th managers. */
  function MetricsOf(w: World, k: nat): Metrics
    requires k < |w.ledgers| && k < |w.queues|
  {
    Observe(w.ledgers[k], w.queues[k].active)
  }

  /**
   Whatever latencies backends report, no set of managers ever created fails the verdict at rest,
   as long as its peak of simultaneous reservations, each overrun by at most eps, and the admission
   tolerance fit into the verdict's own tolerance.
   */
  lemma RestingVerdict(config: Config, clock: real, steps: seq<Step>, k: nat, n: nat, eps: real)
    requires config.cap.NonNegative() && eps >= 0.0 && n as real * eps + ADMIT_EPS <= COMMIT_EPS
    requires AtRest(config, clock, steps, k, n, eps)
    ensures Passes(MetricsOf(RunAll(Start(config, clock), steps), k), config.cap.cost, config.cap.latency)
  {
    var w0, es := Start(config, clock), Log(Start(config, clock), steps, k);
    StartInv(config, clock);
    NoLeak(config, clock, steps, k);
    EveryLedgerIsARun(w0, steps, k);
    PeakIsSeen(w0, steps, k);
    LogOverruns(w0, steps, k, eps);
    DisciplinedPasses(config.cap, config.ttl, es, n, eps);
  }

  /**
   In particular for what the metrics endpoint reports: the managers current after however many
   resets.  Backends that overrun nothing pass whatever the peak.
   */
  lemma QuiescentVerdict(config: Config, clock: real, steps: seq<Step>, n: nat, eps: real)
    requires config.cap.NonNegative() && eps >= 0.0
    requires eps == 0.0 || n as real * eps + ADMIT_EPS <= COMMIT_EPS
    requires OverrunsAtMost(Start(config, clock), steps, eps)
    requires var w := RunAll(Start(config, clock), steps);
             && w.app.bm < |w.swept| && Quiet(w) && OrphansSwept(w, w.app.bm)
             && (eps > 0.0 ==> PeakActive(Start(config, clock), steps, w.app.bm) <= n)
    ensures var w := RunAll(Start(config, clock), steps);
            && w.app.bm < |w.ledgers| && w.app.qm < |w.queues|
            && Passes(Observe(w.ledgers[w.app.bm], w.queues[w.app.qm].active), config.cap.cost, config.cap.latency)
  {
    ReachableInv(config, clock, steps);
    var k := RunAll(Start(config, clock), steps).app.bm;
    var peak := if eps > 0.0 then n else PeakActive(Start(config, clock), steps, k);
    RestingVerdict(config, clock, steps, k, peak, eps);
  }

  // ---------- a request that fails it ----------

  /** One remote request that its backend overcharges by `eps`. */
  function Overcharged(c: Config, eps: real): seq<BackendReply> {
    [DONE, DONE, DONE, Answer(c.remoteCost + eps, 0.0)]
  }

  predicate UsesSlack(c: Config) {
    && c.cap.cost >= 0.0 && c.cap.latency >= c.settings.remoteSeed > 0.0
    && c.remoteCost == c.cap.cost + ADMIT_EPS
  }

  /** Its backend has answered. */
  function OverchargedView(c: Config, now: real, eps: real): View {
    var want := Amount(c.remoteCost, c.settings.remoteSeed);
    var v := GrantedView(c, Quality, c.settings.remoteSeed, want, now, InRemote, 0);
    Charge(v, Amount(c.remoteCost + eps, 0.0), false)
  }

  lemma OverchargeRuns(c: Config, now: real, eps: real)
    requires UsesSlack(c)
    ensures Drive(FirstView(c, Quality, c.settings.remoteSeed), 0, c.remoteCost, now, Overcharged(c, eps) + FOUR)
         == Drive(OverchargedView(c, now, eps), 0, c.remoteCost, now, FOUR)
  {
    RemoteStarts(c, now);
    DriveFour(FirstView(c, Quality, c.settings.remoteSeed), 0, c.remoteCost, now, Overcharged(c, eps), FOUR);
  }

  lemma OverchargeSettles(c: Config, now: real, eps: real)
    requires UsesSlack(c) && 0.0 <= eps <= COMMIT_EPS
    ensures var l := Grant(Fresh(c.cap, c.ttl), Amount(c.remoteCost, c.settings.remoteSeed), now);
            var (l', reply) := Commit(l, 0, Amount(c.remoteCost + eps, 0.0));
            reply == Settled && l'.active == [] && l'.spent == Amount(c.remoteCost + eps, 0.0)
  {
    var want := Amount(c.remoteCost, c.settings.remoteSeed);
    GrantedIsActive(c, want, now);
    var r := Reservation(0, want, now, c.ttl);
    assert Without([r], 0) == [];
  }

  lemma OverchargeCommits(c: Config, now: real, eps: real)
    requires UsesSlack(c) && 0.0 <= eps <= COMMIT_EPS
    ensures var v := Advance(OverchargedView(c, now, eps), 0, c.remoteCost, now, DONE);
            && v.handler.phase == Reviewing(0.0, false) && v.queue == Q.Idle(c.capacity)
            && v.ledger.spent.cost == c.cap.cost + ADMIT_EPS + eps && v.ledger.active == []
  {
    OverchargeSettles(c, now, eps);
  }

  /** It is granted, runs, and its commit is accepted. */
  lemma OverchargePaid(c: Config, now: real, eps: real)
    requires UsesSlack(c) && 0.0 <= eps <= COMMIT_EPS
    ensures var first, replies := FirstView(c, Quality, c.settings.remoteSeed), Overcharged(c, eps) + FOUR;
            var v := Drive(first, 0, c.remoteCost, now, replies);
            && v.handler.phase == Finished(Answered) && v.ledger.spent.cost == c.cap.cost + ADMIT_EPS + eps
            && v.ledger.active == [] && v.queue == Q.Idle(c.capacity)
  {
    OverchargeRuns(c, now, eps);
    OverchargeCommits(c, now, eps);
    DriveFour(OverchargedView(c, now, eps), 0, c.remoteCost, now, FOUR, []);
    assert FOUR + [] == FOUR;
  }

  predicate Mild(x: Handler, eps: real) {
    x.phase.Settling? && x.claim.Some? ==> x.phase.actual.cost <= x.claim.value.reservation.amount.cost + eps
  }

  predicate MildAlong(v: View, home: nat, cost: real, now: real, replies: seq<BackendReply>, eps: real)
    decreases |replies|
  {
    replies == [] ||
    (Mild(v.handler, eps) && MildAlong(Advance(v, home, cost, now, replies[0]), home, cost, now, replies[1..], eps))
  }

  lemma {:induction false} MildMoves(w: World, h: nat, replies: seq<BackendReply>, eps: real)
    requires WorldInv(w) && h < |w.handlers|
    requires MildAlong(HomeView(w, h), w.handlers[h].refs.bm, w.config.remoteCost, w.clock, replies, eps)
    ensures OverrunsAtMost(w, Moves(h, replies), eps)
    decreases |replies|
  {
    if replies != [] {
      var s := Move(h, replies[0]);
      assert AtHome(w.handlers[h], |w.ledgers|);
      MoveStaysHome(w, h, replies[0]);
      SteppedClaim(w, h, replies[0]);
      StepInv(w, s);
      MildMoves(Do(w, s), h, replies[1..], eps);
      assert Moves(h, replies)[1..] == Moves(h, replies[1..]);
    }
  }

  lemma MildFour(v: View, home: nat, cost: real, now: real, rs: seq<BackendReply>, rest: seq<BackendReply>, eps: real)
    requires |rs| == 4 && Mild(v.handler, eps)
    requires var v1 := Advance(v, home, cost, now, rs[0]);
             var v2 := Advance(v1, home, cost, now, rs[1]);
             var v3 := Advance(v2, home, cost, now, rs[2]);
             && Mild(v1.handler, eps) && Mild(v2.handler, eps) && Mild(v3.handler, eps)
             && MildAlong(Advance(v3, home, cost, now, rs[3]), home, cost, now, rest, eps)
    ensures MildAlong(v, home, cost, now, rs + rest, eps)
  {
    var all := rs + rest;
    var v1 := Advance(v, home, cost, now, rs[0]);
    var v2 := Advance(v1, home, cost, now, rs[1]);
    var v3 := Advance(v2, home, cost, now, rs[2]);
    assert all[1..][0] == rs[1] && all[1..][1..] == all[2..];
    assert all[2..][0] == rs[2] && all[2..][1..] == all[3..];
    assert all[3..][0] == rs[3] && all[3..][1..] == rest;
    assert MildAlong(v3, home, cost, now, all[3..], eps);
    assert MildAlong(v2, home, cost, now, all[2..], eps);
    assert MildAlong(v1, home, cost, now, all[1..], eps);
  }

  lemma OverchargeIsMild(c: Config, now: real, eps: real)
    requires UsesSlack(c) && 0.0 <= eps <= COMMIT_EPS
    ensures var first, replies := FirstView(c, Quality, c.settings.remoteSeed), Overcharged(c, eps) + FOUR;
            MildAlong(first, 0, c.remoteCost, now, replies, eps)
  {
    var v := OverchargedView(c, now, eps);
    OverchargeCommits(c, now, eps);
    MildFour(v, 0, c.remoteCost, now, FOUR, [], eps);
    assert FOUR + [] == FOUR;
    RemoteStarts(c, now);
    MildFour(FirstView(c, Quality, c.settings.remoteSeed), 0, c.remoteCost, now, Overcharged(c, eps), FOUR, eps);
  }

  // ---------- one handler, one reservation ----------

  /** A lone handler has been issued nothing, or its one reservation. */
  ghost predicate IssuedOnce(w: World) {
    && WorldInv(w) && |w.ledgers| == 1 && |w.handlers| == 1
    && |w.ledgers[0].issued| <= if w.handlers[0].claim.Some? then 1 else 0
  }

  lemma {:induction false} CountAtMost(status: seq<Status>, s: Status)
    ensures Count(status, s) <= |status|
  {
    if status != [] { CountAtMost(status[1..], s); }
  }

  lemma MoveIssuesOnce(w: World, reply: BackendReply)
    requires IssuedOnce(w)
    ensures IssuedOnce(Do(w, Move(0, reply)))
  {
    assert AtHome(w.handlers[0], 1) && Sound(w, 0) && ClaimFits(w.ledgers[0], w.handlers[0]);
    StepInv(w, Move(0, reply));
    MoveStaysHome(w, 0, reply);
    AdvanceClaim(HomeView(w, 0), 0, w.config.remoteCost, w.clock, reply);
    AdvanceIssues(HomeView(w, 0), 0, w.config.remoteCost, w.clock, reply);
    AdvanceOnce(HomeView(w, 0), 0, w.config.remoteCost, w.clock, reply);
  }

  lemma AdvanceOnce(v: View, home: nat, remoteCost: real, now: real, reply: BackendReply)
    requires Unclaimed(v.handler.phase) ==> v.handler.claim == None
    ensures var v' := Advance(v, home, remoteCost, now, reply);
            v.handler.claim.Some? ==> v'.ledger.issued == v.ledger.issued
  {}

  lemma {:induction false} SoloPeak(w: World, replies: seq<BackendReply>)
    requires IssuedOnce(w)
    ensures PeakActive(w, Moves(0, replies), 0) <= 1
    decreases |replies|
  {
    assert Sound(w, 0);
    CountAtMost(w.ledgers[0].status, Pending);
    if replies != [] {
      MoveIssuesOnce(w, replies[0]);
      SoloPeak(Do(w, Move(0, replies[0])), replies[1..]);
      assert Moves(0, replies)[1..] == Moves(0, replies[1..]);
    }
  }

  /** The overcharged request is a run of the discipline with one reservation at a time, and ends at rest. */
  lemma OverchargeRests(c: Config, clock: real, eps: real)
    requires UsesSlack(c) && 0.0 <= eps <= COMMIT_EPS
    ensures var steps := Alone(Quality, c.settings.remoteSeed, Overcharged(c, eps) + FOUR);
            && AtRest(c, clock, steps, 0, 1, eps)
            && RunAll(Start(c, clock), steps).ledgers[0].spent.cost == c.cap.cost + ADMIT_EPS + eps
  {
    var replies := Overcharged(c, eps) + FOUR;
    var arrive := Arrive(Quality, c.settings.remoteSeed);
    var w0, w1 := Start(c, clock), Do(Start(c, clock), arrive);
    SoloRun(c, clock, Quality, c.settings.remoteSeed, replies);
    OverchargePaid(c, clock, eps);
    StartInv(c, clock);
    StepInv(w0, arrive);
    assert HomeView(w1, 0) == FirstView(c, Quality, c.settings.remoteSeed);
    OverchargeIsMild(c, clock, eps);
    MildMoves(w1, 0, replies, eps);
    SoloPeak(w1, replies);
    var steps := Alone(Quality, c.settings.remoteSeed, replies);
    assert steps[0] == arrive && steps[1..] == Moves(0, replies);
  }

  /**
   The verdict at the endpoint, exactly.  Where the cost of one remote request uses the admission
   tolerance, managers that never held two reservations at once pass at rest, in every run whose
   backends overrun by at most eps, if and only if eps and that tolerance fit into the verdict's.
   */
  lemma EndpointVerdictExact(config: Config, clock: real, eps: real)
    requires UsesSlack(config) && 0.0 <= eps <= COMMIT_EPS
    ensures (forall steps, k :: AtRest(config, clock, steps, k, 1, eps) ==>
               Passes(MetricsOf(RunAll(Start(config, clock), steps), k), config.cap.cost, config.cap.latency))
       <==> eps + ADMIT_EPS <= COMMIT_EPS
  {
    if eps + ADMIT_EPS <= COMMIT_EPS {
      forall steps, k | AtRest(config, clock, steps, k, 1, eps)
        ensures Passes(MetricsOf(RunAll(Start(config, clock), steps), k), config.cap.cost, config.cap.latency)
      {
        RestingVerdict(config, clock, steps, k, 1, eps);
      }
    } else {
      OverchargeRests(config, clock, eps);
      var steps := Alone(Quality, config.settings.remoteSeed, Overcharged(config, eps) + FOUR);
      assert AtRest(config, clock, steps, 0, 1, eps);
      assert !Passes(MetricsOf(RunAll(Start(config, clock), steps), 0), config.cap.cost, config.cap.latency);
    }
  }
}
