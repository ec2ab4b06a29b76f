/**
 Each handler, taken by itself: what its decision guarantees, that it is never turned away by an
 invalid reservation call, that it alone owns its reservation, and that it ends.
 */
module RouterProgress {
  import opened Amounts
  import opened Ledgers
  import opened LedgerAnswers
  import opened LedgerInvariant
  import opened Options
  import opened Routing
  import opened Routers
  import opened RouterInvariant
  import opened RouterPreservation
  import E = LatencyEstimates

  // ---------- decisions ----------

  predicate DecidedOn(x: Handler, route: Route) {
    x.phase.Choosing? && x.phase.stage.Decided? && x.phase.stage.outcome.Routed? && x.phase.stage.outcome.route == route
  }

  /** At some point of the run the k-th manager would have refused `want`. */
  ghost predicate RefusedThen(w0: World, steps: seq<Step>, k: nat, want: Amount) {
    exists n :: 0 <= n <= |steps| && RefusesAt(RunAll(w0, steps[..n]), k, want)
  }

  predicate RefusesAt(w: World, k: nat, want: Amount) {
    k < |w.ledgers| && !Affordable(w.ledgers[k], w.config.cap, want.cost, want.latency)
  }

  /** At some point of the run the k-th tracker's local estimate, at that queue depth, was `x`. */
  ghost predicate EstimatedThen(w0: World, steps: seq<Step>, k: nat, depth: nat, x: real) {
    exists n :: 0 <= n <= |steps| && EstimatesAt(RunAll(w0, steps[..n]), k, depth, x)
  }

  predicate EstimatesAt(w: World, k: nat, depth: nat, x: real) {
    k < |w.trackers| && E.EstimateOf(w.trackers[k], E.Local) * (depth + 1) as real == x
  }

  /** At some step of the run handler `h` arrived, and read this of the k-th managers. */
  ghost predicate ReadThen(w0: World, steps: seq<Step>, h: nat, k: nat, s: Snapshot) {
    exists n :: 0 <= n < |steps| && ReadsAt(RunAll(w0, steps[..n]), steps[n], h, k, s)
  }

  predicate ReadsAt(w: World, step: Step, h: nat, k: nat, s: Snapshot) {
    && step.Move? && step.h == h && h < |w.handlers| && w.handlers[h].phase == Arrived
    && k < |w.queues| && k < |w.trackers|
    && (s.atCapacity <==> w.queues[k].active >= w.queues[k].capacity) && s.queueDepth == w.queues[k].active
    && s.estLocal == E.EstimateOf(w.trackers[k], E.Local) * (s.queueDepth + 1) as real
    && s.estRemote == E.EstimateOf(w.trackers[k], E.Remote)
  }

  predicate Refused(stage: Stage) {
    !stage.TryRemote? && stage.refused
  }

  /** What a handler's stage says of the past did happen. */
  ghost predicate Remembers(w0: World, steps: seq<Step>, h: nat, x: Handler) {
    x.phase.Choosing? ==>
      var s, stage := x.phase.snapshot, x.phase.stage;
      && s.tier == x.tier && s.sla == x.sla && ReadThen(w0, steps, h, x.refs.bm, s)
      && (Refused(stage) ==> RefusedThen(w0, steps, x.refs.bm, RemoteWant(s, w0.config.remoteCost)))
      && (stage.TryDegraded? ==> EstimatedThen(w0, steps, x.refs.bm, s.queueDepth, stage.degraded))
      && (DecidedOn(x, ToQueueLocal) && x.claim.Some? ==>
            EstimatedThen(w0, steps, x.refs.bm, s.queueDepth, x.claim.value.reservation.amount.latency))
  }

  lemma RunSnoc(w0: World, steps: seq<Step>, s: Step)
    ensures RunAll(w0, steps + [s]) == Do(RunAll(w0, steps), s)
    ensures RunAll(w0, steps + [s]).config == w0.config
  {
    RunAllConcat(w0, steps, [s]);
    OneStep(RunAll(w0, steps), s);
    ConfigFixed(w0, steps + [s]);
  }

  lemma RemembersLonger(w0: World, steps: seq<Step>, s: Step, h: nat, x: Handler)
    requires Remembers(w0, steps, h, x)
    ensures Remembers(w0, steps + [s], h, x)
  {
    forall n | 0 <= n <= |steps| ensures (steps + [s])[..n] == steps[..n] {}
    if x.phase.Choosing? { ReadLonger(w0, steps, s, h, x.refs.bm, x.phase.snapshot); }
  }

  lemma ReadLonger(w0: World, steps: seq<Step>, s: Step, h: nat, k: nat, look: Snapshot)
    requires ReadThen(w0, steps, h, k, look)
    ensures ReadThen(w0, steps + [s], h, k, look)
  {
    var n :| 0 <= n < |steps| && ReadsAt(RunAll(w0, steps[..n]), steps[n], h, k, look);
    assert (steps + [s])[..n] == steps[..n] && (steps + [s])[n] == steps[n];
  }

  // What a handler sees now becomes what it remembers.

  lemma ReadsNow(w: World, h: nat, reply: BackendReply, k: nat)
    requires h < |w.handlers| && w.handlers[h].phase == Arrived && k < |w.queues| && k < |w.trackers|
    ensures var x := w.handlers[h];
            ReadsAt(w, Move(h, reply), h, k, Look(w.queues[k], w.trackers[k], x.tier, x.sla))
  {}

  lemma ReadNow(w0: World, steps: seq<Step>, h: nat, k: nat, s: Step, look: Snapshot)
    requires ReadsAt(RunAll(w0, steps), s, h, k, look)
    ensures ReadThen(w0, steps + [s], h, k, look)
  {
    var all := steps + [s];
    assert all[..|steps|] == steps && all[|steps|] == s;
    assert ReadsAt(RunAll(w0, all[..|steps|]), all[|steps|], h, k, look);
  }

  lemma RefusedNow(w0: World, steps: seq<Step>, s: Step, k: nat, want: Amount)
    requires var w := RunAll(w0, steps);
             k < |w.ledgers| && Inv(w.ledgers[k]) && w.ledgers[k].cap == w.config.cap && !Admits(w.ledgers[k], want)
    ensures RefusedThen(w0, steps + [s], k, want)
  {
    var w, all := RunAll(w0, steps), steps + [s];
    assert all[..|steps|] == steps;
    AdmitsIffAffordable(w.ledgers[k], want);
    assert RefusesAt(RunAll(w0, all[..|steps|]), k, want);
  }

  lemma EstimatedNow(w0: World, steps: seq<Step>, s: Step, k: nat, depth: nat)
    requires k < |RunAll(w0, steps).trackers|
    ensures EstimatedThen(w0, steps + [s], k, depth, LocalEstimate(RunAll(w0, steps).trackers[k], depth))
  {
    var w, all := RunAll(w0, steps), steps + [s];
    assert all[..|steps|] == steps;
    assert EstimatesAt(RunAll(w0, all[..|steps|]), k, depth, LocalEstimate(w.trackers[k], depth));
  }

  /** How one step changes what a handler's stage says of the past. */
  ghost predicate StageFollows(v: View, remoteCost: real, x': Handler) {
    var x := v.handler;
    x'.phase.Choosing? ==>
      var s', stage' := x'.phase.snapshot, x'.phase.stage;
      && x'.refs == x.refs
      && (Refused(stage') ==>
            && x.phase.Choosing? && x.phase.snapshot == s'
            && (Refused(x.phase.stage) || !Admits(v.ledger, Amount(remoteCost, s'.estRemote))))
      && x'.tier == x.tier && x'.sla == x.sla
      && (if x.phase.Choosing? then s' == x.phase.snapshot
          else x.phase == Arrived && s' == Look(v.queue, v.tracker, x.tier, x.sla))
      && (stage'.TryDegraded? ==> stage'.degraded == LocalEstimate(v.tracker, s'.queueDepth))
      && (DecidedOn(x', ToQueueLocal) && x'.claim.Some? ==>
            && x.phase.Choosing? && x.phase.snapshot == s' && x.phase.stage.TryDegraded?
            && x'.claim.value.reservation.amount.latency == x.phase.stage.degraded)
  }

  lemma NoStage(v: View, home: nat, remoteCost: real, now: real, reply: BackendReply)
    requires v.handler.phase != Arrived && !v.handler.phase.Choosing?
    ensures !Advance(v, home, remoteCost, now, reply).handler.phase.Choosing?
  {}

  lemma AttemptStage(v: View, home: nat, remoteCost: real, now: real, reply: BackendReply)
    requires v.handler.phase.Choosing? && Attempting(v.handler.phase.stage)
    ensures StageFollows(v, remoteCost, Advance(v, home, remoteCost, now, reply).handler)
  {}

  lemma AdvanceStage(v: View, home: nat, remoteCost: real, now: real, reply: BackendReply)
    ensures StageFollows(v, remoteCost, Advance(v, home, remoteCost, now, reply).handler)
  {
    if v.handler.phase.Choosing? && Attempting(v.handler.phase.stage) {
      AttemptStage(v, home, remoteCost, now, reply);
    } else if v.handler.phase != Arrived && !v.handler.phase.Choosing? {
      NoStage(v, home, remoteCost, now, reply);
    }
  }

  lemma MoverRemembers(w0: World, steps: seq<Step>, h: nat, reply: BackendReply)
    requires var w := RunAll(w0, steps);
             WorldInv(w) && w.config == w0.config && h < |w.handlers| && Remembers(w0, steps, h, w.handlers[h])
    ensures Remembers(w0, steps + [Move(h, reply)], h, Stepped(RunAll(w0, steps), h, reply).handler)
  {
    var w := RunAll(w0, steps);
    assert AtHome(w.handlers[h], |w.ledgers|) && Sound(w, w.handlers[h].refs.bm);
    RemembersLonger(w0, steps, Move(h, reply), h, w.handlers[h]);
    AdvanceStage(HomeView(w, h), w.handlers[h].refs.bm, w.config.remoteCost, w.clock, reply);
    Carry(w0, steps, h, reply, Stepped(w, h, reply).handler);
  }

  lemma Carry(w0: World, steps: seq<Step>, h: nat, reply: BackendReply, x': Handler)
    requires var w := RunAll(w0, steps);
             && Wired(w) && w.config == w0.config && h < |w.handlers|
             && Inv(w.ledgers[w.handlers[h].refs.bm]) && w.ledgers[w.handlers[h].refs.bm].cap == w.config.cap
             && Remembers(w0, steps + [Move(h, reply)], h, w.handlers[h])
             && StageFollows(HomeView(w, h), w.config.remoteCost, x')
    ensures Remembers(w0, steps + [Move(h, reply)], h, x')
  {
    var w := RunAll(w0, steps);
    var x := w.handlers[h];
    var k := x.refs.bm;
    if x'.phase.Choosing? {
      var s, stage := x'.phase.snapshot, x'.phase.stage;
      if x.phase == Arrived {
        ReadsNow(w, h, reply, k);
        ReadNow(w0, steps, h, k, Move(h, reply), s);
      }
      if Refused(stage) && !Refused(x.phase.stage) {
        RefusedNow(w0, steps, Move(h, reply), k, RemoteWant(s, w0.config.remoteCost));
      }
      if stage.TryDegraded? { EstimatedNow(w0, steps, Move(h, reply), k, s.queueDepth); }
    }
  }

  lemma StepRemembers(w0: World, steps: seq<Step>, s: Step, h: nat)
    requires WorldInv(RunAll(w0, steps)) && RunAll(w0, steps).config == w0.config
    requires var xs := RunAll(w0, steps).handlers; forall i :: 0 <= i < |xs| ==> Remembers(w0, steps, i, xs[i])
    requires h < |Do(RunAll(w0, steps), s).handlers|
    ensures Remembers(w0, steps + [s], h, Do(RunAll(w0, steps), s).handlers[h])
  {
    var w := RunAll(w0, steps);
    if s.Move? && s.h == h && h < |w.handlers| {
      MoveStaysHome(w, h, s.reply);
      MoverRemembers(w0, steps, h, s.reply);
    } else {
      if h < |w.handlers| { RemembersLonger(w0, steps, s, h, w.handlers[h]); }
      if s.Move? && s.h < |w.handlers| { MoveStaysHome(w, s.h, s.reply); }
    }
  }

  lemma {:induction false} AllRemember(w0: World, steps: seq<Step>)
    requires WorldInv(w0) && w0.handlers == []
    ensures var xs := RunAll(w0, steps).handlers; forall h :: 0 <= h < |xs| ==> Remembers(w0, steps, h, xs[h])
    decreases |steps|
  {
    if steps != [] {
      var init, s := steps[..|steps| - 1], steps[|steps| - 1];
      assert steps == init + [s];
      AllRemember(w0, init);
      RunKeepsInv(w0, init);
      ConfigFixed(w0, init);
      RunSnoc(w0, init, s);
      forall h | 0 <= h < |RunAll(w0, steps).handlers| ensures Remembers(w0, steps, h, RunAll(w0, steps).handlers[h]) {
        StepRemembers(w0, init, s, h);
      }
    }
  }

  /**
   However other handlers act between a handler's advisory reads and its attempts, its decision is
   warranted by what it read, of its own managers at the step it arrived, for its own tier and SLA.
   It holds exactly the local or the remote amounts it read; degraded, it holds the local estimate of
   a later moment, and remote was over the SLA or had been refused.  It owns exactly the reservation
   it was granted, or none when it fails fast.
   */
  lemma DecisionWarranted(config: Config, clock: real, steps: seq<Step>, h: nat, route: Route)
    requires var w := RunAll(Start(config, clock), steps);
             h < |w.handlers| && DecidedOn(w.handlers[h], route)
    ensures var w0, w := Start(config, clock), RunAll(Start(config, clock), steps);
            var x := w.handlers[h];
            var s, k := x.phase.snapshot, x.refs.bm;
            && s.tier == x.tier && s.sla == x.sla && ReadThen(w0, steps, h, k, s)
            && (route == FailFast <==> x.claim == None)
            && (route == ToLocal ==>
                  && !s.atCapacity && s.estLocal <= x.sla
                  && x.claim.value.reservation.amount == Amount(0.0, s.estLocal))
            && (route == ToRemote ==>
                  && s.estRemote <= x.sla
                  && x.claim.value.reservation.amount == Amount(config.remoteCost, s.estRemote))
            && (route == ToQueueLocal ==>
                  && !s.atCapacity && s.estLocal > x.sla
                  && x.claim.value.reservation.amount.cost == 0.0
                  && EstimatedThen(w0, steps, k, s.queueDepth, x.claim.value.reservation.amount.latency))
            && (route == ToQueueLocal || (route == ToLocal && s.tier == Quality) ==>
                  s.estRemote > x.sla || RefusedThen(w0, steps, k, Amount(config.remoteCost, s.estRemote)))
  {
    ReachableInv(config, clock, steps);
    StartInv(config, clock);
    AllRemember(Start(config, clock), steps);
    ConfigFixed(Start(config, clock), steps);
    var w := RunAll(Start(config, clock), steps);
    var x := w.handlers[h];
    assert ClaimFits(w.ledgers[x.refs.bm], x) && RoutedFairly(x, w.config.remoteCost);
    assert Remembers(Start(config, clock), steps, h, x);
  }

  ghost predicate ClaimsDistinct(w: World) {
    forall i, j :: 0 <= i < j < |w.handlers| && w.handlers[i].claim.Some? ==> w.handlers[i].claim != w.handlers[j].claim
  }

  lemma StepDistinct(w: World, s: Step)
    requires WorldInv(w) && ClaimsDistinct(w)
    ensures ClaimsDistinct(Do(w, s))
  {
    if s.Move? && s.h < |w.handlers| {
      var h := s.h;
      var k := w.handlers[h].refs.bm;
      var w' := Do(w, s);
      MoveStaysHome(w, h, s.reply);
      assert Sound(w, k) && AtHome(w.handlers[h], |w.ledgers|) && ClaimFits(w.ledgers[k], w.handlers[h]);
      var v := View(w.ledgers[k], w.queues[k], w.trackers[k], w.handlers[h]);
      AdvanceClaim(v, k, w.config.remoteCost, w.clock, s.reply);
      forall i | 0 <= i < |w.handlers| && i != h && w.handlers[i].claim.Some?
        ensures w.handlers[i].claim != w'.handlers[h].claim
      {
        assert AtHome(w.handlers[i], |w.ledgers|) && ClaimFits(w.ledgers[w.handlers[i].refs.bm], w.handlers[i]);
      }
    }
  }

  lemma {:induction false} RunDistinct(w: World, steps: seq<Step>)
    requires WorldInv(w) && ClaimsDistinct(w)
    ensures ClaimsDistinct(RunAll(w, steps))
    decreases |steps|
  {
    if steps != [] {
      StepDistinct(w, steps[0]);
      StepInv(w, steps[0]);
      RunDistinct(Do(w, steps[0]), steps[1..]);
    }
  }

  /** Every active reservation belongs to exactly one handler. */
  lemma OneOwner(config: Config, clock: real, steps: seq<Step>, k: nat, r: Reservation)
    requires k < |RunAll(Start(config, clock), steps).ledgers|
    requires r in RunAll(Start(config, clock), steps).ledgers[k].active
    ensures var w := RunAll(Start(config, clock), steps);
            exists h :: 0 <= h < |w.handlers| && w.handlers[h].claim == Some(Claim(k, r))
                        && forall i :: 0 <= i < |w.handlers| && w.handlers[i].claim == Some(Claim(k, r)) ==> i == h
  {
    var w := RunAll(Start(config, clock), steps);
    StartInv(config, clock);
    RunKeepsInv(Start(config, clock), steps);
    RunDistinct(Start(config, clock), steps);
    assert Sound(w, k);
    assert Owned(w, k, r);
  }

  // ---------- termination ----------

  /** A bound on the steps a handler can still take. */
  function Rank(p: Phase): nat {
    match p
    case Arrived => 18
    case Choosing(_, stage) => 14 + StepsLeft(stage)
    case WantsSlot => 13
    case InLocal => 12
    case InRemote => 12
    case Settling(_, _) => 11
    case Reviewing(_, _) => 10
    case Leaving(_, _) => 9
    case Handling(_) => 8
    case Returning(_) => 7
    case FallingBack => 6
    case WantsFallbackSlot => 5
    case InFallback => 4
    case LeavingFallback(_, _) => 3
    case Recording(_, _) => 2
    case Reporting => 1
    case Finished(_) => 0
  }

  ghost predicate CanStep(x: Handler) {
    Live(x) && (x.phase.Settling? || x.phase.Returning? ==> x.claim.Some?)
  }

  lemma AdvanceDescends(v: View, home: nat, remoteCost: real, now: real, reply: BackendReply)
    requires CanStep(v.handler) && RoutedFairly(v.handler, remoteCost)
    ensures Rank(Advance(v, home, remoteCost, now, reply).handler.phase) < Rank(v.handler.phase)
  {
    var x := v.handler;
    if x.phase.Choosing? && Attempting(x.phase.stage) {
      AttemptJustified(v.ledger, x.phase.snapshot, x.phase.stage, remoteCost, now);
    }
  }

  lemma CancelDescends(p: Phase)
    ensures Rank(AfterCancel(p)) <= Rank(p)
  {}

  /** Phases that only a handler with a reservation can be in. */
  predicate NeedsClaim(p: Phase) {
    p.InRemote? || p.WantsSlot? || p.InLocal? || p.Settling? || p.Returning?
  }

  ghost predicate ClaimsPresent(w: World) {
    forall h :: 0 <= h < |w.handlers| && NeedsClaim(w.handlers[h].phase) ==> w.handlers[h].claim.Some?
  }

  lemma StepClaimsPresent(w: World, s: Step)
    requires WorldInv(w) && ClaimsPresent(w)
    ensures ClaimsPresent(Do(w, s))
  {
    if s.Move? && s.h < |w.handlers| {
      MoveStaysHome(w, s.h, s.reply);
      assert ClaimFits(w.ledgers[w.handlers[s.h].refs.bm], w.handlers[s.h]);
      assert RoutedFairly(w.handlers[s.h], w.config.remoteCost);
    }
  }

  /** How often handler `h` steps in a run while it is still live. */
  function LiveMoves(w: World, steps: seq<Step>, h: nat): nat
    decreases |steps|
  {
    if steps == [] then 0
    else (if steps[0].Move? && steps[0].h == h && h < |w.handlers| && Live(w.handlers[h]) then 1 else 0)
         + LiveMoves(Do(w, steps[0]), steps[1..], h)
  }

  lemma StepRank(w: World, s: Step, h: nat)
    requires WorldInv(w) && ClaimsPresent(w) && h < |w.handlers|
    ensures h < |Do(w, s).handlers|
    ensures Rank(Do(w, s).handlers[h].phase) + LiveMoves(w, [s], h) <= Rank(w.handlers[h].phase)
  {
    match s
    case Move(i, reply) =>
      if i < |w.handlers| {
        MoveStaysHome(w, i, reply);
        if i == h && Live(w.handlers[h]) {
          var k := w.handlers[h].refs.bm;
          assert RoutedFairly(w.handlers[h], w.config.remoteCost);
          var v := View(w.ledgers[k], w.queues[k], w.trackers[k], w.handlers[h]);
          AdvanceDescends(v, k, w.config.remoteCost, w.clock, reply);
        }
      }
    case Cancel(i) =>
      CancelDescends(w.handlers[h].phase);
    case _ =>
  }

  lemma {:induction false} MovesBounded(w: World, steps: seq<Step>, h: nat)
    requires WorldInv(w) && ClaimsPresent(w) && h < |w.handlers|
    ensures h < |RunAll(w, steps).handlers|
    ensures Rank(RunAll(w, steps).handlers[h].phase) + LiveMoves(w, steps, h) <= Rank(w.handlers[h].phase)
    decreases |steps|
  {
    if steps != [] {
      StepRank(w, steps[0], h);
      StepInv(w, steps[0]);
      StepClaimsPresent(w, steps[0]);
      MovesBounded(Do(w, steps[0]), steps[1..], h);
    }
  }

  lemma {:induction false} RunClaimsPresent(w: World, steps: seq<Step>)
    requires WorldInv(w) && ClaimsPresent(w)
    ensures ClaimsPresent(RunAll(w, steps))
    decreases |steps|
  {
    if steps != [] {
      StepClaimsPresent(w, steps[0]);
      StepInv(w, steps[0]);
      RunClaimsPresent(Do(w, steps[0]), steps[1..]);
    }
  }

  lemma RankAtMost(p: Phase)
    ensures Rank(p) <= 18
  {}

  /** Whatever the interleaving, a handler takes at most 18 steps; having taken as many as its rank, it has finished. */
  lemma HandlersFinish(config: Config, clock: real, before: seq<Step>, after: seq<Step>, h: nat)
    requires h < |RunAll(Start(config, clock), before).handlers|
    ensures var w := RunAll(Start(config, clock), before);
            var moves, rank := LiveMoves(w, after, h), Rank(w.handlers[h].phase);
            && moves <= rank <= 18
            && h < |RunAll(w, after).handlers|
            && (moves == rank ==> !Live(RunAll(w, after).handlers[h]))
  {
    StartInv(config, clock);
    RunKeepsInv(Start(config, clock), before);
    RunClaimsPresent(Start(config, clock), before);
    var w := RunAll(Start(config, clock), before);
    MovesBounded(w, after, h);
    RankAtMost(w.handlers[h].phase);
    RankZero(RunAll(w, after).handlers[h]);
  }

  lemma RankZero(x: Handler)
    ensures Rank(x.phase) == 0 <==> !Live(x)
  {}

  // ---------- no invalid reservation call ----------

  /** An observation the averages can absorb without reaching zero. */
  predicate Fine(x: real, alpha: real) {
    x >= 0.0 && (alpha < 1.0 || x > 0.0)
  }

  /** The configuration's sign conditions. */
  predicate SensibleConfig(c: Config) {
    && c.remoteCost >= 0.0
    && 0.0 <= c.settings.alpha <= 1.0
    && c.settings.localSeed > 0.0 && c.settings.remoteSeed > 0.0
  }

  predicate FineReplies(steps: seq<Step>, alpha: real) {
    forall i :: 0 <= i < |steps| ==> steps[i].Move? && steps[i].reply.Answer? ==> Fine(steps[i].reply.latency, alpha)
  }

  /** The latency a handler will record, and the estimates it routes by, are positive enough. */
  predicate FinePhase(p: Phase, alpha: real) {
    match p
    case Choosing(s, stage) =>
      && s.estLocal > 0.0 && s.estRemote > 0.0
      && (stage.TryDegraded? ==> stage.degraded > 0.0) && (stage.Decided? ==> stage.outcome != Raised)
    case Settling(actual, _) => Fine(actual.latency, alpha)
    case Reviewing(latency, _) => Fine(latency, alpha)
    case Leaving(raised, latency) => raised == None ==> Fine(latency, alpha)
    case LeavingFallback(raised, latency) => raised == None ==> Fine(latency, alpha)
    case Recording(_, latency) => Fine(latency, alpha)
    case Finished(r) => r != Rejected
    case _ => true
  }

  ghost predicate FineWorld(w: World) {
    && SensibleConfig(w.config)
    && (forall k :: 0 <= k < |w.trackers| ==>
          E.PositiveAverages(w.trackers[k]) && w.trackers[k].settings == w.config.settings)
    && (forall h :: 0 <= h < |w.handlers| ==> FinePhase(w.handlers[h].phase, w.config.settings.alpha))
  }

  lemma AdvanceFine(v: View, home: nat, c: Config, now: real, reply: BackendReply)
    requires SensibleConfig(c) && v.tracker.settings == c.settings && E.PositiveAverages(v.tracker)
    requires FinePhase(v.handler.phase, c.settings.alpha)
    requires reply.Answer? ==> Fine(reply.latency, c.settings.alpha)
    ensures var v' := Advance(v, home, c.remoteCost, now, reply);
            && FinePhase(v'.handler.phase, c.settings.alpha)
            && v'.tracker.settings == c.settings && E.PositiveAverages(v'.tracker)
  {
    var x := v.handler;
    match x.phase
    case Arrived =>
      EstimatesPositive(v.queue, v.tracker, v.queue.active);
    case Choosing(s, stage) =>
      EstimatesPositive(v.queue, v.tracker, s.queueDepth);
      if Attempting(stage) { AttemptNeverRaises(v.ledger, s, stage, c.remoteCost, now); }
    case Recording(b, latency) =>
      E.ObserveKeepsPositive(E.SeriesOf(v.tracker, b), c.settings.alpha, c.settings.size, latency);
    case _ =>
  }

  lemma StepFine(w: World, s: Step)
    requires WorldInv(w) && FineWorld(w) && FineReplies([s], w.config.settings.alpha)
    ensures FineWorld(Do(w, s))
  {
    if s.Move? && s.h < |w.handlers| {
      var k := w.handlers[s.h].refs.bm;
      MoveStaysHome(w, s.h, s.reply);
      assert [s][0] == s;
      AdvanceFine(View(w.ledgers[k], w.queues[k], w.trackers[k], w.handlers[s.h]), k, w.config, w.clock, s.reply);
    }
  }

  lemma {:induction false} RunFine(w: World, steps: seq<Step>)
    requires WorldInv(w) && FineWorld(w) && FineReplies(steps, w.config.settings.alpha)
    ensures FineWorld(RunAll(w, steps))
    decreases |steps|
  {
    if steps != [] {
      assert [steps[0]][0] == steps[0];
      StepFine(w, steps[0]);
      StepInv(w, steps[0]);
      assert Do(w, steps[0]).config == w.config;
      RunFine(Do(w, steps[0]), steps[1..]);
    }
  }

  /**
   With positive seeds, a non-negative remote cost, and backends that report non-negative
   latencies (positive ones if the smoothing factor is 1), no reservation call that routing
   makes is rejected as invalid, in any run, resets included.
   */
  lemma NeverRejected(config: Config, clock: real, steps: seq<Step>, h: nat)
    requires SensibleConfig(config) && FineReplies(steps, config.settings.alpha)
    requires h < |RunAll(Start(config, clock), steps).handlers|
    ensures RunAll(Start(config, clock), steps).handlers[h].phase != Finished(Rejected)
  {
    StartInv(config, clock);
    RunFine(Start(config, clock), steps);
  }
}
