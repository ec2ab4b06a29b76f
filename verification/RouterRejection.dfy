/**
 When routing makes an invalid reservation call: exactly when the smoothing factor is 1 and some
 request can be granted, because one observation of 0 ms then becomes the local estimate.
 */
module RouterRejection {
  import opened Amounts
  import opened Ledgers
  import opened Options
  import opened Routing
  import opened Routers
  import opened RouterInvariant
  import opened RouterPreservation
  import opened RouterProgress
  import opened SoloRuns
  import E = LatencyEstimates
  import Q = QueueMonitors

  // ---------- an estimate of zero ----------

  predicate EstimatesZero(v: View) {
    E.EstimateOf(v.tracker, E.Local) == 0.0 && !Q.AtCapacity(v.queue)
  }

  lemma ZeroObservation(t: E.Tracker)
    requires t.settings.alpha == 1.0 && t.local.window == []
    ensures E.EstimateOf(E.Record(t, E.Local, 0.0), E.Local) == 0.0
  {}

  /** The second request's attempt to reserve nothing is turned away. */
  lemma ZeroEstimateRejects(v: View, remoteCost: real, now: real)
    requires EstimatesZero(v) && v.handler.phase == Arrived && v.handler.tier == Fast && v.handler.sla == 0.0
    ensures Drive(v, 0, remoteCost, now, [DONE, DONE, DONE]).handler.phase == Finished(Rejected)
  {
    var v1 := Advance(v, 0, remoteCost, now, DONE);
    assert v1.handler.phase.snapshot.estLocal == 0.0;
    var v2 := Advance(v1, 0, remoteCost, now, DONE);
    assert v2.handler.phase.stage.outcome == Raised;
    assert [DONE, DONE, DONE][1..] == [DONE, DONE] && [DONE, DONE][1..] == [DONE] && [DONE][1..] == [];
    assert Drive(v2, 0, remoteCost, now, [DONE]) == Advance(v2, 0, remoteCost, now, DONE);
  }

  // ---------- a first request that is answered locally in no time ----------

  /** A fresh manager grants the local or the remote request at the seed estimates. */
  predicate Grantable(c: Config) {
    Grants(c, Amount(0.0, c.settings.localSeed)) || Grants(c, Amount(c.remoteCost, c.settings.remoteSeed))
  }

  predicate CanZero(c: Config) {
    SensibleConfig(c) && c.capacity > 0 && c.settings.alpha == 1.0
  }

  /** Granted local, it enters its slot. */
  lemma LocalEnters(c: Config, now: real, rest: seq<BackendReply>)
    requires CanZero(c) && Grants(c, Amount(0.0, c.settings.localSeed))
    ensures var sla := c.settings.localSeed;
            Drive(FirstView(c, Fast, sla), 0, c.remoteCost, now, FOUR + rest)
            == Drive(GrantedView(c, Fast, sla, Amount(0.0, sla), now, InLocal, 1), 0, c.remoteCost, now, rest)
  {
    var sla := c.settings.localSeed;
    var v := FirstView(c, Fast, sla);
    var v1 := Advance(v, 0, c.remoteCost, now, DONE);
    assert v1.handler.phase.stage == TryLocal(false) && v1.handler.phase.snapshot.estLocal == sla;
    var v2 := Advance(v1, 0, c.remoteCost, now, DONE);
    var v3 := Advance(v2, 0, c.remoteCost, now, DONE);
    assert v3.handler.phase == WantsSlot;
    assert Advance(v3, 0, c.remoteCost, now, DONE) == GrantedView(c, Fast, sla, Amount(0.0, sla), now, InLocal, 1);
    DriveFour(v, 0, c.remoteCost, now, FOUR, rest);
  }

  lemma NothingSettles(c: Config, now: real)
    requires CanZero(c) && Grants(c, Amount(0.0, c.settings.localSeed))
    ensures Commit(Grant(Fresh(c.cap, c.ttl), Amount(0.0, c.settings.localSeed), now), 0, ZERO).1 == Settled
  {
    GrantedIsActive(c, Amount(0.0, c.settings.localSeed), now);
  }

  lemma SettledReviews(v: View, c: Config, now: real)
    requires v.handler.phase == Settling(ZERO, true) && v.handler.claim.Some?
    requires Commit(v.ledger, v.handler.claim.value.reservation.id, ZERO).1 == Settled
    ensures var v' := Advance(v, 0, c.remoteCost, now, DONE);
            v'.handler.phase == Reviewing(0.0, true) && v'.tracker == v.tracker && v'.queue == v.queue
  {}

  /** Its backend answers at once, and the commit of nothing succeeds. */
  lemma LocalSettles(c: Config, now: real)
    requires CanZero(c) && Grants(c, Amount(0.0, c.settings.localSeed))
    ensures var v := GrantedView(c, Fast, c.settings.localSeed, Amount(0.0, c.settings.localSeed), now, InLocal, 1);
            var v2 := Advance(Advance(v, 0, c.remoteCost, now, DONE), 0, c.remoteCost, now, DONE);
            v2.handler.phase == Reviewing(0.0, true) && v2.tracker == v.tracker && v2.queue == v.queue
  {
    var v := GrantedView(c, Fast, c.settings.localSeed, Amount(0.0, c.settings.localSeed), now, InLocal, 1);
    var v1 := Advance(v, 0, c.remoteCost, now, DONE);
    assert v1.handler.phase == Settling(ZERO, true) && v1.ledger == v.ledger;
    NothingSettles(c, now);
    SettledReviews(v1, c, now);
  }

  lemma LocalLeaves(v: View, c: Config, now: real)
    requires c.capacity > 0 && v.handler.phase == Reviewing(0.0, true)
    requires v.queue == Q.Queue(c.capacity, 1, c.capacity - 1)
    ensures var v2 := Advance(Advance(v, 0, c.remoteCost, now, DONE), 0, c.remoteCost, now, DONE);
            v2.handler.phase == Recording(E.Local, 0.0) && v2.tracker == v.tracker && v2.queue == Q.Idle(c.capacity)
  {
    var v1 := Advance(v, 0, c.remoteCost, now, DONE);
    assert v1.handler.phase == Leaving(None, 0.0) && v1.queue == v.queue;
  }

  lemma LocalAnswers(c: Config, now: real)
    requires CanZero(c) && Grants(c, Amount(0.0, c.settings.localSeed))
    ensures var v := GrantedView(c, Fast, c.settings.localSeed, Amount(0.0, c.settings.localSeed), now, InLocal, 1);
            EstimatesZero(Drive(v, 0, c.remoteCost, now, FOUR + FOUR))
  {
    var v := GrantedView(c, Fast, c.settings.localSeed, Amount(0.0, c.settings.localSeed), now, InLocal, 1);
    var v2 := Advance(Advance(v, 0, c.remoteCost, now, DONE), 0, c.remoteCost, now, DONE);
    var v4 := Advance(Advance(v2, 0, c.remoteCost, now, DONE), 0, c.remoteCost, now, DONE);
    LocalSettles(c, now);
    LocalLeaves(v2, c, now);
    DriveFour(v, 0, c.remoteCost, now, FOUR, FOUR);
    ZeroRecorded(v4, c, now);
  }

  lemma ZeroRecorded(v: View, c: Config, now: real)
    requires c.settings.alpha == 1.0 && c.capacity > 0
    requires v.handler.phase == Recording(E.Local, 0.0)
    requires v.tracker == E.Seeded(c.settings) && v.queue == Q.Idle(c.capacity)
    ensures EstimatesZero(Drive(v, 0, c.remoteCost, now, FOUR))
  {
    ZeroObservation(v.tracker);
    DriveFour(v, 0, c.remoteCost, now, FOUR, []);
    assert FOUR + [] == FOUR;
  }

  const FAILING := [DONE, DONE, DONE, RaisedRemote]

  /** Granted remote, its backend fails. */
  lemma RemoteFails(c: Config, now: real, rest: seq<BackendReply>)
    requires CanZero(c) && Grants(c, Amount(c.remoteCost, c.settings.remoteSeed))
    ensures var sla, want := c.settings.remoteSeed, Amount(c.remoteCost, c.settings.remoteSeed);
            Drive(FirstView(c, Quality, sla), 0, c.remoteCost, now, FAILING + rest)
            == Drive(GrantedView(c, Quality, sla, want, now, Handling(RemoteFailure), 0), 0, c.remoteCost, now, rest)
  {
    RemoteStarts(c, now);
    var v := FirstView(c, Quality, c.settings.remoteSeed);
    DriveFour(v, 0, c.remoteCost, now, FAILING, rest);
  }

  /** It rolls back and falls back to local, which answers at once. */
  lemma FallbackAnswers(c: Config, sla: real, want: Amount, now: real)
    requires CanZero(c)
    ensures EstimatesZero(Drive(GrantedView(c, Quality, sla, want, now, Handling(RemoteFailure), 0),
                                0, c.remoteCost, now, FOUR + FOUR))
  {
    var v := GrantedView(c, Quality, sla, want, now, Handling(RemoteFailure), 0);
    var v1 := Advance(v, 0, c.remoteCost, now, DONE);
    assert v1.handler.phase == Returning(RemoteFailure);
    GrantedIsActive(c, want, now);
    var v2 := Advance(v1, 0, c.remoteCost, now, DONE);
    assert v2.handler.phase == FallingBack;
    var v3 := Advance(v2, 0, c.remoteCost, now, DONE);
    var v4 := Advance(v3, 0, c.remoteCost, now, DONE);
    assert v4.handler.phase == InFallback && v4.tracker == v.tracker;
    DriveFour(v, 0, c.remoteCost, now, FOUR, FOUR);
    FallbackRecorded(v4, c, now);
  }

  lemma FallbackRecorded(v: View, c: Config, now: real)
    requires c.settings.alpha == 1.0 && c.capacity > 0
    requires v.handler.phase == InFallback
    requires v.tracker == E.Seeded(c.settings) && v.queue == Q.Queue(c.capacity, 1, c.capacity - 1)
    ensures EstimatesZero(Drive(v, 0, c.remoteCost, now, FOUR))
  {
    var v1 := Advance(v, 0, c.remoteCost, now, DONE);
    var v2 := Advance(v1, 0, c.remoteCost, now, DONE);
    assert v2.handler.phase == Recording(E.Local, 0.0);
    ZeroObservation(v2.tracker);
    DriveFour(v, 0, c.remoteCost, now, FOUR, []);
    assert FOUR + [] == FOUR;
  }

  // ---------- the run ----------

  ghost predicate NonNegativeReplies(steps: seq<Step>) {
    forall i :: 0 <= i < |steps| ==> steps[i].Move? && steps[i].reply.Answer? ==> steps[i].reply.latency >= 0.0
  }

  predicate Rejects(config: Config, clock: real, steps: seq<Step>, h: nat) {
    var w := RunAll(Start(config, clock), steps);
    h < |w.handlers| && w.handlers[h].phase == Finished(Rejected)
  }

  lemma {:induction false} MovesNonNegative(h: nat, replies: seq<BackendReply>)
    requires forall i :: 0 <= i < |replies| ==> replies[i] == DONE || replies[i] == RaisedRemote
    ensures NonNegativeReplies(Moves(h, replies))
  {
    if replies != [] { MovesNonNegative(h, replies[1..]); }
  }

  /** A first request that leaves the local estimate at zero, and a second one. */
  function RejectingRun(tier: Tier, sla: real, replies: seq<BackendReply>): seq<Step> {
    Alone(tier, sla, replies) + [Arrive(Fast, 0.0)] + Moves(1, [DONE, DONE, DONE])
  }

  lemma ZeroThenRejected(c: Config, clock: real, tier: Tier, sla: real, replies: seq<BackendReply>)
    requires EstimatesZero(Drive(FirstView(c, tier, sla), 0, c.remoteCost, clock, replies))
    ensures Rejects(c, clock, RejectingRun(tier, sla, replies), 1)
  {
    var w0 := Start(c, clock);
    var w2 := RunAll(w0, Alone(tier, sla, replies));
    SoloRun(c, clock, tier, sla, replies);
    var w3 := Do(w2, Arrive(Fast, 0.0));
    StepInv(w2, Arrive(Fast, 0.0));
    assert w3.handlers[1] == Handler(Refs(0, 0, 0, 0), Fast, 0.0, None, None, Unknown, Arrived);
    assert EstimatesZero(HomeView(w3, 1));
    DriveMoves(w3, 1, [DONE, DONE, DONE]);
    ZeroEstimateRejects(HomeView(w3, 1), c.remoteCost, clock);
    OneStep(w2, Arrive(Fast, 0.0));
    RunAllConcat(w0, Alone(tier, sla, replies), [Arrive(Fast, 0.0)]);
    RunAllConcat(w0, Alone(tier, sla, replies) + [Arrive(Fast, 0.0)], Moves(1, [DONE, DONE, DONE]));
  }

  lemma RunRejects(c: Config, clock: real) returns (steps: seq<Step>)
    requires CanZero(c) && Grantable(c)
    ensures NonNegativeReplies(steps) && Rejects(c, clock, steps, 1)
  {
    var tier, sla, replies;
    if Grants(c, Amount(0.0, c.settings.localSeed)) {
      tier, sla, replies := Fast, c.settings.localSeed, FOUR + (FOUR + FOUR);
      LocalEnters(c, clock, FOUR + FOUR);
      LocalAnswers(c, clock);
    } else {
      tier, sla, replies := Quality, c.settings.remoteSeed, FAILING + (FOUR + FOUR);
      RemoteFails(c, clock, FOUR + FOUR);
      FallbackAnswers(c, sla, Amount(c.remoteCost, sla), clock);
    }
    ZeroThenRejected(c, clock, tier, sla, replies);
    MovesNonNegative(0, replies);
    MovesNonNegative(1, [DONE, DONE, DONE]);
    steps := RejectingRun(tier, sla, replies);
  }

  // ---------- without a grant nothing changes ----------

  /** Nothing was ever granted, so every estimate is still a seed or a multiple of it. */
  predicate UngrantedPhase(p: Phase, s: E.Settings) {
    match p
    case Arrived => true
    case Choosing(look, stage) =>
      && look.estLocal >= s.localSeed && look.estRemote == s.remoteSeed
      && (stage.TryDegraded? ==> stage.degraded >= s.localSeed)
      && (stage.Decided? ==> stage.outcome == FAILED)
    case Finished(r) => r != Rejected
    case _ => false
  }

  ghost predicate Ungranted(w: World) {
    && (forall k :: 0 <= k < |w.ledgers| ==> w.ledgers[k] == Fresh(w.config.cap, w.config.ttl))
    && (forall k :: 0 <= k < |w.trackers| ==> w.trackers[k] == E.Seeded(w.config.settings))
    && (forall h :: 0 <= h < |w.handlers| ==>
          w.handlers[h].claim == None && UngrantedPhase(w.handlers[h].phase, w.config.settings))
  }

  lemma SeedEstimate(s: E.Settings, depth: nat)
    requires s.localSeed > 0.0
    ensures LocalEstimate(E.Seeded(s), depth) >= s.localSeed
  {
    assert s.localSeed * (depth + 1) as real >= s.localSeed * 1.0;
  }

  lemma AdvanceUngranted(v: View, home: nat, c: Config, now: real, reply: BackendReply)
    requires SensibleConfig(c) && !Grantable(c)
    requires v.ledger == Fresh(c.cap, c.ttl) && v.tracker == E.Seeded(c.settings)
    requires v.handler.claim == None && UngrantedPhase(v.handler.phase, c.settings)
    ensures var v' := Advance(v, home, c.remoteCost, now, reply);
            && v'.ledger == v.ledger && v'.tracker == v.tracker
            && v'.handler.claim == None && UngrantedPhase(v'.handler.phase, c.settings)
  {
    match v.handler.phase
    case Arrived => SeedEstimate(c.settings, v.queue.active);
    case Choosing(look, stage) => SeedEstimate(c.settings, look.queueDepth);
    case _ =>
  }

  lemma StepUngranted(w: World, s: Step)
    requires WorldInv(w) && SensibleConfig(w.config) && !Grantable(w.config) && Ungranted(w)
    ensures Ungranted(Do(w, s))
  {
    if s.Move? && s.h < |w.handlers| {
      var k := w.handlers[s.h].refs.bm;
      assert AtHome(w.handlers[s.h], |w.ledgers|);
      MoveStaysHome(w, s.h, s.reply);
      AdvanceUngranted(HomeView(w, s.h), k, w.config, w.clock, s.reply);
    }
  }

  lemma {:induction false} RunUngranted(w: World, steps: seq<Step>)
    requires WorldInv(w) && SensibleConfig(w.config) && !Grantable(w.config) && Ungranted(w)
    ensures Ungranted(RunAll(w, steps))
    decreases |steps|
  {
    if steps != [] {
      StepUngranted(w, steps[0]);
      StepInv(w, steps[0]);
      assert Do(w, steps[0]).config == w.config;
      RunUngranted(Do(w, steps[0]), steps[1..]);
    }
  }

  /**
   Some request is turned away by an invalid reservation call, in some run whose backends report
   non-negative latencies, if and only if the smoothing factor is 1 and a fresh manager grants a
   request at the seed estimates.
   */
  lemma RejectionExact(config: Config, clock: real)
    requires SensibleConfig(config) && config.capacity > 0
    ensures (exists steps, h :: NonNegativeReplies(steps) && Rejects(config, clock, steps, h))
       <==> config.settings.alpha == 1.0 && Grantable(config)
  {
    if config.settings.alpha == 1.0 && Grantable(config) {
      var steps := RunRejects(config, clock);
      assert Rejects(config, clock, steps, 1);
    } else {
      forall steps, h | NonNegativeReplies(steps) ensures !Rejects(config, clock, steps, h) {
        if Rejects(config, clock, steps, h) {
          if config.settings.alpha < 1.0 {
            NeverRejected(config, clock, steps, h);
          } else {
            StartInv(config, clock);
            RunUngranted(Start(config, clock), steps);
          }
        }
      }
    }
  }
}
