/**
 Which reservations can still be recovered: a reset stops the old manager's reaper, so what a
 cancelled handler left there stays reserved for good.
 */
module RouterRecovery {
  import opened Amounts
  import opened Ledgers
  import opened LedgerInvariant
  import opened Settlement
  import opened Reaping
  import opened Options
  import opened Routing
  import opened Routers
  import opened RouterInvariant
  import opened RouterPreservation
  import opened RouterProgress
  import opened RouterTheorems

  // ---------- managers that nobody uses any more ----------

  /** Managers that a reset has replaced and that no live handler uses any more. */
  ghost predicate Abandoned(w: World, k: nat) {
    && k != w.app.bm
    && forall h :: 0 <= h < |w.handlers| && w.handlers[h].refs.bm == k ==> !Live(w.handlers[h])
  }

  lemma StepAbandoned(w: World, s: Step, k: nat)
    requires WorldInv(w) && k < |w.ledgers| && Abandoned(w, k)
    ensures var w' := Do(w, s); k < |w'.ledgers| && Abandoned(w', k) && SameManagers(w, w', k)
  {
    match s
    case Move(h, reply) =>
      if h < |w.handlers| {
        MoveStaysHome(w, h, reply);
        SteppedClaim(w, h, reply);
      }
    case _ =>
  }

  /** Such managers never change again: ledger, slots and latency estimates alike. */
  lemma {:induction false} AbandonedForever(w: World, k: nat, steps: seq<Step>)
    requires WorldInv(w) && k < |w.ledgers| && Abandoned(w, k)
    ensures SameManagers(w, RunAll(w, steps), k)
    decreases |steps|
  {
    if steps != [] {
      StepAbandoned(w, steps[0], k);
      StepInv(w, steps[0]);
      AbandonedForever(Do(w, steps[0]), k, steps[1..]);
    }
  }

  // ---------- when a reservation can be recovered ----------

  /** A cancelled handler that has only its slot left to give back. */
  predicate OnWayOut(p: Phase) {
    p == Handling(Cancellation) || (p.Leaving? && p.raised == Some(Cancellation))
  }

  /** The handler owns reservation `id` of the k-th manager and is still going to settle it. */
  predicate Answers(x: Handler, k: nat, id: nat) {
    && x.claim.Some? && x.claim.value.manager == k && x.claim.value.reservation.id == id
    && Live(x) && !OnWayOut(x.phase)
  }

  ghost predicate Unanswered(w: World, k: nat, id: nat) {
    forall h :: 0 <= h < |w.handlers| ==> !Answers(w.handlers[h], k, id)
  }

  ghost predicate Recoverable(w: World, k: nat, id: nat) {
    || k == w.app.bm
    || exists h :: 0 <= h < |w.handlers| && Answers(w.handlers[h], k, id)
  }

  predicate IsPending(w: World, k: nat, id: nat) {
    k < |w.ledgers| && id < |w.ledgers[k].status| && w.ledgers[k].status[id] == Pending
  }

  ghost predicate EverSettled(w: World, k: nat, id: nat) {
    exists steps :: !IsPending(RunAll(w, steps), k, id)
  }

  /** A handler's step settles no reservation but its own, and its own only on its way to answer for it. */
  lemma AdvanceStuck(v: View, home: nat, remoteCost: real, now: real, reply: BackendReply, id: nat)
    requires Inv(v.ledger) && id < |v.ledger.status| && v.ledger.status[id] == Pending
    requires ClaimFits(v.ledger, v.handler) && RoutedFairly(v.handler, remoteCost)
    requires v.handler.claim.Some? ==> v.handler.claim.value.manager == home
    requires !Answers(v.handler, home, id)
    ensures var v' := Advance(v, home, remoteCost, now, reply);
            && id < |v'.ledger.status| && v'.ledger.status[id] == Pending
            && !Answers(v'.handler, home, id)
  {
    var e := StepEvent(v.handler, remoteCost, now);
    AdvanceLedger(v, home, remoteCost, now, reply);
    AdvanceClaim(v, home, remoteCost, now, reply);
    if e.Some? { StepStates(v.ledger, e.value, id); }
  }

  lemma MoveStuck(w: World, h: nat, reply: BackendReply, k: nat, id: nat)
    requires WorldInv(w) && IsPending(w, k, id) && Unanswered(w, k, id) && h < |w.handlers|
    ensures var w' := Do(w, Move(h, reply)); IsPending(w', k, id) && Unanswered(w', k, id)
  {
    var home := w.handlers[h].refs.bm;
    assert AtHome(w.handlers[h], |w.ledgers|) && Sound(w, home);
    MoveStaysHome(w, h, reply);
    SteppedClaim(w, h, reply);
    if home == k {
      AdvanceStuck(HomeView(w, h), k, w.config.remoteCost, w.clock, reply, id);
    }
  }

  lemma StepStuck(w: World, s: Step, k: nat, id: nat)
    requires WorldInv(w) && IsPending(w, k, id) && Unanswered(w, k, id)
    requires s.Reap? ==> k != w.app.bm
    ensures var w' := Do(w, s); IsPending(w', k, id) && Unanswered(w', k, id) && (k != w.app.bm ==> k != w'.app.bm)
  {
    match s
    case Move(h, reply) => if h < |w.handlers| { MoveStuck(w, h, reply, k, id); }
    case _ =>
  }

  lemma {:induction false} StuckForever(w: World, steps: seq<Step>, k: nat, id: nat)
    requires WorldInv(w) && IsPending(w, k, id) && !Recoverable(w, k, id)
    ensures IsPending(RunAll(w, steps), k, id)
    decreases |steps|
  {
    if steps != [] {
      StepStuck(w, steps[0], k, id);
      StepInv(w, steps[0]);
      StuckForever(Do(w, steps[0]), steps[1..], k, id);
    }
  }

  /** A handler goes on answering for a reservation until it is settled, unless it is cancelled. */
  lemma AdvanceAnswers(v: View, home: nat, remoteCost: real, now: real, reply: BackendReply, id: nat)
    requires Inv(v.ledger) && id < |v.ledger.status| && v.ledger.status[id] == Pending
    requires ClaimFits(v.ledger, v.handler) && RoutedFairly(v.handler, remoteCost)
    requires Answers(v.handler, home, id)
    ensures var v' := Advance(v, home, remoteCost, now, reply);
            || (id < |v'.ledger.status| && v'.ledger.status[id] != Pending)
            || Answers(v'.handler, home, id)
  {
    AdvanceLedger(v, home, remoteCost, now, reply);
    AdvanceClaim(v, home, remoteCost, now, reply);
    if v.handler.phase.Settling? || v.handler.phase.Returning? {
      StepStates(v.ledger, StepEvent(v.handler, remoteCost, now).value, id);
    }
  }

  lemma MoveAnswers(w: World, h: nat, k: nat, id: nat)
    requires WorldInv(w) && ClaimsPresent(w) && IsPending(w, k, id)
    requires h < |w.handlers| && Answers(w.handlers[h], k, id)
    ensures var w' := Do(w, Move(h, DONE));
            && h < |w'.handlers| && Rank(w'.handlers[h].phase) < Rank(w.handlers[h].phase)
            && (IsPending(w', k, id) ==> Answers(w'.handlers[h], k, id))
  {
    assert AtHome(w.handlers[h], |w.ledgers|) && Sound(w, k) && ClaimFits(w.ledgers[k], w.handlers[h]);
    MoveStaysHome(w, h, DONE);
    StepRank(w, Move(h, DONE), h);
    assert LiveMoves(w, [Move(h, DONE)], h) == 1;
    AdvanceAnswers(HomeView(w, h), k, w.config.remoteCost, w.clock, DONE, id);
  }

  lemma {:induction false} OwnerSettles(w: World, h: nat, k: nat, id: nat) returns (steps: seq<Step>)
    requires WorldInv(w) && ClaimsPresent(w) && IsPending(w, k, id)
    requires h < |w.handlers| && Answers(w.handlers[h], k, id)
    ensures !IsPending(RunAll(w, steps), k, id)
    decreases Rank(w.handlers[h].phase)
  {
    var s := Move(h, DONE);
    MoveAnswers(w, h, k, id);
    StepInv(w, s);
    StepClaimsPresent(w, s);
    OneStep(w, s);
    if IsPending(Do(w, s), k, id) {
      var rest := OwnerSettles(Do(w, s), h, k, id);
      RunAllConcat(w, [s], rest);
      steps := [s] + rest;
    } else {
      steps := [s];
    }
  }

  /** A sweep at a time when the reservation has expired settles it. */
  lemma SweepSettles(w: World, id: nat, readings: seq<real>)
    requires Wired(w) && Inv(w.ledgers[w.app.bm]) && IsPending(w, w.app.bm, id)
    requires readings == seq(|w.ledgers[w.app.bm].active|, _ => w.clock)
    requires id < |w.ledgers[w.app.bm].issued| && Expired(w.ledgers[w.app.bm].issued[id], w.clock)
    ensures !IsPending(Do(w, Reap(readings)), w.app.bm, id)
  {
    var l := w.ledgers[w.app.bm];
    var e := InstantSweep(l, w.clock);
    SweepRemovesExpired(l, w.clock, id);
    ApplyInv(l, e);
    StepIssued(l, e, id);
    PendingIsActive(Apply(l, e), id);
    assert ReadingsFit(w, readings);
    assert Do(w, Reap(readings)).ledgers[w.app.bm] == Apply(l, e);
  }

  lemma ReaperSettles(w: World, id: nat) returns (steps: seq<Step>)
    requires WorldInv(w) && IsPending(w, w.app.bm, id)
    ensures !IsPending(RunAll(w, steps), w.app.bm, id)
  {
    var l := w.ledgers[w.app.bm];
    assert Sound(w, w.app.bm);
    var t := Max(w.clock, l.issued[id].createdAt + l.issued[id].ttl + 1.0);
    var readings := seq(|l.active|, _ => t);
    SweepSettles(Do(w, Tick(t)), id, readings);
    steps := [Tick(t)] + [Reap(readings)];
    OneStep(w, Tick(t));
    OneStep(Do(w, Tick(t)), Reap(readings));
    RunAllConcat(w, [Tick(t)], [Reap(readings)]);
  }

  /**
   Recovery, exactly.  A pending reservation can be settled in some continuation if and only if
   its manager is the current one, or its own handler is live and not on its way out of a
   cancellation.  Otherwise it stays reserved whatever happens and however long it takes.
   */
  lemma RecoveryExact(config: Config, clock: real, before: seq<Step>, k: nat, id: nat)
    requires IsPending(RunAll(Start(config, clock), before), k, id)
    ensures var w := RunAll(Start(config, clock), before); EverSettled(w, k, id) <==> Recoverable(w, k, id)
  {
    var w := RunAll(Start(config, clock), before);
    StartInv(config, clock);
    RunKeepsInv(Start(config, clock), before);
    RunClaimsPresent(Start(config, clock), before);
    if k == w.app.bm {
      var steps := ReaperSettles(w, id);
    } else if h :| 0 <= h < |w.handlers| && Answers(w.handlers[h], k, id) {
      var steps := OwnerSettles(w, h, k, id);
    } else {
      forall steps ensures IsPending(RunAll(w, steps), k, id) {
        StuckForever(w, steps, k, id);
      }
    }
  }

  // ---------- a reset strands what a cancelled handler left ----------

  /** A request that is granted remote and cancelled while its backend runs. */
  function CancelledRun(sla: real): seq<Step> {
    [Arrive(Quality, sla), Move(0, DONE), Move(0, DONE), Move(0, DONE), Cancel(0)]
  }

  /** It is overtaken by a reset, while another request still uses the same managers. */
  function StrandingRun(sla: real): seq<Step> {
    CancelledRun(sla) + [Arrive(Quality, sla), ResetRun]
  }

  lemma CancelledOwes(config: Config, clock: real, sla: real)
    requires config.settings.remoteSeed <= sla
    requires config.settings.remoteSeed > 0.0 && config.remoteCost >= 0.0
    requires Amount(config.remoteCost, config.settings.remoteSeed).AtMost(config.cap)
    ensures var w := RunAll(Start(config, clock), CancelledRun(sla));
            && w.app == Refs(0, 0, 0, 0) && |w.ledgers| == 1 && |w.handlers| == 1
            && w.handlers
               == [Handler(w.app, Quality, sla, w.handlers[0].claim, w.handlers[0].route, Unknown, Finished(Dropped))]
            && IsPending(w, 0, 0)
  {
    var w0 := Start(config, clock);
    var all := CancelledRun(sla);
    var w1 := Do(w0, all[0]);
    var w2 := Do(w1, all[1]);
    var w3 := Do(w2, all[2]);
    var w4 := Do(w3, all[3]);
    var w5 := Do(w4, all[4]);
    assert w2.handlers[0].phase.stage == TryRemote;
    assert w3.ledgers[0].status == [Pending];
    assert RunAll(w0, all) == w5 by {
      assert all[1..][1..] == all[2..] && all[2..][1..] == all[3..] && all[3..][1..] == all[4..] && all[4..][1..] == [];
      assert RunAll(w0, all) == RunAll(w1, all[1..]) == RunAll(w2, all[2..]) == RunAll(w3, all[3..]);
      assert RunAll(w3, all[3..]) == RunAll(w4, all[4..]) == RunAll(w5, []);
    }
  }

  /**
   For every configuration that can grant it, such a request's reservation is never recovered,
   although its manager still has a live handler, whatever happens next.
   */
  lemma ResetStrandsOrphan(config: Config, clock: real, sla: real, steps: seq<Step>)
    requires config.settings.remoteSeed <= sla
    requires config.settings.remoteSeed > 0.0 && config.remoteCost >= 0.0
    requires Amount(config.remoteCost, config.settings.remoteSeed).AtMost(config.cap)
    ensures var w := RunAll(Start(config, clock), StrandingRun(sla));
            && !Abandoned(w, 0) && IsPending(RunAll(w, steps), 0, 0)
  {
    var w0 := Start(config, clock);
    var w5 := RunAll(w0, CancelledRun(sla));
    CancelledOwes(config, clock, sla);
    var w6 := Do(w5, Arrive(Quality, sla));
    var w7 := Do(w6, ResetRun);
    RunAllConcat(w0, CancelledRun(sla), [Arrive(Quality, sla), ResetRun]);
    RunAllConcat(w5, [Arrive(Quality, sla)], [ResetRun]);
    OneStep(w5, Arrive(Quality, sla));
    OneStep(w6, ResetRun);
    assert [Arrive(Quality, sla)] + [ResetRun] == [Arrive(Quality, sla), ResetRun];
    assert w7.handlers[1] == Handler(w5.app, Quality, sla, None, None, Unknown, Arrived);
    ReachableInv(config, clock, StrandingRun(sla));
    StuckForever(w7, steps, 0, 0);
  }
}
