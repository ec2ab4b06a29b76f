/**
 What the ledger answers a handler, in every run of the endpoint, in plain terms; and that a
 reservation is safe from the reaper for as long as it was promised.
 */
module RouterAnswers {
  import opened Amounts
  import opened Ledgers
  import opened LedgerInvariant
  import opened LedgerAnswers
  import S = Settlement
  import opened Options
  import opened Routing
  import opened Routers
  import opened RouterInvariant
  import opened RouterPreservation
  import opened RouterProgress
  import opened RouterLedgers
  import opened RouterBilling

  lemma LedgersReachable(config: Config, clock: real, steps: seq<Step>, k: nat)
    requires k < |RunAll(Start(config, clock), steps).ledgers|
    ensures Reachable(RunAll(Start(config, clock), steps).ledgers[k], config.cap, config.ttl)
  {
    StartInv(config, clock);
    EveryLedgerIsARun(Start(config, clock), steps, k);
    assert RunAll(Start(config, clock), steps).ledgers[k]
        == Ledgers.Run(Fresh(config.cap, config.ttl), Log(Start(config, clock), steps, k));
  }

  /** What a stage asks for. */
  function Asked(stage: Stage, s: Snapshot, remoteCost: real): Amount
    requires Attempting(stage)
  {
    match stage
    case TryLocal(_) => Amount(0.0, s.estLocal)
    case TryRemote => Amount(remoteCost, s.estRemote)
    case TryDegraded(_, degraded) => Amount(0.0, degraded)
  }

  /**
   In every run, an attempt is granted if and only if its amounts are valid and, on its own manager,
   what was committed, what is reserved and what it asks for fit under both caps plus 1e-12.  Then
   the handler holds a reservation of exactly that, made now, and otherwise none.
   */
  lemma AttemptAnswered(config: Config, clock: real, steps: seq<Step>, h: nat, reply: BackendReply)
    requires var w := RunAll(Start(config, clock), steps);
             h < |w.handlers| && w.handlers[h].phase.Choosing? && Attempting(w.handlers[h].phase.stage)
    ensures var w := RunAll(Start(config, clock), steps);
            var x, k := w.handlers[h], w.handlers[h].refs.bm;
            && k < |w.ledgers|
            && var want := Asked(x.phase.stage, x.phase.snapshot, config.remoteCost);
               var w' := Do(w, Move(h, reply));
               var granted := want.cost >= 0.0 && want.latency >= 0.0 && (want.cost > 0.0 || want.latency > 0.0)
                              && Affordable(w.ledgers[k], config.cap, want.cost, want.latency);
               var r := Reservation(|w.ledgers[k].issued|, want, w.clock, config.ttl);
               && h < |w'.handlers| && w'.handlers[h].claim == (if granted then Some(Claim(k, r)) else None)
               && k < |w'.ledgers|
               && w'.ledgers[k].active == w.ledgers[k].active + if granted then [r] else []
  {
    ReachableInv(config, clock, steps);
    ConfigFixed(Start(config, clock), steps);
    var w := RunAll(Start(config, clock), steps);
    var x, k := w.handlers[h], w.handlers[h].refs.bm;
    assert AtHome(x, |w.ledgers|) && ClaimFits(w.ledgers[k], x);
    LedgersReachable(config, clock, steps, k);
    MoveStaysHome(w, h, reply);
    var want := Want(x.phase.snapshot, x.phase.stage, config.remoteCost);
    ReserveAnswer(w.ledgers[k], config.cap, config.ttl, want, w.clock);
  }

  /**
   In every run, a handler's commit succeeds if and only if its reservation is pending, the actual
   cost is at most the reserved cost plus 1e-9, and the latencies committed so far and this one come
   to at most the cap plus 1e-9; it is charged then and only then.
   */
  lemma CommitAnswered(config: Config, clock: real, steps: seq<Step>, h: nat, reply: BackendReply)
    requires var w := RunAll(Start(config, clock), steps);
             h < |w.handlers| && w.handlers[h].phase.Settling?
    ensures var w := RunAll(Start(config, clock), steps);
            var x, k := w.handlers[h], w.handlers[h].refs.bm;
            && k < |w.ledgers| && x.claim.Some?
            && var l, r, actual := w.ledgers[k], x.claim.value.reservation, x.phase.actual;
               var w' := Do(w, Move(h, reply));
               var good := actual.cost <= r.amount.cost + 0.000000001
                           && CommittedLatency(l.commits) + actual.latency <= config.cap.latency + 0.000000001;
               && h < |w'.handlers| && k < |w'.ledgers|
               && (w'.handlers[h].phase.Reviewing? <==> PendingAt(l, r.id) && good)
               && (Raises(w'.handlers[h].phase, OverReservation) <==> PendingAt(l, r.id) && !good)
               && (Raises(w'.handlers[h].phase, OtherFailure) <==> !PendingAt(l, r.id))
               && w'.ledgers[k].commits
                  == l.commits + if PendingAt(l, r.id) && good then [Ledgers.Settlement(r.id, actual)] else []
  {
    StartInv(config, clock);
    ReachableInv(config, clock, steps);
    RunClaimsPresent(Start(config, clock), steps);
    ConfigFixed(Start(config, clock), steps);
    var w := RunAll(Start(config, clock), steps);
    var x, k := w.handlers[h], w.handlers[h].refs.bm;
    assert AtHome(x, |w.ledgers|) && ClaimFits(w.ledgers[k], x);
    LedgersReachable(config, clock, steps, k);
    MoveStaysHome(w, h, reply);
    CommitAnswer(w.ledgers[k], config.cap, config.ttl, x.claim.value.reservation.id, x.phase.actual);
  }

  /** The handler is handling this exception, or on its way there through its slot's release. */
  predicate Raises(p: Phase, f: Failure) {
    p == Handling(f) || (p.Leaving? && p.raised == Some(f))
  }

  // ---------- the reaper keeps its hands off ----------

  /**
   In every run, a sweep settles a pending reservation if and only if it is its own manager's and
   the reading taken for that reservation is later than its creation plus the time to live.
   */
  lemma SweepAnswered(config: Config, clock: real, steps: seq<Step>, readings: seq<real>, k: nat, id: nat)
    requires var w := RunAll(Start(config, clock), steps); k < |w.ledgers| && PendingAt(w.ledgers[k], id)
    ensures var w := RunAll(Start(config, clock), steps);
            var w' := Do(w, Reap(readings));
            && k < |w'.ledgers|
            && (!PendingAt(w'.ledgers[k], id) <==>
                  && k == w.app.bm && ReadingsFit(w, readings)
                  && exists i :: 0 <= i < |readings| && w.ledgers[k].active[i].id == id
                                 && readings[i] > w.ledgers[k].active[i].createdAt + config.ttl)
  {
    ReachableInv(config, clock, steps);
    var w := RunAll(Start(config, clock), steps);
    LedgersReachable(config, clock, steps, k);
    if k == w.app.bm && ReadingsFit(w, readings) {
      var l := w.ledgers[k];
      SweepAnswer(l, config.cap, config.ttl, readings);
      assert Sound(w, k);
      assert Has(l.active, id);
    }
  }

  /** Phases in which a handler still counts on its reservation. */
  predicate Owing(p: Phase) {
    match p
    case Choosing(_, Decided(_, _)) => true
    case InRemote => true
    case WantsSlot => true
    case InLocal => true
    case Settling(_, _) => true
    case _ => false
  }

  ghost predicate SafeClaim(w: World, x: Handler) {
    x.claim.Some? && Owing(x.phase) ==>
      && x.refs.bm < |w.ledgers|
      && (PendingAt(w.ledgers[x.refs.bm], x.claim.value.reservation.id)
          || w.clock > x.claim.value.reservation.createdAt + w.config.ttl)
  }

  ghost predicate SafeClaims(w: World) {
    forall h :: 0 <= h < |w.handlers| ==> SafeClaim(w, w.handlers[h])
  }

  lemma AdvanceSafe(v: View, home: nat, remoteCost: real, now: real, reply: BackendReply)
    requires Inv(v.ledger) && ClaimFits(v.ledger, v.handler)
    ensures var v' := Advance(v, home, remoteCost, now, reply);
            v'.handler.claim.Some? && Owing(v'.handler.phase) ==>
              var id := v'.handler.claim.value.reservation.id;
              && (v.handler.claim.Some? ==> v'.handler.claim == v.handler.claim && Owing(v.handler.phase))
              && (v.handler.claim.Some? && PendingAt(v.ledger, id) ==> PendingAt(v'.ledger, id))
              && (v.handler.claim == None ==> PendingAt(v'.ledger, id))
  {}

  /** Another handler's step leaves a pending reservation pending. */
  lemma OthersSafe(w: World, h: nat, reply: BackendReply, i: nat)
    requires WorldInv(w) && ClaimsDistinct(w) && h < |w.handlers| && i < |w.handlers| && h != i
    requires w.handlers[i].claim.Some? && w.handlers[i].refs.bm < |w.ledgers|
    requires PendingAt(w.ledgers[w.handlers[i].refs.bm], w.handlers[i].claim.value.reservation.id)
    ensures var w' := Do(w, Move(h, reply));
            && w.handlers[i].refs.bm < |w'.ledgers|
            && PendingAt(w'.ledgers[w.handlers[i].refs.bm], w.handlers[i].claim.value.reservation.id)
  {
    var k, id := w.handlers[h].refs.bm, w.handlers[i].claim.value.reservation.id;
    assert AtHome(w.handlers[h], |w.ledgers|) && Sound(w, k);
    MoveStaysHome(w, h, reply);
    if w.handlers[i].refs.bm == k {
      AdvanceLedger(HomeView(w, h), k, w.config.remoteCost, w.clock, reply);
      var e := StepEvent(w.handlers[h], w.config.remoteCost, w.clock);
      if w.handlers[h].claim.Some? { ClaimIds(w, h, i); }
      if e.Some? { S.StepStates(w.ledgers[k], e.value, id); }
    }
  }

  lemma MoveSafe(w: World, h: nat, reply: BackendReply)
    requires WorldInv(w) && ClaimsDistinct(w) && SafeClaims(w) && h < |w.handlers|
    ensures SafeClaims(Do(w, Move(h, reply)))
  {
    var w', k := Do(w, Move(h, reply)), w.handlers[h].refs.bm;
    assert AtHome(w.handlers[h], |w.ledgers|) && Sound(w, k) && ClaimFits(w.ledgers[k], w.handlers[h]);
    MoveStaysHome(w, h, reply);
    SteppedClaim(w, h, reply);
    AdvanceSafe(HomeView(w, h), k, w.config.remoteCost, w.clock, reply);
    forall i | 0 <= i < |w'.handlers| ensures SafeClaim(w', w'.handlers[i]) {
      assert SafeClaim(w, w.handlers[i]);
      if i != h && w.handlers[i].claim.Some? && Owing(w.handlers[i].phase)
         && PendingAt(w.ledgers[w.handlers[i].refs.bm], w.handlers[i].claim.value.reservation.id) {
        OthersSafe(w, h, reply, i);
      }
    }
  }

  lemma ReapSafeFor(w: World, readings: seq<real>, x: Handler)
    requires ReadingsFit(w, readings) && Inv(w.ledgers[w.app.bm]) && SafeClaim(w, x)
    requires Reachable(w.ledgers[w.app.bm], w.config.cap, w.config.ttl)
    requires x.refs.bm < |w.ledgers| && ClaimFits(w.ledgers[x.refs.bm], x)
    ensures SafeClaim(Do(w, Reap(readings)), x)
  {
    var w', l := Do(w, Reap(readings)), w.ledgers[w.app.bm];
    if x.claim.Some? && Owing(x.phase) && x.refs.bm == w.app.bm && PendingAt(l, x.claim.value.reservation.id) {
      TakenLate(l, w.config.cap, w.config.ttl, readings, x.claim.value.reservation, w'.clock);
    }
    if x.claim.Some? && Owing(x.phase) && x.refs.bm == w.app.bm && !PendingAt(l, x.claim.value.reservation.id) {
      assert w.clock > x.claim.value.reservation.createdAt + w.config.ttl;
    }
  }

  lemma ReapSafe(w: World, readings: seq<real>)
    requires WorldInv(w) && SafeClaims(w) && ReadingsFit(w, readings)
    requires Reachable(w.ledgers[w.app.bm], w.config.cap, w.config.ttl)
    ensures SafeClaims(Do(w, Reap(readings)))
  {
    assert Sound(w, w.app.bm);
    forall h | 0 <= h < |w.handlers| ensures SafeClaim(Do(w, Reap(readings)), w.handlers[h]) {
      assert SafeClaim(w, w.handlers[h]) && ClaimFits(w.ledgers[w.handlers[h].refs.bm], w.handlers[h]);
      ReapSafeFor(w, readings, w.handlers[h]);
    }
  }

  /** What a sweep takes was past its time to live by the last reading. */
  lemma TakenLate(l: Ledger, cap: Amount, ttl: real, readings: seq<real>, r: Reservation, last: real)
    requires Reachable(l, cap, ttl) && |readings| == |l.active| && PendingAt(l, r.id)
    requires r.id < |l.issued| && l.issued[r.id] == r
    requires forall i :: 0 <= i < |readings| ==> readings[i] <= last
    ensures var l' := Sweep(l, readings).0; PendingAt(l', r.id) || last > r.createdAt + ttl
  {
    ReachableFacts(l, cap, ttl);
    SweepAnswer(l, cap, ttl, readings);
    assert Has(l.active, r.id);
    var i :| 0 <= i < |l.active| && l.active[i].id == r.id;
    assert l.active[i] in l.active;
  }

  lemma {:induction false} RunSafe(config: Config, clock: real, steps: seq<Step>)
    ensures SafeClaims(RunAll(Start(config, clock), steps))
    decreases |steps|
  {
    if steps != [] {
      var init, s := steps[..|steps| - 1], steps[|steps| - 1];
      assert steps == init + [s];
      RunSafe(config, clock, init);
      StartInv(config, clock);
      ReachableInv(config, clock, init);
      RunDistinct(Start(config, clock), init);
      RunSnoc(Start(config, clock), init, s);
      StepSafe(config, clock, init, s);
    }
  }

  lemma StepSafe(config: Config, clock: real, init: seq<Step>, s: Step)
    requires var w := RunAll(Start(config, clock), init); WorldInv(w) && ClaimsDistinct(w) && SafeClaims(w)
    ensures SafeClaims(Do(RunAll(Start(config, clock), init), s))
  {
    var w := RunAll(Start(config, clock), init);
    match s
    case Move(h, reply) => if h < |w.handlers| { MoveSafe(w, h, reply); }
    case Reap(readings) =>
      if ReadingsFit(w, readings) {
        LedgersReachable(config, clock, init, w.app.bm);
        ConfigFixed(Start(config, clock), init);
        ReapSafe(w, readings);
      }
    case Cancel(h) => if h < |w.handlers| { CancelSafe(w, h); }
    case _ =>
      assert forall h :: 0 <= h < |w.handlers| ==> SafeClaim(w, w.handlers[h]);
  }

  lemma CancelSafe(w: World, h: nat)
    requires SafeClaims(w) && h < |w.handlers|
    ensures SafeClaims(Do(w, Cancel(h)))
  {
    var w' := Do(w, Cancel(h));
    forall i | 0 <= i < |w'.handlers| ensures SafeClaim(w', w'.handlers[i]) {
      assert SafeClaim(w, w.handlers[i]);
    }
  }

  /**
   A reservation is kept for as long as it was promised: a handler that comes to commit no later than
   created_at plus the time to live finds its reservation pending, so its commit is never refused as
   not active, whatever sweeps, resets and other handlers did meanwhile.
   */
  lemma InTimeIsKept(config: Config, clock: real, steps: seq<Step>, h: nat, reply: BackendReply)
    requires var w := RunAll(Start(config, clock), steps);
             && h < |w.handlers| && w.handlers[h].phase.Settling? && w.handlers[h].claim.Some?
             && w.clock <= w.handlers[h].claim.value.reservation.createdAt + config.ttl
    ensures var w := RunAll(Start(config, clock), steps);
            var x := w.handlers[h];
            && x.refs.bm < |w.ledgers| && PendingAt(w.ledgers[x.refs.bm], x.claim.value.reservation.id)
            && h < |Do(w, Move(h, reply)).handlers| && !Raises(Do(w, Move(h, reply)).handlers[h].phase, OtherFailure)
  {
    RunSafe(config, clock, steps);
    ConfigFixed(Start(config, clock), steps);
    assert SafeClaim(RunAll(Start(config, clock), steps), RunAll(Start(config, clock), steps).handlers[h]);
    CommitAnswered(config, clock, steps, h, reply);
  }
}
