/**
 What holds of every interleaving of handlers, sweeps, cancellations, clock ticks and resets.
 */
module RouterTheorems {
  import opened Amounts
  import opened Ledgers
  import opened LedgerInvariant
  import opened Reaping
  import opened Options
  import opened Routers
  import opened RouterInvariant
  import opened RouterPreservation
  import Q = QueueMonitors

  // ---------- no leak ----------

  ghost predicate Quiet(w: World) {
    forall h :: 0 <= h < |w.handlers| ==> !Live(w.handlers[h])
  }

  /** A handler that was cancelled while it still owed the k-th manager its reservation. */
  predicate Orphan(w: World, h: nat, k: nat, r: Reservation)
    requires h < |w.handlers|
  {
    w.handlers[h].phase == Finished(Dropped) && w.handlers[h].claim == Some(Claim(k, r))
  }

  /** A sweep of the k-th manager has run after every orphan's time to live. */
  ghost predicate OrphansSwept(w: World, k: nat)
    requires k < |w.swept|
  {
    forall h, r :: 0 <= h < |w.handlers| && Orphan(w, h, k, r) ==>
      r.createdAt < w.swept[k] && Expired(r, w.swept[k])
  }

  /** Cancellation is the only exit that leaves a reservation behind. */
  lemma OnlyOrphansRemain(w: World, k: nat, r: Reservation)
    requires WorldInv(w) && Quiet(w) && k < |w.ledgers|
    ensures r in w.ledgers[k].active <==>
            exists h :: 0 <= h < |w.handlers| && Orphan(w, h, k, r) && w.ledgers[k].status[r.id] == Pending
  {
    var l := w.ledgers[k];
    assert Sound(w, k);
    if r in l.active {
      HasMember(l.active, r.id);
      assert Owned(w, k, r);
      var h :| 0 <= h < |w.handlers| && w.handlers[h].claim == Some(Claim(k, r));
      assert AtHome(w.handlers[h], |w.ledgers|) && ClaimFits(l, w.handlers[h]);
      assert !Live(w.handlers[h]);
      assert Orphan(w, h, k, r);
    }
    if h :| 0 <= h < |w.handlers| && Orphan(w, h, k, r) && l.status[r.id] == Pending {
      assert AtHome(w.handlers[h], |w.ledgers|) && ClaimFits(l, w.handlers[h]);
      assert Has(l.active, r.id);
      HasMember(l.active, r.id);
    }
  }

  lemma SlotsIdle(w: World, k: nat)
    requires WorldInv(w) && Quiet(w) && k < |w.ledgers|
    ensures w.queues[k] == Q.Idle(w.config.capacity)
  {
    assert Sound(w, k);
    NoHolders(w.handlers, k);
  }

  lemma NoLeakAt(w: World, k: nat)
    requires WorldInv(w) && Quiet(w) && k < |w.ledgers| && OrphansSwept(w, k)
    ensures w.ledgers[k].active == [] && w.ledgers[k].reserved == ZERO
    ensures w.queues[k] == Q.Idle(w.config.capacity)
  {
    SlotsIdle(w, k);
    assert Sound(w, k);
    if w.ledgers[k].active != [] {
      OnlyOrphansRemain(w, k, w.ledgers[k].active[0]);
    }
  }

  /**
   No leak.  In every run, once no handler is live, the slots of every manager are free; and if
   a sweep has run after every orphan's time to live, no reservation is active and both
   reserved totals are zero.
   */
  lemma NoLeak(config: Config, clock: real, steps: seq<Step>, k: nat)
    requires var w := RunAll(Start(config, clock), steps);
             k < |w.ledgers| && k < |w.swept| && Quiet(w) && OrphansSwept(w, k)
    ensures var w := RunAll(Start(config, clock), steps);
            && w.ledgers[k].active == [] && w.ledgers[k].reserved == ZERO
            && k < |w.queues| && w.queues[k] == Q.Idle(config.capacity)
  {
    var w := RunAll(Start(config, clock), steps);
    ReachableInv(config, clock, steps);
    ConfigFixed(Start(config, clock), steps);
    NoLeakAt(w, k);
  }

  /** A sweep that starts after every active reservation's time to live recovers all of them at once. */
  lemma SweepRecovers(w: World, readings: seq<real>)
    requires WorldInv(w) && ReadingsFit(w, readings)
    requires forall r :: r in w.ledgers[w.app.bm].active ==> Expired(r, w.clock)
    ensures var l := Do(w, Reap(readings)).ledgers[w.app.bm];
            l.active == [] && l.reserved == ZERO
  {
    var l := w.ledgers[w.app.bm];
    assert Sound(w, w.app.bm);
    SweepExact(l, readings);
    NoneSurvives(l.active, readings, w.clock);
    ApplyInv(l, SweepCall(readings));
  }

  lemma {:induction false} NoneSurvives(rs: seq<Reservation>, clock: seq<real>, start: real)
    requires |clock| == |rs|
    requires forall i :: 0 <= i < |clock| ==> start <= clock[i]
    requires forall r :: r in rs ==> Expired(r, start)
    ensures Survivors(rs, clock) == []
  {
    if rs != [] {
      assert rs[0] in rs;
      NoneSurvives(rs[1..], clock[1..], start);
    }
  }

  /**
   Recovery in time.  Whenever the current manager's last sweep began at most `interval` ago, none
   of its reservations has outlived its time to live by more than that, whoever holds it.
   */
  lemma RecoveredInTime(config: Config, clock: real, steps: seq<Step>, interval: real)
    requires interval >= 0.0
    requires var w := RunAll(Start(config, clock), steps);
             w.app.bm < |w.swept| && w.clock <= w.swept[w.app.bm] + interval
    ensures var w := RunAll(Start(config, clock), steps);
            w.app.bm < |w.ledgers| &&
            forall r :: r in w.ledgers[w.app.bm].active && r.ttl >= 0.0 ==>
              w.clock <= r.createdAt + r.ttl + interval
  {
    ReachableInv(config, clock, steps);
    var w := RunAll(Start(config, clock), steps);
    assert Sound(w, w.app.bm);
  }

  // ---------- reset isolation ----------

  /** Two worlds agree on the j-th managers. */
  ghost predicate SameManagers(w: World, w': World, j: nat)
    requires j < |w.ledgers| && j < |w.queues| && j < |w.trackers|
  {
    && j < |w'.ledgers| && j < |w'.queues| && j < |w'.trackers|
    && w'.ledgers[j] == w.ledgers[j] && w'.queues[j] == w.queues[j] && w'.trackers[j] == w.trackers[j]
  }

  lemma {:induction false} RefsFixed(w: World, steps: seq<Step>, h: nat)
    requires WorldInv(w) && h < |w.handlers|
    ensures var w' := RunAll(w, steps);
            && WorldInv(w') && h < |w'.handlers| && w'.handlers[h].refs == w.handlers[h].refs
            && |w.ledgers| <= |w'.ledgers|
    decreases |steps|
  {
    if steps != [] {
      StepInv(w, steps[0]);
      StepRefs(w, steps[0], h);
      RefsFixed(Do(w, steps[0]), steps[1..], h);
    }
  }

  lemma StepRefs(w: World, s: Step, h: nat)
    requires WorldInv(w) && h < |w.handlers|
    ensures var w' := Do(w, s);
            h < |w'.handlers| && w'.handlers[h].refs == w.handlers[h].refs && |w.ledgers| <= |w'.ledgers|
  {
    if s.Move? && s.h < |w.handlers| {
      MoveStaysHome(w, s.h, s.reply);
      SteppedClaim(w, s.h, s.reply);
    }
  }

  /**
   Reset isolation.  However the run goes on after a handler started, resets included, each of
   its steps leaves every set of managers but the one it started with untouched, and the three
   it reads and writes are that one set.
   */
  lemma ResetIsolation(w: World, steps: seq<Step>, h: nat, reply: BackendReply)
    requires WorldInv(w) && h < |w.handlers|
    ensures var home := w.handlers[h].refs.bm;
            var w1 := RunAll(w, steps);
            var w2 := Do(w1, Move(h, reply));
            && h < |w1.handlers| && Site(w1, w1.handlers[h]) == Wiring(home, home, home)
            && |w1.queues| == |w1.trackers| == |w1.ledgers|
            && (forall j :: 0 <= j < |w1.ledgers| && j != home ==> SameManagers(w1, w2, j))
  {
    RefsFixed(w, steps, h);
    var w1 := RunAll(w, steps);
    MoveStaysHome(w1, h, reply);
    assert AtHome(w1.handlers[h], |w1.ledgers|);
  }
}
