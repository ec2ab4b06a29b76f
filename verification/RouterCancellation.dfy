/**
 What a cancellation leaves behind: the handler's reservation stays reserved exactly when it was
 pending as the cancellation arrived, until a sweep finds it expired.
 */
module RouterCancellation {
  import opened Ledgers
  import opened LedgerInvariant
  import opened Settlement
  import opened Reaping
  import opened Options
  import opened Routers
  import opened RouterInvariant
  import opened RouterPreservation
  import opened RouterProgress
  import opened RouterTheorems
  import opened RouterBilling
  import opened RouterRecovery

  // ---------- when a sweep takes a reservation ----------

  predicate Exists(w: World, k: nat, id: nat) {
    k < |w.ledgers| && id < |w.ledgers[k].status|
  }

  /** The step is a sweep that finds the reservation expired. */
  predicate Takes(w: World, s: Step, k: nat, id: nat) {
    && s.Reap? && ReadingsFit(w, s.readings) && w.app.bm == k
    && exists i :: 0 <= i < |s.readings| && w.ledgers[k].active[i].id == id
                   && Expired(w.ledgers[k].active[i], s.readings[i])
  }

  lemma {:induction false} LapsedIds(rs: seq<Reservation>, clock: seq<real>, id: nat)
    requires |clock| == |rs|
    ensures id in Ids(Lapsed(rs, clock)) <==> exists i :: 0 <= i < |rs| && rs[i].id == id && Expired(rs[i], clock[i])
  {
    if rs != [] {
      LapsedIds(rs[1..], clock[1..], id);
      if i :| 0 <= i < |rs[1..]| && rs[1..][i].id == id && Expired(rs[1..][i], clock[1..][i]) {
        assert rs[i + 1].id == id && Expired(rs[i + 1], clock[i + 1]);
      }
      if i :| 1 <= i < |rs| && rs[i].id == id && Expired(rs[i], clock[i]) {
        assert rs[1..][i - 1].id == id && Expired(rs[1..][i - 1], clock[1..][i - 1]);
      }
    }
  }

  lemma ReapTakes(w: World, readings: seq<real>, k: nat, id: nat)
    requires WorldInv(w) && IsPending(w, k, id)
    ensures var w' := Do(w, Reap(readings));
            Exists(w', k, id) && (IsPending(w', k, id) <==> !Takes(w, Reap(readings), k, id))
  {
    if ReadingsFit(w, readings) && w.app.bm == k {
      var l := w.ledgers[k];
      assert Sound(w, k) && Do(w, Reap(readings)).ledgers[k] == Apply(l, SweepCall(readings));
      StepStates(l, SweepCall(readings), id);
      SweepReports(l, l.active, readings);
      LapsedIds(l.active, readings, id);
    }
  }

  /** A reservation nobody answers for is settled by a sweep that finds it expired, and by nothing else. */
  lemma StepLeft(w: World, s: Step, k: nat, id: nat)
    requires WorldInv(w) && IsPending(w, k, id) && Unanswered(w, k, id)
    ensures var w' := Do(w, s);
            && Exists(w', k, id) && (IsPending(w', k, id) <==> !Takes(w, s, k, id))
            && Unanswered(w', k, id)
  {
    if s.Reap? {
      ReapTakes(w, s.readings, k, id);
    } else {
      StepStuck(w, s, k, id);
    }
  }

  lemma MoveSettled(w: World, h: nat, reply: BackendReply, k: nat, id: nat)
    requires WorldInv(w) && Exists(w, k, id) && !IsPending(w, k, id) && h < |w.handlers|
    ensures Exists(Do(w, Move(h, reply)), k, id) && !IsPending(Do(w, Move(h, reply)), k, id)
  {
    assert AtHome(w.handlers[h], |w.ledgers|);
    MoveStaysHome(w, h, reply);
    SteppedLedger(w, h, reply);
  }

  lemma StepSettled(w: World, s: Step, k: nat, id: nat)
    requires WorldInv(w) && Exists(w, k, id) && !IsPending(w, k, id)
    ensures Exists(Do(w, s), k, id) && !IsPending(Do(w, s), k, id)
  {
    match s
    case Move(h, reply) => if h < |w.handlers| { MoveSettled(w, h, reply, k, id); }
    case Reap(readings) =>
      assert Sound(w, k);
      if ReadingsFit(w, readings) && w.app.bm == k { ApplyExtends(w.ledgers[k], SweepCall(readings)); }
    case _ =>
  }

  function WorldAt(w0: World, steps: seq<Step>, n: nat): World
    requires n <= |steps|
  {
    RunAll(w0, steps[..n])
  }

  lemma NextWorld(w0: World, steps: seq<Step>, n: nat)
    requires n < |steps|
    ensures WorldAt(w0, steps, n + 1) == Do(WorldAt(w0, steps, n), steps[n])
  {
    assert steps[..n + 1] == steps[..n] + [steps[n]];
    RunAllConcat(w0, steps[..n], [steps[n]]);
    OneStep(WorldAt(w0, steps, n), steps[n]);
  }

  /** No sweep from the n-th step on finds the reservation expired. */
  ghost predicate NeverTaken(w0: World, steps: seq<Step>, n: nat, k: nat, id: nat) {
    forall i :: n <= i < |steps| ==> !Takes(WorldAt(w0, steps, i), steps[i], k, id)
  }

  lemma {:induction false} LeftUntilTaken(w0: World, steps: seq<Step>, n: nat, k: nat, id: nat)
    requires WorldInv(w0) && n <= |steps| && Exists(WorldAt(w0, steps, n), k, id)
    requires IsPending(WorldAt(w0, steps, n), k, id) ==> Unanswered(WorldAt(w0, steps, n), k, id)
    ensures IsPending(RunAll(w0, steps), k, id)
       <==> IsPending(WorldAt(w0, steps, n), k, id) && NeverTaken(w0, steps, n, k, id)
    decreases |steps| - n
  {
    if n == |steps| {
      assert steps[..n] == steps;
    } else {
      var w := WorldAt(w0, steps, n);
      NextWorld(w0, steps, n);
      RunKeepsInv(w0, steps[..n]);
      if IsPending(w, k, id) { StepLeft(w, steps[n], k, id); } else { StepSettled(w, steps[n], k, id); }
      LeftUntilTaken(w0, steps, n + 1, k, id);
      assert NeverTaken(w0, steps, n, k, id)
        <==> !Takes(w, steps[n], k, id) && NeverTaken(w0, steps, n + 1, k, id);
    }
  }

  lemma CancelledUnanswered(w: World, h: nat)
    requires WorldInv(w) && ClaimsDistinct(w) && h < |w.handlers| && w.handlers[h].claim.Some?
    ensures var c := w.handlers[h].claim.value;
            && Exists(w, c.manager, c.reservation.id) && Exists(Do(w, Cancel(h)), c.manager, c.reservation.id)
            && (IsPending(w, c.manager, c.reservation.id) <==> IsPending(Do(w, Cancel(h)), c.manager, c.reservation.id))
            && (IsPending(w, c.manager, c.reservation.id) ==>
                  Unanswered(Do(w, Cancel(h)), c.manager, c.reservation.id))
  {
    var x := w.handlers[h];
    var k, id := x.refs.bm, x.claim.value.reservation.id;
    assert AtHome(x, |w.ledgers|) && ClaimFits(w.ledgers[k], x);
    forall i | 0 <= i < |w.handlers| && i != h && w.handlers[i].claim.Some? && w.handlers[i].claim.value.manager == k
      ensures w.handlers[i].claim.value.reservation.id != id
    {
      assert AtHome(w.handlers[i], |w.ledgers|);
      ClaimIds(w, h, i);
    }
  }

  /**
   What a cancellation does to a reservation: it stays reserved after the cancellation, however the
   run goes on, if and only if its state was pending when the cancellation arrived and no later
   sweep of its manager finds it expired.
   */
  lemma CancellationLeaves(config: Config, clock: real, steps: seq<Step>, n: nat, h: nat)
    requires n < |steps| && steps[n] == Cancel(h)
    requires var w := WorldAt(Start(config, clock), steps, n); h < |w.handlers| && w.handlers[h].claim.Some?
    ensures var w := WorldAt(Start(config, clock), steps, n);
            var k, id := w.handlers[h].claim.value.manager, w.handlers[h].claim.value.reservation.id;
            && k < |w.ledgers|
            && (IsPending(RunAll(Start(config, clock), steps), k, id)
                <==> StillPending(w.ledgers[k], w.handlers[h])
                     && NeverTaken(Start(config, clock), steps, n + 1, k, id))
  {
    var w0, w := Start(config, clock), WorldAt(Start(config, clock), steps, n);
    StartInv(config, clock);
    RunKeepsInv(w0, steps[..n]);
    RunDistinct(w0, steps[..n]);
    NextWorld(w0, steps, n);
    CancelledUnanswered(w, h);
    var c := w.handlers[h].claim.value;
    LeftUntilTaken(w0, steps, n + 1, c.manager, c.reservation.id);
  }

  // ---------- what is left behind at rest ----------

  /** At its n-th step the run cancels handler `h` while it owes the k-th manager reservation `r`. */
  ghost predicate CancelsOwing(w0: World, steps: seq<Step>, n: nat, h: nat, k: nat, r: Reservation) {
    && n < |steps| && steps[n] == Cancel(h)
    && var w := WorldAt(w0, steps, n);
       h < |w.handlers| && w.handlers[h].claim == Some(Claim(k, r)) && IsPending(w, k, r.id)
  }

  /** A handler's own step does not stop it from answering for what stays pending. */
  lemma MoveKeepsAnswering(w: World, h: nat, reply: BackendReply, k: nat, r: Reservation)
    requires WorldInv(w) && h < |w.handlers|
    requires var w' := Do(w, Move(h, reply));
             && w'.handlers[h].claim == Some(Claim(k, r)) && !Answers(w'.handlers[h], k, r.id)
             && IsPending(w', k, r.id)
    ensures w.handlers[h].claim == Some(Claim(k, r)) && (IsPending(w, k, r.id) ==> !Answers(w.handlers[h], k, r.id))
  {
    var x := w.handlers[h];
    assert AtHome(x, |w.ledgers|) && Sound(w, x.refs.bm) && ClaimFits(w.ledgers[x.refs.bm], x);
    MoveStaysHome(w, h, reply);
    SteppedClaim(w, h, reply);
    AdvanceClaim(HomeView(w, h), x.refs.bm, w.config.remoteCost, w.clock, reply);
    if Answers(x, k, r.id) && IsPending(w, k, r.id) {
      AdvanceAnswers(HomeView(w, h), k, w.config.remoteCost, w.clock, reply, r.id);
    }
  }

  /** Any other step leaves the handler alone, unless it cancels it. */
  lemma OthersLeaveIt(w: World, s: Step, h: nat)
    requires WorldInv(w) && h < |Do(w, s).handlers| && !(s.Move? && s.h == h) && Do(w, s).handlers[h].claim.Some?
    ensures h < |w.handlers| && w.handlers[h].claim == Do(w, s).handlers[h].claim
    ensures s == Cancel(h) || w.handlers[h] == Do(w, s).handlers[h]
  {
    if s.Move? && s.h < |w.handlers| { MoveStaysHome(w, s.h, s.reply); }
  }

  /** The last step before which a handler still answered for what it now owes was its cancellation. */
  lemma StopsAnswering(w: World, s: Step, h: nat, k: nat, r: Reservation)
    requires WorldInv(w) && h < |Do(w, s).handlers|
    requires var x' := Do(w, s).handlers[h]; x'.claim == Some(Claim(k, r)) && !Answers(x', k, r.id)
    requires IsPending(Do(w, s), k, r.id)
    ensures h < |w.handlers| && w.handlers[h].claim == Some(Claim(k, r)) && IsPending(w, k, r.id)
    ensures Answers(w.handlers[h], k, r.id) ==> s == Cancel(h)
  {
    if s.Move? && s.h == h {
      if h < |w.handlers| { MoveKeepsAnswering(w, h, s.reply, k, r); }
    } else {
      OthersLeaveIt(w, s, h);
    }
    assert AtHome(w.handlers[h], |w.ledgers|) && ClaimFits(w.ledgers[k], w.handlers[h]);
    if !IsPending(w, k, r.id) { StepSettled(w, s, k, r.id); }
  }

  lemma {:induction false} CancelFound(w0: World, steps: seq<Step>, h: nat, k: nat, r: Reservation) returns (n: nat)
    requires WorldInv(w0) && w0.handlers == []
    requires var w := RunAll(w0, steps);
             && h < |w.handlers| && w.handlers[h].claim == Some(Claim(k, r)) && !Answers(w.handlers[h], k, r.id)
             && IsPending(w, k, r.id)
    ensures CancelsOwing(w0, steps, n, h, k, r)
    decreases |steps|
  {
    var last := |steps| - 1;
    var init, s := steps[..last], steps[last];
    assert steps[..|steps|] == steps;
    NextWorld(w0, steps, last);
    RunKeepsInv(w0, init);
    StopsAnswering(RunAll(w0, init), s, h, k, r);
    if Answers(RunAll(w0, init).handlers[h], k, r.id) {
      n := last;
    } else {
      n := CancelFound(w0, init, h, k, r);
      assert init[..n] == steps[..n];
    }
  }

  ghost predicate LeftByCancellation(w0: World, steps: seq<Step>, k: nat, r: Reservation) {
    exists n: nat, h: nat :: CancelsOwing(w0, steps, n, h, k, r) && NeverTaken(w0, steps, n + 1, k, r.id)
  }

  lemma LeftWasCancelled(config: Config, clock: real, steps: seq<Step>, k: nat, r: Reservation)
    requires var w := RunAll(Start(config, clock), steps); Quiet(w) && k < |w.ledgers| && r in w.ledgers[k].active
    ensures LeftByCancellation(Start(config, clock), steps, k, r)
  {
    var w0, w := Start(config, clock), RunAll(Start(config, clock), steps);
    StartInv(config, clock);
    ReachableInv(config, clock, steps);
    OnlyOrphansRemain(w, k, r);
    var h: nat :| h < |w.handlers| && Orphan(w, h, k, r) && w.ledgers[k].status[r.id] == Pending;
    assert AtHome(w.handlers[h], |w.ledgers|) && ClaimFits(w.ledgers[k], w.handlers[h]);
    var n := CancelFound(w0, steps, h, k, r);
    CancellationLeaves(config, clock, steps, n, h);
  }

  lemma CancelledIsLeft(config: Config, clock: real, steps: seq<Step>, n: nat, h: nat, k: nat, r: Reservation)
    requires CancelsOwing(Start(config, clock), steps, n, h, k, r)
    requires NeverTaken(Start(config, clock), steps, n + 1, k, r.id)
    ensures var w := RunAll(Start(config, clock), steps); k < |w.ledgers| && r in w.ledgers[k].active
  {
    var w := RunAll(Start(config, clock), steps);
    StartInv(config, clock);
    ReachableInv(config, clock, steps);
    CancellationLeaves(config, clock, steps, n, h);
    ClaimStays(Start(config, clock), steps, n, h);
    assert AtHome(w.handlers[h], |w.ledgers|) && ClaimFits(w.ledgers[k], w.handlers[h]) && Sound(w, k);
    assert Has(w.ledgers[k].active, r.id);
    HasMember(w.ledgers[k].active, r.id);
  }

  /**
   What is left behind.  Once no handler is live, a reservation is still active if and only if some
   step of the run cancelled its handler while the reservation was pending, and no sweep of its
   manager since has found it expired.  So no other exception leaves one behind.
   */
  lemma LeftBehindExactly(config: Config, clock: real, steps: seq<Step>, k: nat, r: Reservation)
    requires var w := RunAll(Start(config, clock), steps); Quiet(w) && k < |w.ledgers|
    ensures r in RunAll(Start(config, clock), steps).ledgers[k].active
       <==> LeftByCancellation(Start(config, clock), steps, k, r)
  {
    if r in RunAll(Start(config, clock), steps).ledgers[k].active {
      LeftWasCancelled(config, clock, steps, k, r);
    }
    if n: nat, h: nat :| CancelsOwing(Start(config, clock), steps, n, h, k, r)
                         && NeverTaken(Start(config, clock), steps, n + 1, k, r.id) {
      CancelledIsLeft(config, clock, steps, n, h, k, r);
    }
  }

  lemma {:induction false} ClaimStays(w0: World, steps: seq<Step>, n: nat, h: nat)
    requires WorldInv(w0) && n <= |steps|
    requires var w := WorldAt(w0, steps, n); h < |w.handlers| && w.handlers[h].claim.Some?
    ensures var w := RunAll(w0, steps);
            h < |w.handlers| && w.handlers[h].claim == WorldAt(w0, steps, n).handlers[h].claim
    decreases |steps| - n
  {
    if n == |steps| {
      assert steps[..n] == steps;
    } else {
      var w, s := WorldAt(w0, steps, n), steps[n];
      RunKeepsInv(w0, steps[..n]);
      NextWorld(w0, steps, n);
      if s.Move? && s.h < |w.handlers| { MoveWired(w, s.h, s.reply); }
      ClaimStays(w0, steps, n + 1, h);
    }
  }
}
