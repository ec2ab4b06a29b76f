/**
 Every step of the world keeps the invariant.
 */
module RouterPreservation {
  import opened Ledgers
  import opened LedgerInvariant
  import opened Reaping
  import opened Options
  import opened Routing
  import opened Routers
  import opened RouterInvariant

  // ---------- preservation by the world's steps ----------

  /** Handlers keep their claims and their references, and none disappears. */
  ghost predicate ClaimsKept(w: World, w': World) {
    && |w.handlers| <= |w'.handlers|
    && (forall h :: 0 <= h < |w.handlers| ==>
          w.handlers[h].claim.Some? ==> w'.handlers[h].claim == w.handlers[h].claim)
  }

  lemma OwnedKept(w: World, w': World, k: nat, r: Reservation)
    requires ClaimsKept(w, w') && Owned(w, k, r)
    ensures Owned(w', k, r)
  {
    var h :| 0 <= h < |w.handlers| && w.handlers[h].claim == Some(Claim(k, r));
    assert w'.handlers[h].claim == Some(Claim(k, r));
  }

  /** Managers a step does not touch stay sound. */
  lemma UntouchedSound(w: World, w': World, k: nat)
    requires k < |w.ledgers| && k < |w.queues| && k < |w.swept| && Sound(w, k)
    requires k < |w'.ledgers| && k < |w'.queues| && k < |w'.swept|
    requires w'.ledgers[k] == w.ledgers[k] && w'.queues[k] == w.queues[k] && w'.swept[k] == w.swept[k]
    requires w'.config == w.config && w.clock <= w'.clock && ClaimsKept(w, w')
    requires Holders(w'.handlers, k) == Holders(w.handlers, k)
    ensures Sound(w', k)
  {
    forall r | r in w'.ledgers[k].active ensures Owned(w', k, r) {
      OwnedKept(w, w', k, r);
    }
  }

  lemma StartInv(config: Config, clock: real)
    ensures WorldInv(Start(config, clock))
  {
    FreshInv(config.cap, config.ttl);
  }

  lemma ArriveInv(w: World, tier: Tier, sla: real)
    requires WorldInv(w)
    ensures WorldInv(Do(w, Arrive(tier, sla)))
  {
    var w' := Do(w, Arrive(tier, sla));
    forall k | 0 <= k < |w'.ledgers| ensures Sound(w', k) {
      HoldersAppend(w.handlers, Handler(w.app, tier, sla, None, None, Unknown, Arrived), k);
      UntouchedSound(w, w', k);
    }
  }

  lemma TickInv(w: World, now: real)
    requires WorldInv(w)
    ensures WorldInv(Do(w, Tick(now)))
  {
    var w' := Do(w, Tick(now));
    forall k | 0 <= k < |w'.ledgers| ensures Sound(w', k) {
      UntouchedSound(w, w', k);
    }
  }

  lemma ResetInv(w: World)
    requires WorldInv(w)
    ensures WorldInv(Do(w, ResetRun))
  {
    var w' := Do(w, ResetRun);
    var n := |w.ledgers|;
    forall k | 0 <= k < |w'.ledgers| ensures Sound(w', k) {
      if k < n {
        UntouchedSound(w, w', k);
      } else {
        FreshInv(w.config.cap, w.config.ttl);
        NoHolders(w.handlers, n);
      }
    }
  }

  lemma CancelSound(w: World, h: nat, k: nat)
    requires WorldInv(w) && h < |w.handlers| && k < |w.ledgers|
    ensures Sound(Do(w, Cancel(h)), k)
  {
    var w' := Do(w, Cancel(h));
    assert Sound(w, k);
    HoldersUpdate(w.handlers, h, w'.handlers[h], k);
    UntouchedSound(w, w', k);
  }

  lemma CancelFits(l: Ledger, x: Handler, remoteCost: real)
    requires ClaimFits(l, x) && RoutedFairly(x, remoteCost)
    ensures var x' := x.(phase := AfterCancel(x.phase)); ClaimFits(l, x') && RoutedFairly(x', remoteCost)
  {}

  lemma CancelInv(w: World, h: nat)
    requires WorldInv(w)
    ensures WorldInv(Do(w, Cancel(h)))
  {
    if h < |w.handlers| {
      CancelFits(w.ledgers[w.handlers[h].refs.bm], w.handlers[h], w.config.remoteCost);
      forall k | 0 <= k < |w.ledgers| ensures Sound(Do(w, Cancel(h)), k) {
        CancelSound(w, h, k);
      }
    }
  }

  lemma ReapInv(w: World, readings: seq<real>)
    requires WorldInv(w)
    ensures WorldInv(Do(w, Reap(readings)))
  {
    if ReadingsFit(w, readings) {
      var w' := Do(w, Reap(readings));
      var b := w.app.bm;
      assert Sound(w, b);
      ApplyExtends(w.ledgers[b], SweepCall(readings));
      forall k | 0 <= k < |w'.ledgers| ensures Sound(w', k) {
        if k != b {
          UntouchedSound(w, w', k);
        } else {
          ReapSound(w, readings);
        }
      }
      forall i | 0 <= i < |w'.handlers|
        ensures ClaimFits(w'.ledgers[w'.handlers[i].refs.bm], w'.handlers[i])
      {
        if w.handlers[i].refs.bm == b { ClaimKept(w.ledgers[b], w'.ledgers[b], w.handlers[i]); }
      }
    }
  }

  lemma ReapSound(w: World, readings: seq<real>)
    requires WorldInv(w) && ReadingsFit(w, readings)
    ensures Sound(ReapStep(w, readings), w.app.bm)
  {
    var b := w.app.bm;
    var w' := ReapStep(w, readings);
    var l, l' := w.ledgers[b], w'.ledgers[b];
    var e := SweepCall(readings);
    assert Apply(l, e) == l';
    assert Sound(w, b);
    ApplyExtends(l, e);
    ActiveShrinks(l, e);
    forall r | r in l'.active ensures Owned(w', b, r) {
      OwnedKept(w, w', b, r);
    }
    SweepCleans(l, readings, w.clock);
  }

  /** A sweep that starts at `start` leaves nothing active that had expired by then. */
  lemma SweepCleans(l: Ledger, readings: seq<real>, start: real)
    requires Inv(l) && |readings| == |l.active|
    requires forall i :: 0 <= i < |readings| ==> start <= readings[i]
    ensures forall r :: r in Sweep(l, readings).0.active ==> !Expired(r, start)
  {
    SweepExact(l, readings);
    SurvivorsUnexpired(l.active, readings, start);
  }

  // ---------- a handler's step ----------

  /** What a handler sees of the managers it started with. */
  function HomeView(w: World, h: nat): View
    requires Wired(w) && h < |w.handlers|
  {
    var k := w.handlers[h].refs.bm;
    assert AtHome(w.handlers[h], |w.ledgers|);
    View(w.ledgers[k], w.queues[k], w.trackers[k], w.handlers[h])
  }

  /** A handler's step, on the managers it started with. */
  function Stepped(w: World, h: nat, reply: BackendReply): View
    requires Wired(w) && h < |w.handlers|
  {
    var k := w.handlers[h].refs.bm;
    Advance(HomeView(w, h), k, w.config.remoteCost, w.clock, reply)
  }

  /** No step mixes managers: whatever the phase, a handler reaches only those it started with. */
  lemma MoveStaysHome(w: World, h: nat, reply: BackendReply)
    requires Wired(w) && h < |w.handlers|
    ensures var k := w.handlers[h].refs.bm;
            Do(w, Move(h, reply)) == Store(w, Wiring(k, k, k), h, Stepped(w, h, reply))
  {
    assert AtHome(w.handlers[h], |w.ledgers|);
  }

  lemma SteppedClaim(w: World, h: nat, reply: BackendReply)
    requires WorldInv(w) && h < |w.handlers|
    ensures var x, v' := w.handlers[h], Stepped(w, h, reply);
            && v'.handler.refs == x.refs
            && (x.claim.Some? ==> v'.handler.claim == x.claim)
            && (v'.handler.claim.Some? ==> v'.handler.claim.value.manager == x.refs.bm)
            && (forall r :: r in v'.ledger.active ==>
                  r in w.ledgers[x.refs.bm].active
                  || (v'.handler.claim == Some(Claim(x.refs.bm, r)) && r.createdAt == w.clock))
  {
    var x := w.handlers[h];
    var k := x.refs.bm;
    var v := View(w.ledgers[k], w.queues[k], w.trackers[k], x);
    assert AtHome(x, |w.ledgers|) && Sound(w, k);
    AdvanceClaim(v, k, w.config.remoteCost, w.clock, reply);
    AdvanceActive(v, k, w.config.remoteCost, w.clock, reply);
  }

  lemma SteppedLedger(w: World, h: nat, reply: BackendReply)
    requires WorldInv(w) && h < |w.handlers|
    ensures Extends(w.ledgers[w.handlers[h].refs.bm], Stepped(w, h, reply).ledger)
    ensures ClaimFits(Stepped(w, h, reply).ledger, Stepped(w, h, reply).handler)
    ensures RoutedFairly(Stepped(w, h, reply).handler, w.config.remoteCost)
  {
    var x := w.handlers[h];
    var k := x.refs.bm;
    var v := View(w.ledgers[k], w.queues[k], w.trackers[k], x);
    assert Sound(w, k);
    AdvanceLedger(v, k, w.config.remoteCost, w.clock, reply);
    var e := StepEvent(v.handler, w.config.remoteCost, w.clock);
    if e.Some? { ApplyExtends(v.ledger, e.value); }
    AdvanceFits(v, k, w.config.remoteCost, w.clock, reply);
    AdvanceFair(v, w.config.remoteCost, w.clock, reply);
  }

  lemma MoveWired(w: World, h: nat, reply: BackendReply)
    requires WorldInv(w) && h < |w.handlers|
    ensures Wired(Do(w, Move(h, reply))) && ClaimsKept(w, Do(w, Move(h, reply)))
  {
    MoveStaysHome(w, h, reply);
    SteppedClaim(w, h, reply);
    assert AtHome(w.handlers[h], |w.ledgers|);
  }

  lemma MoveSlots(w: World, h: nat, reply: BackendReply)
    requires WorldInv(w) && h < |w.handlers|
    ensures SlotsMatch(Do(w, Move(h, reply)), w.handlers[h].refs.bm)
  {
    var x := w.handlers[h];
    var k := x.refs.bm;
    var v := View(w.ledgers[k], w.queues[k], w.trackers[k], x);
    assert AtHome(x, |w.ledgers|) && Sound(w, k);
    MoveStaysHome(w, h, reply);
    SteppedClaim(w, h, reply);
    if Holding(x.phase) { HolderCounts(w.handlers, h, k); }
    AdvanceSlots(v, k, w.config.remoteCost, w.clock, reply);
    HoldersUpdate(w.handlers, h, Stepped(w, h, reply).handler, k);
  }

  lemma MoveOwned(w: World, h: nat, reply: BackendReply)
    requires WorldInv(w) && h < |w.handlers|
    ensures AllOwned(Do(w, Move(h, reply)), w.handlers[h].refs.bm)
    ensures SweptClean(Stepped(w, h, reply).ledger, w.swept[w.handlers[h].refs.bm], w.clock)
  {
    var k := w.handlers[h].refs.bm;
    var w' := Do(w, Move(h, reply));
    assert Sound(w, k);
    MoveStaysHome(w, h, reply);
    MoveWired(w, h, reply);
    SteppedClaim(w, h, reply);
    forall r | r in w'.ledgers[k].active ensures Owned(w', k, r) {
      if r in w.ledgers[k].active {
        OwnedKept(w, w', k, r);
      } else {
        assert w'.handlers[h].claim == Some(Claim(k, r));
      }
    }
  }

  lemma MoveSound(w: World, h: nat, reply: BackendReply, j: nat)
    requires WorldInv(w) && h < |w.handlers| && j < |w.ledgers|
    ensures Sound(Do(w, Move(h, reply)), j)
  {
    var k := w.handlers[h].refs.bm;
    var w' := Do(w, Move(h, reply));
    assert AtHome(w.handlers[h], |w.ledgers|) && Sound(w, j) && Sound(w, k);
    MoveStaysHome(w, h, reply);
    if j == k {
      SteppedLedger(w, h, reply);
      MoveSlots(w, h, reply);
      MoveOwned(w, h, reply);
    } else {
      MoveWired(w, h, reply);
      SteppedClaim(w, h, reply);
      HoldersUpdate(w.handlers, h, Stepped(w, h, reply).handler, j);
      UntouchedSound(w, w', j);
    }
  }

  lemma MoveFits(w: World, h: nat, reply: BackendReply)
    requires WorldInv(w) && h < |w.handlers|
    ensures HandlersFit(Do(w, Move(h, reply)))
  {
    var k := w.handlers[h].refs.bm;
    var w' := Do(w, Move(h, reply));
    assert Sound(w, k);
    MoveStaysHome(w, h, reply);
    SteppedClaim(w, h, reply);
    SteppedLedger(w, h, reply);
    forall i | 0 <= i < |w'.handlers|
      ensures w'.handlers[i].refs.bm < |w'.ledgers|
      ensures ClaimFits(w'.ledgers[w'.handlers[i].refs.bm], w'.handlers[i])
      ensures RoutedFairly(w'.handlers[i], w'.config.remoteCost)
    {
      if i != h && w.handlers[i].refs.bm == k {
        ClaimKept(w.ledgers[k], w'.ledgers[k], w.handlers[i]);
      }
    }
  }

  lemma MoveInv(w: World, h: nat, reply: BackendReply)
    requires WorldInv(w)
    ensures WorldInv(Do(w, Move(h, reply)))
  {
    if h < |w.handlers| {
      MoveWired(w, h, reply);
      MoveFits(w, h, reply);
      forall j | 0 <= j < |Do(w, Move(h, reply)).ledgers| ensures Sound(Do(w, Move(h, reply)), j) {
        MoveSound(w, h, reply, j);
      }
    }
  }

  // ---------- every run ----------

  lemma StepInv(w: World, s: Step)
    requires WorldInv(w)
    ensures WorldInv(Do(w, s))
  {
    match s
    case Arrive(tier, sla) => ArriveInv(w, tier, sla);
    case Move(h, reply) => MoveInv(w, h, reply);
    case Cancel(h) => CancelInv(w, h);
    case Reap(readings) => ReapInv(w, readings);
    case Tick(now) => TickInv(w, now);
    case ResetRun => ResetInv(w);
  }

  lemma {:induction false} RunKeepsInv(w: World, steps: seq<Step>)
    requires WorldInv(w)
    ensures WorldInv(RunAll(w, steps))
    decreases |steps|
  {
    if steps != [] {
      StepInv(w, steps[0]);
      RunKeepsInv(Do(w, steps[0]), steps[1..]);
    }
  }

  lemma ReachableInv(config: Config, clock: real, steps: seq<Step>)
    ensures WorldInv(RunAll(Start(config, clock), steps))
  {
    StartInv(config, clock);
    RunKeepsInv(Start(config, clock), steps);
  }
}
