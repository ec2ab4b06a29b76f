/**
 What every interleaving keeps: the wiring of managers, the ledgers' conservation, the agreement
 of slots with the handlers that hold them, and who answers for each reservation.
 */
module RouterInvariant {
  import opened Amounts
  import opened Ledgers
  import opened LedgerInvariant
  import opened Settlement
  import opened Options
  import opened Routing
  import opened Routers
  import Q = QueueMonitors

  // ---------- the parts of the invariant ----------

  /** The k-th managers belong together, and every handler refers to one such set. */
  ghost predicate Wired(w: World) {
    var n := |w.ledgers|;
    && n > 0 && |w.queues| == n && |w.trackers| == n && |w.agents| == n && |w.swept| == n
    && w.app == Refs(n - 1, n - 1, n - 1, n - 1)
    && (forall k :: 0 <= k < n ==> w.agents[k] == Wiring(k, k, k))
    && (forall h :: 0 <= h < |w.handlers| ==> AtHome(w.handlers[h], n))
  }

  ghost predicate AtHome(x: Handler, n: nat) {
    var k := x.refs.bm;
    && k < n && x.refs == Refs(k, k, k, k)
    && (x.claim.Some? ==> x.claim.value.manager == k)
  }

  /** A handler in such a phase has nothing left to settle. */
  predicate MustBeSettled(p: Phase) {
    match p
    case Reviewing(_, _) => true
    case Leaving(raised, _) => raised == None || raised == Some(OverReservation)
    case Handling(f) => f == OverReservation
    case FallingBack => true
    case WantsFallbackSlot => true
    case InFallback => true
    case LeavingFallback(_, _) => true
    case Recording(_, _) => true
    case Reporting => true
    case Finished(r) => r != Dropped
    case _ => false
  }

  /** A handler in such a phase has not been granted a reservation. */
  predicate Unclaimed(p: Phase) {
    match p
    case Arrived => true
    case Choosing(_, stage) =>
      !stage.Decided? || stage.outcome.Raised? || stage.outcome.route == FailFast
    case _ => false
  }

  /** The handler's claim is an issued reservation, settled when its phase says so. */
  ghost predicate ClaimFits(l: Ledger, x: Handler) {
    && (Unclaimed(x.phase) ==> x.claim == None)
    && (x.claim.Some? ==>
          var r := x.claim.value.reservation;
          && r.id < |l.issued| && r.id < |l.status| && l.issued[r.id] == r
          && (MustBeSettled(x.phase) ==> l.status[r.id] != Pending))
  }

  /** What is held for a route. */
  predicate HoldsFor(s: Snapshot, route: Route, held: Amount, remoteCost: real) {
    match route
    case ToLocal => held == LocalWant(s)
    case ToRemote => held == RemoteWant(s, remoteCost)
    case _ => held.cost == 0.0
  }

  /** What the routing phases promise about the snapshot they work from. */
  ghost predicate RoutedFairly(x: Handler, remoteCost: real) {
    x.phase.Choosing? ==>
      var s, stage := x.phase.snapshot, x.phase.stage;
      && Justified(s, stage)
      && (stage.Decided? && stage.outcome.Routed? && stage.outcome.route != FailFast ==>
            && stage.outcome.reservation.Some?
            && x.claim == Some(Claim(x.refs.bm, stage.outcome.reservation.value))
            && HoldsFor(s, stage.outcome.route, x.claim.value.reservation.amount, remoteCost))
  }

  function Holders(xs: seq<Handler>, k: nat): nat {
    if xs == [] then 0
    else (if xs[0].refs.qm == k && Holding(xs[0].phase) then 1 else 0) + Holders(xs[1..], k)
  }

  ghost predicate SlotsMatch(w: World, k: nat)
    requires k < |w.queues|
  {
    && Q.Agree(w.queues[k])
    && w.queues[k].capacity == w.config.capacity
    && w.queues[k].active == Holders(w.handlers, k)
  }

  ghost predicate Owned(w: World, k: nat, r: Reservation) {
    exists h :: 0 <= h < |w.handlers| && w.handlers[h].claim == Some(Claim(k, r))
  }

  ghost predicate AllOwned(w: World, k: nat)
    requires k < |w.ledgers|
  {
    forall r :: r in w.ledgers[k].active ==> Owned(w, k, r)
  }

  /** Nothing that an earlier sweep should have removed is still active. */
  ghost predicate SweptClean(l: Ledger, swept: real, clock: real) {
    && swept <= clock
    && (forall r :: r in l.active ==> r.createdAt < swept ==> !Expired(r, swept))
  }

  /** The parts of the invariant that concern one set of managers. */
  ghost predicate Sound(w: World, k: nat)
    requires k < |w.ledgers| && k < |w.queues| && k < |w.swept|
  {
    && Inv(w.ledgers[k])
    && w.ledgers[k].cap == w.config.cap && w.ledgers[k].ttl == w.config.ttl
    && SlotsMatch(w, k)
    && AllOwned(w, k)
    && SweptClean(w.ledgers[k], w.swept[k], w.clock)
  }

  ghost predicate HandlersFit(w: World) {
    forall h :: 0 <= h < |w.handlers| ==>
      && w.handlers[h].refs.bm < |w.ledgers|
      && ClaimFits(w.ledgers[w.handlers[h].refs.bm], w.handlers[h])
      && RoutedFairly(w.handlers[h], w.config.remoteCost)
  }

  ghost predicate WorldInv(w: World) {
    && Wired(w)
    && (forall k :: 0 <= k < |w.ledgers| ==> Sound(w, k))
    && HandlersFit(w)
  }

  // ---------- what a ledger keeps while others use it ----------

  /** `after` can be reached from `before` by the ledger's own operations, as far as handlers can tell. */
  ghost predicate Extends(before: Ledger, after: Ledger) {
    && Inv(after)
    && after.cap == before.cap && after.ttl == before.ttl
    && |before.issued| <= |after.issued|
    && (forall i :: 0 <= i < |before.issued| ==> after.issued[i] == before.issued[i])
    && |before.status| <= |after.status|
    && (forall i :: 0 <= i < |before.status| ==> before.status[i] != Pending ==> after.status[i] == before.status[i])
  }

  lemma IssuedGrow(l: Ledger, e: Event)
    ensures var l' := Apply(l, e);
            && l'.cap == l.cap && l'.ttl == l.ttl
            && |l.issued| <= |l'.issued|
            && forall i :: 0 <= i < |l.issued| ==> l'.issued[i] == l.issued[i]
  {
    if e.SweepCall? && |e.clock| == |l.active| { SweepIssued(l, l.active, e.clock); }
  }

  lemma ApplyExtends(l: Ledger, e: Event)
    requires Inv(l)
    ensures Extends(l, Apply(l, e))
  {
    ApplyInv(l, e);
    IssuedGrow(l, e);
    forall i | 0 <= i < |l.status| && l.status[i] != Pending
      ensures Apply(l, e).status[i] == l.status[i]
    {
      StepStates(l, e, i);
    }
  }

  /** An operation other than a grant leaves no reservation active that was not active before. */
  lemma ActiveShrinks(l: Ledger, e: Event)
    requires Inv(l)
    ensures var l' := Apply(l, e);
            forall r :: r in l'.active ==>
              r in l.active || (e.ReserveCall? && r == Reservation(|l.issued|, e.want, e.now, l.ttl))
  {
    var l' := Apply(l, e);
    ApplyExtends(l, e);
    if !e.ReserveCall? {
      forall r | r in l'.active ensures r in l.active {
        SameIssued(l, e);
        HasMember(l'.active, r.id);
        HasMember(l.active, r.id);
        assert Has(l'.active, r.id);
        assert l'.status[r.id] == Pending;
        assert l.status[r.id] == Pending;
      }
    }
  }

  lemma SameIssued(l: Ledger, e: Event)
    requires !e.ReserveCall?
    ensures Apply(l, e).issued == l.issued
  {
    if e.SweepCall? && |e.clock| == |l.active| { SweepIssued(l, l.active, e.clock); }
  }

  lemma ClaimKept(before: Ledger, after: Ledger, x: Handler)
    requires Inv(before) && Extends(before, after) && ClaimFits(before, x)
    ensures ClaimFits(after, x)
  {}

  // ---------- counting slot holders ----------

  lemma {:induction false} HoldersUpdate(xs: seq<Handler>, h: nat, x: Handler, k: nat)
    requires h < |xs| && x.refs == xs[h].refs
    ensures Holders(xs[h := x], k)
         == Holders(xs, k)
            + (if x.refs.qm == k && Holding(x.phase) then 1 else 0)
            - (if x.refs.qm == k && Holding(xs[h].phase) then 1 else 0)
  {
    if h == 0 {
      assert xs[h := x][1..] == xs[1..];
    } else {
      assert xs[h := x][1..] == xs[1..][h - 1 := x];
      HoldersUpdate(xs[1..], h - 1, x, k);
    }
  }

  lemma {:induction false} HoldersAppend(xs: seq<Handler>, x: Handler, k: nat)
    requires !Holding(x.phase)
    ensures Holders(xs + [x], k) == Holders(xs, k)
  {
    if xs == [] {
      assert xs + [x] == [x];
    } else {
      assert (xs + [x])[1..] == xs[1..] + [x];
      HoldersAppend(xs[1..], x, k);
    }
  }

  lemma {:induction false} HolderCounts(xs: seq<Handler>, h: nat, k: nat)
    requires h < |xs| && xs[h].refs.qm == k && Holding(xs[h].phase)
    ensures Holders(xs, k) > 0
  {
    if h > 0 { HolderCounts(xs[1..], h - 1, k); }
  }

  lemma {:induction false} NoHolders(xs: seq<Handler>, k: nat)
    requires forall h :: 0 <= h < |xs| ==> xs[h].refs.qm == k ==> !Holding(xs[h].phase)
    ensures Holders(xs, k) == 0
  {
    if xs != [] { NoHolders(xs[1..], k); }
  }

  // ---------- one handler's step ----------

  function Performed(l: Ledger, e: Option<Event>): Ledger {
    if e.None? then l else Apply(l, e.value)
  }

  lemma AdvanceLedger(v: View, home: nat, remoteCost: real, now: real, reply: BackendReply)
    ensures Advance(v, home, remoteCost, now, reply).ledger
         == Performed(v.ledger, StepEvent(v.handler, remoteCost, now))
  {}

  lemma AdvanceSlots(v: View, home: nat, remoteCost: real, now: real, reply: BackendReply)
    requires Q.Agree(v.queue) && (Holding(v.handler.phase) ==> v.queue.active > 0)
    ensures var v' := Advance(v, home, remoteCost, now, reply);
            && Q.Agree(v'.queue) && v'.queue.capacity == v.queue.capacity
            && v'.queue.active == v.queue.active + (if Holding(v'.handler.phase) then 1 else 0)
                                                 - (if Holding(v.handler.phase) then 1 else 0)
  {}

  /** The claim is set once, by the attempt that is granted, and then kept. */
  lemma AdvanceClaim(v: View, home: nat, remoteCost: real, now: real, reply: BackendReply)
    requires RoutedFairly(v.handler, remoteCost) && (Unclaimed(v.handler.phase) ==> v.handler.claim == None)
    ensures var v' := Advance(v, home, remoteCost, now, reply);
            var x, x' := v.handler, v'.handler;
            && x'.refs == x.refs && x'.tier == x.tier && x'.sla == x.sla
            && (Unclaimed(x'.phase) ==> x'.claim == None)
            && (x'.claim == x.claim
                || (x.claim == None && StepEvent(v.handler, remoteCost, now).Some?
                    && var e := StepEvent(v.handler, remoteCost, now).value;
                       var want := if e.ReserveCall? then e.want else ZERO;
                       var r := Reservation(|v.ledger.issued|, want, now, v.ledger.ttl);
                       && e.ReserveCall? && x'.claim == Some(Claim(home, r))
                       && v'.ledger == Grant(v.ledger, e.want, now)))
  {
    AdvanceLedger(v, home, remoteCost, now, reply);
  }

  /** Whatever is active after the step was active before it, or is the mover's new claim. */
  lemma AdvanceActive(v: View, home: nat, remoteCost: real, now: real, reply: BackendReply)
    requires Inv(v.ledger)
    requires RoutedFairly(v.handler, remoteCost) && (Unclaimed(v.handler.phase) ==> v.handler.claim == None)
    ensures var v' := Advance(v, home, remoteCost, now, reply);
            forall r :: r in v'.ledger.active ==>
              r in v.ledger.active || (v'.handler.claim == Some(Claim(home, r)) && r.createdAt == now)
  {
    var e := StepEvent(v.handler, remoteCost, now);
    AdvanceLedger(v, home, remoteCost, now, reply);
    AdvanceClaim(v, home, remoteCost, now, reply);
    if e.Some? { ActiveShrinks(v.ledger, e.value); }
  }

  /** A handler that moves into a phase with nothing left to settle has settled. */
  lemma AdvanceSettles(v: View, home: nat, remoteCost: real, now: real, reply: BackendReply)
    requires Inv(v.ledger) && ClaimFits(v.ledger, v.handler) && v.handler.claim.Some?
    ensures var v' := Advance(v, home, remoteCost, now, reply);
            var id := v.handler.claim.value.reservation.id;
            id < |v'.ledger.status| && (MustBeSettled(v'.handler.phase) ==> v'.ledger.status[id] != Pending)
  {
    var id := v.handler.claim.value.reservation.id;
    var e := StepEvent(v.handler, remoteCost, now);
    AdvanceLedger(v, home, remoteCost, now, reply);
    assert v.ledger.status[id] == Pending <==> Has(v.ledger.active, id);
    if e.Some? { StepStates(v.ledger, e.value, id); }
  }

  /** The mover's phase still tells the truth about its claim. */
  lemma AdvanceFits(v: View, home: nat, remoteCost: real, now: real, reply: BackendReply)
    requires Inv(v.ledger) && ClaimFits(v.ledger, v.handler) && RoutedFairly(v.handler, remoteCost)
    ensures var v' := Advance(v, home, remoteCost, now, reply); ClaimFits(v'.ledger, v'.handler)
  {
    var e := StepEvent(v.handler, remoteCost, now);
    AdvanceLedger(v, home, remoteCost, now, reply);
    AdvanceClaim(v, home, remoteCost, now, reply);
    if e.Some? { ApplyExtends(v.ledger, e.value); }
    if v.handler.claim.Some? { AdvanceSettles(v, home, remoteCost, now, reply); }
  }

  lemma AdvanceFair(v: View, remoteCost: real, now: real, reply: BackendReply)
    requires RoutedFairly(v.handler, remoteCost) && (Unclaimed(v.handler.phase) ==> v.handler.claim == None)
    ensures RoutedFairly(Advance(v, v.handler.refs.bm, remoteCost, now, reply).handler, remoteCost)
  {
    var x := v.handler;
    if x.phase.Choosing? && Attempting(x.phase.stage) {
      AttemptJustified(v.ledger, x.phase.snapshot, x.phase.stage, remoteCost, now);
    }
  }
}
