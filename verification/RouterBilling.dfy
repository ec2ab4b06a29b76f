/**
 Who pays: a request that is turned away, fails or falls back never spends anything, whatever
 else happens while it runs; one that is answered otherwise pays once; and nobody else pays.
 */
module RouterBilling {
  import opened Amounts
  import opened Ledgers
  import opened LedgerInvariant
  import opened Settlement
  import opened Options
  import opened Routers
  import opened RouterInvariant
  import opened RouterPreservation
  import opened RouterProgress

  /** The handler has what it will answer with. */
  predicate Concluding(p: Phase) {
    match p
    case Recording(_, _) => true
    case Reporting => true
    case Finished(r) => r == Answered
    case _ => false
  }

  /** A handler in such a state has committed its reservation. */
  predicate Billed(x: Handler) {
    match x.phase
    case Reviewing(_, _) => true
    case Leaving(raised, _) => raised == None
    case _ => Concluding(x.phase) && x.result.Ran?
  }

  /** A handler in such a state has not. */
  predicate Unbilled(x: Handler) {
    match x.phase
    case Choosing(_, _) => true
    case InRemote => true
    case WantsSlot => true
    case InLocal => true
    case Settling(_, _) => true
    case Leaving(raised, _) => raised != None && raised != Some(Cancellation)
    case Handling(f) => f != Cancellation
    case Returning(_) => true
    case FallingBack => true
    case WantsFallbackSlot => true
    case InFallback => true
    case LeavingFallback(_, _) => true
    case Finished(r) => r == Unavailable || r == Failed || (r == Answered && !x.result.Ran?)
    case _ => Concluding(x.phase) && !x.result.Ran?
  }

  /** The handler's result is that of the backend it went to. */
  predicate ResultFits(x: Handler) {
    match x.phase
    case Settling(charged, _) => x.result == Ran(charged)
    case LeavingFallback(raised, latency) => raised == None ==> x.result == FellBack(latency)
    case _ =>
      && (Billed(x) ==> x.claim.Some? && x.result.Ran?)
      && (Concluding(x.phase) ==> !x.result.Unknown?)
  }

  /** The reservation was committed, at what the handler's backend charges. */
  predicate Paid(l: Ledger, x: Handler)
    requires x.claim.Some?
  {
    x.result.Ran? && Ledgers.Settlement(x.claim.value.reservation.id, x.result.charged) in l.commits
  }

  predicate BillFits(l: Ledger, x: Handler) {
    && ResultFits(x)
    && (x.claim.Some? && x.claim.value.reservation.id < |l.status| ==>
          var status := l.status[x.claim.value.reservation.id];
          && (Billed(x) ==> status == Committed)
          && (Unbilled(x) ==> status != Committed)
          && (status == Committed ==> Paid(l, x)))
  }

  ghost predicate BillsFit(w: World) {
    forall h :: 0 <= h < |w.handlers| && w.handlers[h].refs.bm < |w.ledgers| ==>
      BillFits(w.ledgers[w.handlers[h].refs.bm], w.handlers[h])
  }

  /** Only a commit of the reservation itself commits it. */
  lemma OnlyCommitCommits(l: Ledger, e: Event, id: nat)
    requires Inv(l) && id < |l.status|
    ensures id < |Apply(l, e).status|
    ensures Apply(l, e).status[id] == Committed && l.status[id] != Committed ==>
              e.CommitCall? && e.id == id && Commit(l, id, e.actual).1 == Settled
    ensures l.status[id] == Committed ==> Apply(l, e).status[id] == Committed
  {
    StepStates(l, e, id);
    match e
    case SweepCall(clock) =>
      if |clock| == |l.active| { SweepStates(l, l.active, clock, id); }
    case CommitCall(i, actual) =>
      if Has(l.active, i) { CommitStates(l, i, actual); }
    case RollbackCall(i) =>
      if Has(l.active, i) { CommitStates(l, i, ZERO); }
    case ReserveCall(_, _) =>
  }

  /** A commit of an active reservation that reports success has committed it. */
  lemma SettledIsCommitted(l: Ledger, id: nat, actual: Amount)
    requires Inv(l) && id < |l.status|
    ensures id < |Commit(l, id, actual).0.status|
    ensures Commit(l, id, actual).1 == Settled <==>
              l.status[id] != Committed && Commit(l, id, actual).0.status[id] == Committed
  {
    OnlyCommitCommits(l, CommitCall(id, actual), id);
    if Has(l.active, id) { CommitStates(l, id, actual); }
  }

  lemma CommitsGrow(l: Ledger, e: Event)
    ensures forall c :: c in l.commits ==> c in Apply(l, e).commits
  {
    if e.SweepCall? && |e.clock| == |l.active| { SweepIssued(l, l.active, e.clock); }
  }

  /** The commit itself. */
  lemma SettlingBill(l: Ledger, x: Handler, id: nat, actual: Amount)
    requires Inv(l) && id < |l.status| && l.status[id] != Committed
    requires x.phase.Settling? && x.phase.actual == actual && x.result == Ran(actual)
    requires x.claim.Some? && x.claim.value.reservation.id == id
    ensures var (l', reply) := Commit(l, id, actual); BillFits(l', AfterCommit(x, reply))
  {
    SettledIsCommitted(l, id, actual);
  }

  /** Any other step of a mover that has a claim: one that leaves the ledger alone, */
  lemma IdleBill(v: View, home: nat, remoteCost: real, now: real, reply: BackendReply)
    requires ClaimFits(v.ledger, v.handler) && v.handler.claim.Some?
    requires BillFits(v.ledger, v.handler) && StepEvent(v.handler, remoteCost, now).None?
    ensures var v' := Advance(v, home, remoteCost, now, reply);
            v'.ledger == v.ledger && v'.handler.claim == v.handler.claim && BillFits(v'.ledger, v'.handler)
  {}

  /** and a rollback. */
  lemma RollbackBill(l: Ledger, x: Handler, id: nat)
    requires Inv(l) && ClaimFits(l, x) && BillFits(l, x) && x.phase.Returning?
    requires x.claim.Some? && x.claim.value.reservation.id == id
    ensures var (l', reply) := Rollback(l, id); BillFits(l', AfterRollback(x, reply))
  {
    OnlyCommitCommits(l, RollbackCall(id), id);
    CommitsGrow(l, RollbackCall(id));
  }

  /** The mover's own bill. */
  lemma AdvanceBill(v: View, home: nat, remoteCost: real, now: real, reply: BackendReply)
    requires Inv(v.ledger) && ClaimFits(v.ledger, v.handler) && RoutedFairly(v.handler, remoteCost)
    requires BillFits(v.ledger, v.handler)
    ensures var v' := Advance(v, home, remoteCost, now, reply); BillFits(v'.ledger, v'.handler)
  {
    AdvanceClaim(v, home, remoteCost, now, reply);
    if v.handler.claim.Some? {
      if v.handler.phase.Settling? {
        SettlingBill(v.ledger, v.handler, v.handler.claim.value.reservation.id, v.handler.phase.actual);
      } else if v.handler.phase.Returning? {
        RollbackBill(v.ledger, v.handler, v.handler.claim.value.reservation.id);
      } else {
        IdleBill(v, home, remoteCost, now, reply);
      }
    }
  }

  /** Another handler's step leaves this one's bill alone. */
  lemma OthersBill(l: Ledger, e: Event, x: Handler)
    requires Inv(l) && ClaimFits(l, x) && BillFits(l, x)
    requires e.CommitCall? && x.claim.Some? ==> e.id != x.claim.value.reservation.id
    ensures BillFits(Apply(l, e), x)
  {
    CommitsGrow(l, e);
    if x.claim.Some? { OnlyCommitCommits(l, e, x.claim.value.reservation.id); }
  }

  lemma ClaimIds(w: World, h: nat, i: nat)
    requires WorldInv(w) && ClaimsDistinct(w) && h < |w.handlers| && i < |w.handlers| && h != i
    requires w.handlers[h].refs.bm == w.handlers[i].refs.bm
    requires w.handlers[h].claim.Some? && w.handlers[i].claim.Some?
    ensures w.handlers[h].claim.value.reservation.id != w.handlers[i].claim.value.reservation.id
  {
    var k := w.handlers[h].refs.bm;
    assert AtHome(w.handlers[h], |w.ledgers|) && AtHome(w.handlers[i], |w.ledgers|);
    assert ClaimFits(w.ledgers[k], w.handlers[h]) && ClaimFits(w.ledgers[k], w.handlers[i]);
    assert w.handlers[h].claim != w.handlers[i].claim;
  }

  lemma MoveOthersBill(w: World, h: nat, reply: BackendReply, i: nat)
    requires WorldInv(w) && ClaimsDistinct(w) && BillsFit(w) && h < |w.handlers| && i < |w.handlers| && i != h
    ensures w.handlers[i].refs.bm < |w.ledgers|
    ensures BillFits(Do(w, Move(h, reply)).ledgers[w.handlers[i].refs.bm], w.handlers[i])
  {
    var k := w.handlers[h].refs.bm;
    var v := View(w.ledgers[k], w.queues[k], w.trackers[k], w.handlers[h]);
    var e := StepEvent(v.handler, w.config.remoteCost, w.clock);
    MoveStaysHome(w, h, reply);
    AdvanceLedger(v, k, w.config.remoteCost, w.clock, reply);
    assert Sound(w, k) && ClaimFits(w.ledgers[w.handlers[i].refs.bm], w.handlers[i]);
    if w.handlers[i].refs.bm == k && e.Some? {
      if e.value.CommitCall? && w.handlers[i].claim.Some? { ClaimIds(w, h, i); }
      OthersBill(w.ledgers[k], e.value, w.handlers[i]);
    }
  }

  lemma MoveBills(w: World, h: nat, reply: BackendReply)
    requires WorldInv(w) && ClaimsDistinct(w) && BillsFit(w) && h < |w.handlers|
    ensures BillsFit(Do(w, Move(h, reply)))
  {
    var k := w.handlers[h].refs.bm;
    var w' := Do(w, Move(h, reply));
    var v := View(w.ledgers[k], w.queues[k], w.trackers[k], w.handlers[h]);
    MoveStaysHome(w, h, reply);
    SteppedClaim(w, h, reply);
    assert Sound(w, k) && ClaimFits(w.ledgers[k], w.handlers[h]) && RoutedFairly(w.handlers[h], w.config.remoteCost);
    AdvanceBill(v, k, w.config.remoteCost, w.clock, reply);
    forall i | 0 <= i < |w'.handlers|
      ensures w'.handlers[i].refs.bm < |w'.ledgers| && BillFits(w'.ledgers[w'.handlers[i].refs.bm], w'.handlers[i])
    {
      if i != h { MoveOthersBill(w, h, reply, i); }
    }
  }

  lemma ReapBills(w: World, readings: seq<real>)
    requires WorldInv(w) && BillsFit(w) && ReadingsFit(w, readings)
    ensures BillsFit(Do(w, Reap(readings)))
  {
    var b := w.app.bm;
    var w' := Do(w, Reap(readings));
    assert Sound(w, b);
    forall i | 0 <= i < |w.handlers|
      ensures BillFits(w'.ledgers[w'.handlers[i].refs.bm], w'.handlers[i])
    {
      assert ClaimFits(w.ledgers[w.handlers[i].refs.bm], w.handlers[i]);
      if w.handlers[i].refs.bm == b { OthersBill(w.ledgers[b], SweepCall(readings), w.handlers[i]); }
    }
  }

  lemma CancelBills(w: World, h: nat)
    requires BillsFit(w) && h < |w.handlers|
    ensures BillsFit(Do(w, Cancel(h)))
  {}

  lemma StepBills(w: World, s: Step)
    requires WorldInv(w) && ClaimsDistinct(w) && BillsFit(w)
    ensures BillsFit(Do(w, s))
  {
    match s
    case Move(h, reply) => if h < |w.handlers| { MoveBills(w, h, reply); }
    case Reap(readings) => if ReadingsFit(w, readings) { ReapBills(w, readings); }
    case Cancel(h) => if h < |w.handlers| { CancelBills(w, h); }
    case ResetRun => assert forall h :: 0 <= h < |w.handlers| ==> AtHome(w.handlers[h], |w.ledgers|);
    case _ =>
  }

  lemma {:induction false} RunBills(w: World, steps: seq<Step>)
    requires WorldInv(w) && ClaimsDistinct(w) && BillsFit(w)
    ensures BillsFit(RunAll(w, steps))
    decreases |steps|
  {
    if steps != [] {
      StepBills(w, steps[0]);
      StepDistinct(w, steps[0]);
      StepInv(w, steps[0]);
      RunBills(Do(w, steps[0]), steps[1..]);
    }
  }

  /** What the invariants say of a handler in any run. */
  lemma HandlerBill(config: Config, clock: real, steps: seq<Step>, h: nat)
    requires h < |RunAll(Start(config, clock), steps).handlers|
    ensures var w := RunAll(Start(config, clock), steps);
            var x := w.handlers[h];
            && WorldInv(w) && ClaimsDistinct(w) && x.refs.bm < |w.ledgers| && Inv(w.ledgers[x.refs.bm])
            && ClaimFits(w.ledgers[x.refs.bm], x) && BillFits(w.ledgers[x.refs.bm], x)
            && (x.claim.Some? ==> x.claim.value.manager == x.refs.bm)
  {
    StartInv(config, clock);
    RunKeepsInv(Start(config, clock), steps);
    RunDistinct(Start(config, clock), steps);
    RunBills(Start(config, clock), steps);
    var w := RunAll(Start(config, clock), steps);
    assert AtHome(w.handlers[h], |w.ledgers|) && Sound(w, w.handlers[h].refs.bm);
  }

  /** The commits of reservation `id`, in order. */
  function CommitsOf(cs: seq<Ledgers.Settlement>, id: nat): seq<Ledgers.Settlement> {
    if cs == [] then [] else (if cs[0].id == id then [cs[0]] else []) + CommitsOf(cs[1..], id)
  }

  lemma {:induction false} CommitsOfNone(cs: seq<Ledgers.Settlement>, id: nat)
    requires forall i :: 0 <= i < |cs| ==> cs[i].id != id
    ensures CommitsOf(cs, id) == []
  {
    if cs != [] { CommitsOfNone(cs[1..], id); }
  }

  lemma {:induction false} CommitsOfOne(cs: seq<Ledgers.Settlement>, c: Ledgers.Settlement)
    requires c in cs && forall i, j :: 0 <= i < j < |cs| ==> cs[i].id != cs[j].id
    ensures CommitsOf(cs, c.id) == [c]
  {
    if cs[0] == c {
      CommitsOfNone(cs[1..], c.id);
    } else {
      var i :| 0 <= i < |cs| && cs[i] == c;
      CommitsOfOne(cs[1..], c);
    }
  }

  /** What a request that has ended owes: nothing, unless it was answered by the backend it was routed to. */
  ghost predicate PaysRight(l: Ledger, x: Handler) {
    x.phase in {Finished(Answered), Finished(Unavailable), Finished(Failed)} ==>
      && (x.phase == Finished(Answered) ==> !x.result.Unknown? && (x.result.Ran? ==> x.claim.Some?))
      && (x.claim.Some? ==>
            var id := x.claim.value.reservation.id;
            && id < |l.status|
            && if x.phase == Finished(Answered) && x.result.Ran? then
                 l.status[id] == Committed
                 && CommitsOf(l.commits, id) == [Ledgers.Settlement(id, x.result.charged)]
               else l.status[id] == RolledBack && CommitsOf(l.commits, id) == [])
  }

  lemma BillSettled(l: Ledger, x: Handler)
    requires Inv(l) && ClaimFits(l, x) && BillFits(l, x)
    ensures PaysRight(l, x)
  {
    if x.claim.Some? {
      var id := x.claim.value.reservation.id;
      if l.status[id] == Committed {
        CommitsOfOne(l.commits, Ledgers.Settlement(id, x.result.charged));
      } else {
        assert !CommittedIn(l.commits, id);
        CommitsOfNone(l.commits, id);
      }
    }
  }

  /**
   In every run, a request answered with 503 or 500 spends nothing: it never had a reservation,
   or its reservation was rolled back, by its own handler, by a refused commit or by the reaper,
   exactly once and for good.
   */
  lemma FailuresSpendNothing(config: Config, clock: real, steps: seq<Step>, h: nat)
    requires var w := RunAll(Start(config, clock), steps);
             && h < |w.handlers|
             && w.handlers[h].phase in {Finished(Unavailable), Finished(Failed)}
    ensures var w := RunAll(Start(config, clock), steps);
            var x := w.handlers[h];
            x.claim.Some? ==>
              var k, id := x.claim.value.manager, x.claim.value.reservation.id;
              && k < |w.ledgers| && id < |w.ledgers[k].status|
              && w.ledgers[k].status[id] == RolledBack && !CommittedIn(w.ledgers[k].commits, id)
  {
    HandlerBill(config, clock, steps, h);
  }

  /**
   In every run, an answered request was committed exactly once, at what its backend charges,
   unless the answer is that of the local fallback: then its reservation was rolled back and
   nothing is charged.
   */
  lemma AnswersArePaid(config: Config, clock: real, steps: seq<Step>, h: nat)
    requires var w := RunAll(Start(config, clock), steps);
             h < |w.handlers| && w.handlers[h].phase == Finished(Answered)
    ensures var w := RunAll(Start(config, clock), steps);
            var x := w.handlers[h];
            match x.result
            case Unknown => false
            case Ran(charged) =>
              && x.claim.Some? && x.claim.value.manager < |w.ledgers|
              && var l, id := w.ledgers[x.claim.value.manager], x.claim.value.reservation.id;
                 && id < |l.status| && l.status[id] == Committed
                 && CommitsOf(l.commits, id) == [Ledgers.Settlement(id, charged)]
            case FellBack(_) =>
              x.claim.Some? ==>
                && x.claim.value.manager < |w.ledgers|
                && var l, id := w.ledgers[x.claim.value.manager], x.claim.value.reservation.id;
                   id < |l.status| && l.status[id] == RolledBack && CommitsOf(l.commits, id) == []
  {
    HandlerBill(config, clock, steps, h);
    var w := RunAll(Start(config, clock), steps);
    BillSettled(w.ledgers[w.handlers[h].refs.bm], w.handlers[h]);
  }

  // ---------- nobody else pays ----------

  /** Every reservation ever issued was issued to a handler. */
  ghost predicate IssuesOwned(w: World) {
    forall k, i :: 0 <= k < |w.ledgers| && 0 <= i < |w.ledgers[k].issued| ==> Owned(w, k, w.ledgers[k].issued[i])
  }

  lemma AdvanceIssues(v: View, home: nat, remoteCost: real, now: real, reply: BackendReply)
    ensures var v' := Advance(v, home, remoteCost, now, reply);
            || v'.ledger.issued == v.ledger.issued
            || (v'.handler.claim.Some? && v'.handler.claim.value.manager == home
                && v'.ledger.issued == v.ledger.issued + [v'.handler.claim.value.reservation])
  {}

  lemma MoveIssues(w: World, h: nat, reply: BackendReply)
    requires WorldInv(w) && IssuesOwned(w) && h < |w.handlers|
    ensures IssuesOwned(Do(w, Move(h, reply)))
  {
    var home := w.handlers[h].refs.bm;
    var w' := Do(w, Move(h, reply));
    assert AtHome(w.handlers[h], |w.ledgers|);
    MoveStaysHome(w, h, reply);
    MoveWired(w, h, reply);
    AdvanceIssues(HomeView(w, h), home, w.config.remoteCost, w.clock, reply);
    forall k, i | 0 <= k < |w'.ledgers| && 0 <= i < |w'.ledgers[k].issued|
      ensures Owned(w', k, w'.ledgers[k].issued[i])
    {
      if i < |w.ledgers[k].issued| {
        assert Owned(w, k, w.ledgers[k].issued[i]);
        OwnedKept(w, w', k, w.ledgers[k].issued[i]);
      } else {
        assert w'.handlers[h].claim == Some(Claim(k, w'.ledgers[k].issued[i]));
      }
    }
  }

  lemma StepIssues(w: World, s: Step)
    requires WorldInv(w) && IssuesOwned(w)
    ensures IssuesOwned(Do(w, s))
  {
    if s.Move? {
      if s.h < |w.handlers| { MoveIssues(w, s.h, s.reply); }
    } else {
      var w' := Do(w, s);
      forall k, i | 0 <= k < |w'.ledgers| && 0 <= i < |w'.ledgers[k].issued|
        ensures Owned(w', k, w'.ledgers[k].issued[i])
      {
        if s.Reap? && ReadingsFit(w, s.readings) && k == w.app.bm {
          SameIssued(w.ledgers[k], SweepCall(s.readings));
          assert w'.ledgers[k] == Apply(w.ledgers[k], SweepCall(s.readings));
        }
        assert Owned(w, k, w.ledgers[k].issued[i]);
        OwnedKept(w, w', k, w.ledgers[k].issued[i]);
      }
    }
  }

  lemma {:induction false} RunIssues(w: World, steps: seq<Step>)
    requires WorldInv(w) && IssuesOwned(w)
    ensures IssuesOwned(RunAll(w, steps))
    decreases |steps|
  {
    if steps != [] {
      StepIssues(w, steps[0]);
      StepInv(w, steps[0]);
      RunIssues(Do(w, steps[0]), steps[1..]);
    }
  }

  /** The handler is the one that the commit is for. */
  predicate PaysFor(x: Handler, k: nat, c: Ledgers.Settlement) {
    x.claim.Some? && x.claim.value.manager == k && x.claim.value.reservation.id == c.id
  }

  lemma OnePayer(w: World, k: nat, c: Ledgers.Settlement, h: nat, i: nat)
    requires WorldInv(w) && ClaimsDistinct(w) && h < |w.handlers| && i < |w.handlers|
    requires PaysFor(w.handlers[h], k, c) && PaysFor(w.handlers[i], k, c)
    ensures i == h
  {
    assert AtHome(w.handlers[h], |w.ledgers|) && AtHome(w.handlers[i], |w.ledgers|);
    if i != h { ClaimIds(w, h, i); }
  }

  /** The handler that was issued a committed reservation is charged what was committed. */
  lemma PayerIsCharged(l: Ledger, x: Handler, c: Ledgers.Settlement)
    requires Inv(l) && c in l.commits && BillFits(l, x) && x.claim.Some? && x.claim.value.reservation.id == c.id
    ensures x.result == Ran(c.actual)
  {
    assert CommittedIn(l.commits, c.id);
    CommitsOfOne(l.commits, c);
    CommitsOfOne(l.commits, Ledgers.Settlement(c.id, x.result.charged));
  }

  /**
   In every run, each commit on each ledger is for exactly one handler, at what that handler's
   backend charges; so what a ledger has spent is what these handlers are charged.
   */
  lemma CommitsAreHandlers(config: Config, clock: real, steps: seq<Step>, k: nat, c: Ledgers.Settlement)
    requires k < |RunAll(Start(config, clock), steps).ledgers|
    requires c in RunAll(Start(config, clock), steps).ledgers[k].commits
    ensures var xs := RunAll(Start(config, clock), steps).handlers;
            exists h :: 0 <= h < |xs| && PaysFor(xs[h], k, c) && xs[h].result == Ran(c.actual)
                        && forall i :: 0 <= i < |xs| && PaysFor(xs[i], k, c) ==> i == h
  {
    var w := RunAll(Start(config, clock), steps);
    var l := w.ledgers[k];
    StartInv(config, clock);
    RunIssues(Start(config, clock), steps);
    ReachableInv(config, clock, steps);
    assert Sound(w, k);
    assert CommittedIn(l.commits, c.id);
    assert Owned(w, k, l.issued[c.id]);
    var h :| 0 <= h < |w.handlers| && w.handlers[h].claim == Some(Claim(k, l.issued[c.id]));
    HandlerBill(config, clock, steps, h);
    PayerIsCharged(l, w.handlers[h], c);
    forall i | 0 <= i < |w.handlers| && PaysFor(w.handlers[i], k, c) ensures i == h {
      OnePayer(w, k, c, h, i);
    }
  }
}
