/**
 The endpoint as the program writes it: one request from top to bottom, as a reader of what its
 calls return.  Every handler of the step machine, whatever runs in between, answers as it says.
 */
module RouterProgram {
  import opened Ledgers
  import opened Options
  import opened Routing
  import opened Routers
  import opened RouterInvariant
  import opened RouterPreservation
  import opened RouterProgress

  /** What a handler's own calls and tests return to it. */
  datatype Signal =
    | Decision(route: Option<Route>)
    | Slot(acquired: bool)
    | Backend(reply: BackendReply)
    | CommitSaid(commit: CommitReply)
    | WasPending(pending: bool)
    | RollbackSaid(rollback: RollbackReply)
    | Busy(full: bool)

  // ---------- the program ----------

  /** Routing, then the body of the try statement for the route decided on. */
  function Program(t: seq<Signal>): Option<Response> {
    if t == [] || !t[0].Decision? then None
    else match t[0].route
      case None => Some(Rejected)
      case Some(FailFast) => Some(Unavailable)
      case Some(ToRemote) => RemoteBody(t[1..])
      case Some(ToLocal) => LocalBody(t[1..])
      case Some(ToQueueLocal) => LocalBody(t[1..])
  }

  function RemoteBody(t: seq<Signal>): Option<Response> {
    if t == [] || !t[0].Backend? then None
    else match t[0].reply
      case Answer(_, _) => CommitBody(t[1..])
      case RaisedRuntime => Except(RuntimeFailure, t[1..])
      case RaisedRemote => Except(RemoteFailure, t[1..])
      case RaisedOther => Except(OtherFailure, t[1..])
  }

  /** Inside the slot the local backend runs like the remote one. */
  function LocalBody(t: seq<Signal>): Option<Response> {
    if t == [] || !t[0].Slot? then None
    else if t[0].acquired then RemoteBody(t[1..])
    else Except(RuntimeFailure, t[1..])
  }

  function CommitBody(t: seq<Signal>): Option<Response> {
    if t == [] || !t[0].CommitSaid? then None
    else match t[0].commit
      case Settled => Some(Answered)
      case CostExceeded => Except(OverReservation, t[1..])
      case LatencyExceeded => Except(OverReservation, t[1..])
      case CommitNotActive => Except(OtherFailure, t[1..])
  }

  /** The except clauses: all but the one for refused commits roll back first. */
  function Except(f: Failure, t: seq<Signal>): Option<Response> {
    match f
    case OverReservation => Some(Failed)
    case Cancellation => Some(Dropped)
    case _ =>
      if t == [] || !t[0].WasPending? then None
      else if t[0].pending then AfterTest(f, t[1..])
      else Clause(f, t[1..])
  }

  /** A rollback that raises ends in a server error, whatever clause it is in. */
  function AfterTest(f: Failure, t: seq<Signal>): Option<Response> {
    if t == [] || !t[0].RollbackSaid? then None
    else if t[0].rollback == Returned then Clause(f, t[1..])
    else Some(Failed)
  }

  function Clause(f: Failure, t: seq<Signal>): Option<Response> {
    match f
    case RuntimeFailure => Some(Unavailable)
    case RemoteFailure => Fallback(t)
    case Cancellation => Some(Dropped)
    case _ => Some(Failed)
  }

  /** The local fallback after a remote failure. */
  function Fallback(t: seq<Signal>): Option<Response> {
    if t == [] || !t[0].Busy? then None
    else if t[0].full then Some(Unavailable)
    else FallbackSlot(t[1..])
  }

  function FallbackSlot(t: seq<Signal>): Option<Response> {
    if t == [] || !t[0].Slot? then None
    else if t[0].acquired then FallbackRun(t[1..])
    else Some(Unavailable)
  }

  function FallbackRun(t: seq<Signal>): Option<Response> {
    if t == [] || !t[0].Backend? then None
    else match t[0].reply
      case Answer(_, _) => Some(Answered)
      case RaisedRuntime => Some(Unavailable)
      case _ => Some(Failed)
  }

  // ---------- what a handler hears ----------

  /** What its next step returns to the handler, read off the managers; nothing at its other steps. */
  function Hears(v: View, reply: BackendReply): seq<Signal> {
    match v.handler.phase
    case Choosing(_, Decided(o, _)) => [Decision(if o.Routed? then Some(o.route) else None)]
    case WantsSlot => [Slot(v.queue.active < v.queue.capacity)]
    case WantsFallbackSlot => [Slot(v.queue.active < v.queue.capacity)]
    case InRemote => [Backend(reply)]
    case InLocal => [Backend(reply)]
    case InFallback => [Backend(reply)]
    case Settling(actual, _) =>
      if v.handler.claim.None? then []
      else [CommitSaid(Commit(v.ledger, v.handler.claim.value.reservation.id, actual).1)]
    case Handling(f) =>
      if f == OverReservation || f == Cancellation then [] else [WasPending(StillPending(v.ledger, v.handler))]
    case Returning(_) =>
      if v.handler.claim.None? then []
      else [RollbackSaid(Rollback(v.ledger, v.handler.claim.value.reservation.id).1)]
    case FallingBack => [Busy(v.queue.active >= v.queue.capacity)]
    case _ => []
  }

  /** All that handler `h` hears in a run. */
  function Heard(w: World, steps: seq<Step>, h: nat): seq<Signal>
    decreases |steps|
  {
    if steps == [] then [] else HeardAt(w, steps[0], h) + Heard(Do(w, steps[0]), steps[1..], h)
  }

  function HeardAt(w: World, s: Step, h: nat): seq<Signal> {
    if s.Move? && s.h == h && h < |w.handlers| && Resolves(w, HomeOf(w, h)) then
      Hears(ViewAt(w, HomeOf(w, h), w.handlers[h]), s.reply)
    else []
  }

  /** The managers the handler started with. */
  function HomeOf(w: World, h: nat): Wiring
    requires h < |w.handlers|
  {
    Wiring(w.handlers[h].refs.bm, w.handlers[h].refs.qm, w.handlers[h].refs.lt)
  }

  /** What the program still does of itself from where the handler is. */
  function Rest(p: Phase, t: seq<Signal>): Option<Response> {
    match p
    case Arrived => Program(t)
    case Choosing(_, _) => Program(t)
    case InRemote => RemoteBody(t)
    case WantsSlot => LocalBody(t)
    case InLocal => RemoteBody(t)
    case Settling(_, _) => CommitBody(t)
    case Reviewing(_, _) => Some(Answered)
    case Leaving(raised, _) => if raised.None? then Some(Answered) else Except(raised.value, t)
    case Handling(f) => Except(f, t)
    case Returning(f) => AfterTest(f, t)
    case FallingBack => Fallback(t)
    case WantsFallbackSlot => FallbackSlot(t)
    case InFallback => FallbackRun(t)
    case LeavingFallback(raised, _) =>
      if raised.None? then Some(Answered)
      else if raised.value == RuntimeFailure then Some(Unavailable)
      else if raised.value == Cancellation then Some(Dropped)
      else Some(Failed)
    case Recording(_, _) => Some(Answered)
    case Reporting => Some(Answered)
    case Finished(r) => Some(r)
  }

  /** A step reads exactly what it hears. */
  lemma AdvanceReads(v: View, home: nat, remoteCost: real, now: real, reply: BackendReply, t: seq<Signal>)
    ensures Rest(v.handler.phase, Hears(v, reply) + t)
         == Rest(Advance(v, home, remoteCost, now, reply).handler.phase, t)
  {
    var hears := Hears(v, reply);
    if hears == [] {
      assert hears + t == t;
      SilentStep(v, home, remoteCost, now, reply, t);
    } else {
      assert hears == [hears[0]];
      SpokenStep(v, home, remoteCost, now, reply, t);
    }
  }

  lemma SilentStep(v: View, home: nat, remoteCost: real, now: real, reply: BackendReply, t: seq<Signal>)
    requires Hears(v, reply) == []
    ensures Rest(v.handler.phase, t) == Rest(Advance(v, home, remoteCost, now, reply).handler.phase, t)
  {}

  lemma SpokenStep(v: View, home: nat, remoteCost: real, now: real, reply: BackendReply, t: seq<Signal>)
    requires Hears(v, reply) != []
    ensures Rest(v.handler.phase, [Hears(v, reply)[0]] + t)
         == Rest(Advance(v, home, remoteCost, now, reply).handler.phase, t)
  {
    var all := [Hears(v, reply)[0]] + t;
    assert all != [] && all[0] == Hears(v, reply)[0] && all[1..] == t;
    if all[0].Backend? { BackendStep(v, home, remoteCost, now, reply, all); }
    else if all[0].Decision? || all[0].Slot? || all[0].Busy? { RouteStep(v, home, remoteCost, now, reply, all); }
  }

  lemma BackendStep(v: View, home: nat, remoteCost: real, now: real, reply: BackendReply, all: seq<Signal>)
    requires Hears(v, reply) == [Backend(reply)] && all != [] && all[0] == Backend(reply)
    ensures Rest(v.handler.phase, all) == Rest(Advance(v, home, remoteCost, now, reply).handler.phase, all[1..])
  {}

  lemma RouteStep(v: View, home: nat, remoteCost: real, now: real, reply: BackendReply, all: seq<Signal>)
    requires all != [] && Hears(v, reply) == [all[0]] && (all[0].Decision? || all[0].Slot? || all[0].Busy?)
    ensures Rest(v.handler.phase, all) == Rest(Advance(v, home, remoteCost, now, reply).handler.phase, all[1..])
  {}

  predicate Uncancelled(steps: seq<Step>, h: nat) {
    forall i :: 0 <= i < |steps| ==> steps[i] != Cancel(h)
  }

  lemma OthersStandStill(w: World, s: Step, h: nat)
    requires WorldInv(w) && h < |w.handlers| && s != Cancel(h) && !(s.Move? && s.h == h)
    ensures h < |Do(w, s).handlers| && Do(w, s).handlers[h] == w.handlers[h]
  {
    if s.Move? && s.h < |w.handlers| { MoveStaysHome(w, s.h, s.reply); }
  }

  function PhaseOf(w: World, h: nat): Phase {
    if h < |w.handlers| then w.handlers[h].phase else Arrived
  }

  lemma StepReads(w: World, s: Step, h: nat, t: seq<Signal>)
    requires WorldInv(w) && s != Cancel(h)
    ensures Rest(PhaseOf(w, h), HeardAt(w, s, h) + t) == Rest(PhaseOf(Do(w, s), h), t)
  {
    if s.Move? && s.h == h && h < |w.handlers| {
      assert AtHome(w.handlers[h], |w.ledgers|);
      MoveStaysHome(w, h, s.reply);
      AdvanceReads(HomeView(w, h), w.handlers[h].refs.bm, w.config.remoteCost, w.clock, s.reply, t);
    } else {
      assert [] + t == t;
      if h < |w.handlers| { OthersStandStill(w, s, h); }
      else if s.Move? && s.h < |w.handlers| { MoveStaysHome(w, s.h, s.reply); }
    }
  }

  lemma {:induction false} RunReads(w: World, steps: seq<Step>, h: nat, t: seq<Signal>)
    requires WorldInv(w) && Uncancelled(steps, h)
    ensures Rest(PhaseOf(w, h), Heard(w, steps, h) + t) == Rest(PhaseOf(RunAll(w, steps), h), t)
    decreases |steps|
  {
    if steps == [] {
      assert [] + t == t;
    } else {
      var s := steps[0];
      StepInv(w, s);
      var heard := HeardAt(w, s, h);
      var later := Heard(Do(w, s), steps[1..], h);
      assert heard + later + t == heard + (later + t);
      StepReads(w, s, h, later + t);
      RunReads(Do(w, s), steps[1..], h, t);
    }
  }

  /**
   In every run, whatever other handlers, the reaper and resets do in between, a request that is not
   cancelled is answered exactly as the program answers it, given what its own calls returned.
   */
  lemma HandlersFollowTheProgram(config: Config, clock: real, steps: seq<Step>, h: nat)
    requires h < |RunAll(Start(config, clock), steps).handlers| && Uncancelled(steps, h)
    ensures var x := RunAll(Start(config, clock), steps).handlers[h];
            !Live(x) ==> Program(Heard(Start(config, clock), steps, h)) == Some(x.phase.response)
  {
    StartInv(config, clock);
    var heard := Heard(Start(config, clock), steps, h);
    RunReads(Start(config, clock), steps, h, []);
    assert heard + [] == heard;
  }

  // ---------- who asks ----------

  /** The n-th step is the handler's arrival, with its tier and SLA, at the managers then current. */
  ghost predicate ArrivesAt(w0: World, steps: seq<Step>, n: nat, h: nat, x: Handler) {
    && n < |steps| && steps[n] == Arrive(x.tier, x.sla)
    && |RunAll(w0, steps[..n]).handlers| == h && x.refs == RunAll(w0, steps[..n]).app
  }

  lemma {:induction false} ArrivedAs(w0: World, steps: seq<Step>, h: nat) returns (n: nat)
    requires WorldInv(w0) && w0.handlers == [] && h < |RunAll(w0, steps).handlers|
    ensures ArrivesAt(w0, steps, n, h, RunAll(w0, steps).handlers[h])
    decreases |steps|
  {
    var init, s := steps[..|steps| - 1], steps[|steps| - 1];
    assert steps == init + [s];
    RunKeepsInv(w0, init);
    RunSnoc(w0, init, s);
    var w := RunAll(w0, init);
    if h < |w.handlers| {
      n := ArrivedAs(w0, init, h);
      assert init[..n] == steps[..n];
      KeepsAsking(w, s, h);
    } else {
      n := |init|;
      assert steps[..n] == init;
      if s.Move? && s.h < |w.handlers| { MoveStaysHome(w, s.h, s.reply); }
    }
  }

  lemma KeepsAsking(w: World, s: Step, h: nat)
    requires WorldInv(w) && h < |w.handlers|
    ensures var x, xs := w.handlers[h], Do(w, s).handlers;
            h < |xs| && xs[h].tier == x.tier && xs[h].sla == x.sla && xs[h].refs == x.refs
  {
    if s.Move? && s.h < |w.handlers| {
      assert AtHome(w.handlers[s.h], |w.ledgers|);
      assert ClaimFits(w.ledgers[w.handlers[s.h].refs.bm], w.handlers[s.h]);
      assert RoutedFairly(w.handlers[s.h], w.config.remoteCost);
      MoveStaysHome(w, s.h, s.reply);
      AdvanceClaim(HomeView(w, s.h), w.handlers[s.h].refs.bm, w.config.remoteCost, w.clock, s.reply);
    }
  }

  /** In every run each handler is one arrival, with that tier and SLA, using the managers that were current then. */
  lemma HandlersAreArrivals(config: Config, clock: real, steps: seq<Step>, h: nat)
    requires h < |RunAll(Start(config, clock), steps).handlers|
    ensures exists n: nat ::
              ArrivesAt(Start(config, clock), steps, n, h, RunAll(Start(config, clock), steps).handlers[h])
  {
    StartInv(config, clock);
    var n := ArrivedAs(Start(config, clock), steps, h);
  }
}
