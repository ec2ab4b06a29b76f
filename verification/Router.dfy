/**
 The inference endpoint as a step machine: any number of request handlers, the reaper, the clock
 and run resets, interleaved arbitrarily.  One step is one critical section, one backend call's
 return, or one test between suspension points.
 */
module Routers {
  import opened Amounts
  import opened Ledgers
  import opened Options
  import opened Routing
  import E = LatencyEstimates
  import Q = QueueMonitors

  datatype Config = Config(cap: Amount, ttl: real, capacity: nat, settings: E.Settings, remoteCost: real)

  /** The four objects a handler reads from the application state when it starts. */
  datatype Refs = Refs(bm: nat, qm: nat, lt: nat, agent: nat)

  /** The three managers an agent was built with. */
  datatype Wiring = Wiring(bm: nat, qm: nat, lt: nat)

  /** A reservation, with the manager that issued it. */
  datatype Claim = Claim(manager: nat, reservation: Reservation)

  /** The exception classes the handler tells apart. */
  datatype Failure = RuntimeFailure | RemoteFailure | OverReservation | OtherFailure | Cancellation

  /** What a backend call ends with; a backend never reports the ledger's own exceptions. */
  datatype BackendReply = Answer(cost: real, latency: real) | RaisedRuntime | RaisedRemote | RaisedOther

  /** A backend that answers at once, at no cost. */
  const DONE := Answer(0.0, 0.0)

  datatype Response = Answered | Unavailable | Failed | Rejected | Dropped

  datatype Phase =
    | Arrived
    | Choosing(snapshot: Snapshot, stage: Stage)
    | InRemote
    | WantsSlot
    | InLocal
    | Settling(actual: Amount, inSlot: bool)
    | Reviewing(latency: real, inSlot: bool)
    | Leaving(raised: Option<Failure>, latency: real)
    | Handling(failure: Failure)
    | Returning(failure: Failure)
    | FallingBack
    | WantsFallbackSlot
    | InFallback
    | LeavingFallback(raised: Option<Failure>, latency: real)
    | Recording(backend: E.Backend, latency: real)
    | Reporting
    | Finished(response: Response)

  /**
   What the backend left in the handler's variables: nothing yet, an answer and what it is charged
   at (a local answer costs nothing), or the answer of the local fallback, which is not charged.
   */
  datatype Result = Unknown | Ran(charged: Amount) | FellBack(latency: real)

  datatype Handler =
    Handler(
      refs: Refs,
      tier: Tier,
      sla: real,
      claim: Option<Claim>,
      route: Option<Route>,
      result: Result,
      phase: Phase)

  datatype World = World(
    config: Config,
    app: Refs,
    ledgers: seq<Ledger>,
    queues: seq<Q.Queue>,
    trackers: seq<E.Tracker>,
    agents: seq<Wiring>,
    handlers: seq<Handler>,
    clock: real,
    swept: seq<real>)

  /** What one handler's step reads and writes. */
  datatype View = View(ledger: Ledger, queue: Q.Queue, tracker: E.Tracker, handler: Handler)

  // ---------- phases ----------

  predicate Holding(p: Phase) {
    match p
    case InLocal => true
    case Settling(_, inSlot) => inSlot
    case Reviewing(_, inSlot) => inSlot
    case Leaving(_, _) => true
    case InFallback => true
    case LeavingFallback(_, _) => true
    case _ => false
  }

  predicate Live(x: Handler) {
    !x.phase.Finished?
  }

  function Fault(reply: BackendReply): Failure
    requires !reply.Answer?
  {
    match reply
    case RaisedRuntime => RuntimeFailure
    case RaisedRemote => RemoteFailure
    case RaisedOther => OtherFailure
  }

  /** How the exception classes a commit raises are caught. */
  function CommitFailure(reply: CommitReply): Option<Failure> {
    match reply
    case Settled => None
    case CostExceeded => Some(OverReservation)
    case LatencyExceeded => Some(OverReservation)
    case CommitNotActive => Some(OtherFailure)
  }

  /** The handler tests its reservation's state, holding no lock, before it calls for the rollback. */
  predicate StillPending(l: Ledger, x: Handler) {
    && x.claim.Some?
    && x.claim.value.reservation.id < |l.status|
    && l.status[x.claim.value.reservation.id] == Pending
  }

  /** The exception handlers that return the reservation: all but the two for refused commits and cancellation. */
  predicate RollsBack(f: Failure) {
    f in {RuntimeFailure, RemoteFailure, OtherFailure}
  }

  function AfterHandling(f: Failure): Phase {
    match f
    case RuntimeFailure => Finished(Unavailable)
    case RemoteFailure => FallingBack
    case OverReservation => Finished(Failed)
    case OtherFailure => Finished(Failed)
    case Cancellation => Finished(Dropped)
  }

  function AfterFallback(failure: Option<Failure>, latency: real): Phase {
    match failure
    case None => Recording(E.Local, latency)
    case Some(f) =>
      if f == RuntimeFailure then Finished(Unavailable)
      else if f == Cancellation then Finished(Dropped)
      else Finished(Failed)
  }

  function AfterDecision(o: Outcome): Phase {
    match o
    case Raised => Finished(Rejected)
    case Routed(FailFast, _) => Finished(Unavailable)
    case Routed(ToRemote, _) => InRemote
    case Routed(_, _) => WantsSlot
  }

  function AfterSettled(latency: real, inSlot: bool): Phase {
    if inSlot then Leaving(None, latency) else Recording(E.Remote, latency)
  }

  // ---------- how a critical section's reply is taken ----------

  /** `home` is the manager that was asked. */
  function AfterAttempt(x: Handler, home: nat, reply: ReserveReply): Handler
    requires x.phase.Choosing? && Attempting(x.phase.stage)
  {
    x.(claim := if reply.Granted? then Some(Claim(home, reply.reservation)) else x.claim,
       phase := Choosing(x.phase.snapshot, AfterReply(x.phase.snapshot, x.phase.stage, reply)))
  }

  function AfterCommit(x: Handler, reply: CommitReply): Handler
    requires x.phase.Settling?
  {
    var failure := CommitFailure(reply);
    x.(phase := if failure.None? then Reviewing(x.phase.actual.latency, x.phase.inSlot)
                else if x.phase.inSlot then Leaving(failure, x.phase.actual.latency)
                else Handling(failure.value))
  }

  /** A rollback that finds the reservation gone raises out of the exception handler. */
  function AfterRollback(x: Handler, reply: RollbackReply): Handler
    requires x.phase.Returning?
  {
    x.(phase := if reply == Returned then AfterHandling(x.phase.failure) else Finished(Failed))
  }

  function AfterAcquire(x: Handler, acquired: bool): Handler
    requires x.phase.WantsSlot? || x.phase.WantsFallbackSlot?
  {
    x.(phase := if x.phase.WantsSlot? then (if acquired then InLocal else Handling(RuntimeFailure))
                else (if acquired then InFallback else Finished(Unavailable)))
  }

  function AfterRelease(x: Handler): Handler
    requires x.phase.Leaving? || x.phase.LeavingFallback?
  {
    var raised, latency := x.phase.raised, x.phase.latency;
    x.(phase := if x.phase.LeavingFallback? then AfterFallback(raised, latency)
                else if raised.None? then Recording(E.Local, latency)
                else Handling(raised.value))
  }

  /** Reading the budget snapshot, which only the log and the response use. */
  function AfterSnapshot(x: Handler): Handler {
    match x.phase
    case Choosing(_, Decided(o, _)) =>
      x.(route := if o.Routed? then Some(o.route) else None, phase := AfterDecision(o))
    case Reviewing(latency, inSlot) => x.(phase := AfterSettled(latency, inSlot))
    case Reporting => x.(phase := Finished(Answered))
    case _ => x
  }

  // ---------- one handler's next step ----------

  /** The ledger operation a handler's next step performs, if any. */
  function StepEvent(x: Handler, remoteCost: real, now: real): Option<Event> {
    match x.phase
    case Choosing(s, stage) =>
      if Attempting(stage) then Some(ReserveCall(Want(s, stage, remoteCost), now)) else None
    case Settling(actual, _) =>
      if x.claim.None? then None else Some(CommitCall(x.claim.value.reservation.id, actual))
    case Returning(_) =>
      if x.claim.None? then None else Some(RollbackCall(x.claim.value.reservation.id))
    case _ => None
  }

  function Go(v: View, p: Phase): View {
    v.(handler := v.handler.(phase := p))
  }

  /** The backend has answered; the reservation is to be settled at what it charges. */
  function Charge(v: View, charged: Amount, inSlot: bool): View {
    v.(handler := v.handler.(result := Ran(charged), phase := Settling(charged, inSlot)))
  }

  /** `home` is the index of the ledger in the view. */
  function Advance(v: View, home: nat, remoteCost: real, now: real, reply: BackendReply): View {
    var x := v.handler;
    match x.phase
    case Arrived =>
      var s := Look(v.queue, v.tracker, x.tier, x.sla);
      Go(v, Choosing(s, FirstStage(s)))
    case Choosing(s, stage) =>
      if stage.Decided? then v.(handler := AfterSnapshot(x))
      else if stage.Reestimating? then
        Go(v, Choosing(s, TryDegraded(stage.refused, LocalEstimate(v.tracker, s.queueDepth))))
      else
        var (l', reply) := TryReserve(v.ledger, Want(s, stage, remoteCost), now);
        v.(ledger := l', handler := AfterAttempt(x, home, reply))
    case InRemote =>
      if reply.Answer? then Charge(v, Amount(reply.cost, reply.latency), false)
      else Go(v, Handling(Fault(reply)))
    case WantsSlot =>
      var (q', acquired) := Q.AcquireSlot(v.queue);
      v.(queue := q', handler := AfterAcquire(x, acquired))
    case InLocal =>
      if reply.Answer? then Charge(v, Amount(0.0, reply.latency), true)
      else Go(v, Leaving(Some(Fault(reply)), 0.0))
    case Settling(actual, _) =>
      if x.claim.None? then v
      else
        var (l', reply) := Commit(v.ledger, x.claim.value.reservation.id, actual);
        v.(ledger := l', handler := AfterCommit(x, reply))
    case Reviewing(_, _) =>
      v.(handler := AfterSnapshot(x))
    case Leaving(_, _) =>
      v.(queue := Q.ReleaseSlot(v.queue), handler := AfterRelease(x))
    case Handling(f) =>
      Go(v, if RollsBack(f) && StillPending(v.ledger, x) then Returning(f) else AfterHandling(f))
    case Returning(_) =>
      if x.claim.None? then v
      else
        var (l', reply) := Rollback(v.ledger, x.claim.value.reservation.id);
        v.(ledger := l', handler := AfterRollback(x, reply))
    case FallingBack =>
      Go(v, if Q.AtCapacity(v.queue) then Finished(Unavailable) else WantsFallbackSlot)
    case WantsFallbackSlot =>
      var (q', acquired) := Q.AcquireSlot(v.queue);
      v.(queue := q', handler := AfterAcquire(x, acquired))
    case InFallback =>
      if reply.Answer? then
        v.(handler := x.(route := Some(ToQueueLocal), result := FellBack(reply.latency),
                         phase := LeavingFallback(None, reply.latency)))
      else Go(v, LeavingFallback(Some(Fault(reply)), 0.0))
    case LeavingFallback(_, _) =>
      v.(queue := Q.ReleaseSlot(v.queue), handler := AfterRelease(x))
    case Recording(b, latency) =>
      Go(v.(tracker := E.Record(v.tracker, b, latency)), Reporting)
    case Reporting =>
      v.(handler := AfterSnapshot(x))
    case Finished(_) => v
  }

  /** Cancellation is delivered as an exception that only the slot's cleanup catches. */
  function AfterCancel(p: Phase): Phase {
    match p
    case Finished(_) => p
    case InFallback => LeavingFallback(Some(Cancellation), 0.0)
    case LeavingFallback(_, _) => LeavingFallback(Some(Cancellation), 0.0)
    case _ => if Holding(p) then Leaving(Some(Cancellation), 0.0) else Finished(Dropped)
  }

  // ---------- the world ----------

  function Start(config: Config, clock: real): World {
    World(config, Refs(0, 0, 0, 0), [Fresh(config.cap, config.ttl)], [Q.Idle(config.capacity)],
          [E.Seeded(config.settings)], [Wiring(0, 0, 0)], [], clock, [clock])
  }

  /** The managers a handler's next step reaches: through its agent while routing, else through its own references. */
  function Site(w: World, x: Handler): Wiring {
    if x.phase.Arrived? || x.phase.Choosing? then
      if x.refs.agent < |w.agents| then w.agents[x.refs.agent] else Wiring(0, 0, 0)
    else Wiring(if x.claim.Some? then x.claim.value.manager else x.refs.bm, x.refs.qm, x.refs.lt)
  }

  predicate Resolves(w: World, s: Wiring) {
    s.bm < |w.ledgers| && s.qm < |w.queues| && s.lt < |w.trackers|
  }

  function ViewAt(w: World, s: Wiring, x: Handler): View
    requires Resolves(w, s)
  {
    View(w.ledgers[s.bm], w.queues[s.qm], w.trackers[s.lt], x)
  }

  function Store(w: World, s: Wiring, h: nat, v: View): World
    requires Resolves(w, s) && h < |w.handlers|
  {
    w.(ledgers := w.ledgers[s.bm := v.ledger],
       queues := w.queues[s.qm := v.queue],
       trackers := w.trackers[s.lt := v.tracker],
       handlers := w.handlers[h := v.handler])
  }

  datatype Step =
    | Arrive(tier: Tier, sla: real)
    | Move(h: nat, reply: BackendReply)
    | Cancel(h: nat)
    | Reap(readings: seq<real>)
    | Tick(now: real)
    | ResetRun

  /** The reaper of the current manager reads a clock that never runs backwards. */
  predicate ReadingsFit(w: World, readings: seq<real>) {
    && w.app.bm < |w.ledgers| && w.app.bm < |w.swept|
    && |readings| == |w.ledgers[w.app.bm].active|
    && (forall i :: 0 <= i < |readings| ==> w.clock <= readings[i])
    && (forall i, j :: 0 <= i < j < |readings| ==> readings[i] <= readings[j])
  }

  function ReapStep(w: World, readings: seq<real>): World
    requires ReadingsFit(w, readings)
  {
    w.(ledgers := w.ledgers[w.app.bm := Sweep(w.ledgers[w.app.bm], readings).0],
       swept := w.swept[w.app.bm := w.clock],
       clock := if readings == [] then w.clock else readings[|readings| - 1])
  }

  /** `run_start` with reset: four new objects replace the old ones, whose reaper stops. */
  function ResetStep(w: World): World {
    var bm, qm, lt, agent := |w.ledgers|, |w.queues|, |w.trackers|, |w.agents|;
    w.(app := Refs(bm, qm, lt, agent),
       ledgers := w.ledgers + [Fresh(w.config.cap, w.config.ttl)],
       queues := w.queues + [Q.Idle(w.config.capacity)],
       trackers := w.trackers + [E.Seeded(w.config.settings)],
       agents := w.agents + [Wiring(bm, qm, lt)],
       swept := w.swept + [w.clock])
  }

  /** A step that does not fit the world leaves it as it is. */
  function Do(w: World, s: Step): World {
    match s
    case Arrive(tier, sla) =>
      w.(handlers := w.handlers + [Handler(w.app, tier, sla, None, None, Unknown, Arrived)])
    case Move(h, reply) =>
      if h < |w.handlers| && Resolves(w, Site(w, w.handlers[h])) then
        var site := Site(w, w.handlers[h]);
        Store(w, site, h, Advance(ViewAt(w, site, w.handlers[h]), site.bm, w.config.remoteCost, w.clock, reply))
      else w
    case Cancel(h) =>
      if h < |w.handlers| then
        w.(handlers := w.handlers[h := w.handlers[h].(phase := AfterCancel(w.handlers[h].phase))])
      else w
    case Reap(readings) => if ReadingsFit(w, readings) then ReapStep(w, readings) else w
    case Tick(now) => if w.clock <= now then w.(clock := now) else w
    case ResetRun => ResetStep(w)
  }

  function RunAll(w: World, steps: seq<Step>): World
    decreases |steps|
  {
    if steps == [] then w else RunAll(Do(w, steps[0]), steps[1..])
  }

  lemma {:induction false} RunAllConcat(w: World, ss: seq<Step>, ts: seq<Step>)
    ensures RunAll(w, ss + ts) == RunAll(RunAll(w, ss), ts)
    decreases |ss|
  {
    if ss == [] {
      assert ss + ts == ts;
    } else {
      assert (ss + ts)[1..] == ss[1..] + ts;
      RunAllConcat(Do(w, ss[0]), ss[1..], ts);
    }
  }

  lemma OneStep(w: World, s: Step)
    ensures RunAll(w, [s]) == Do(w, s)
  {
    assert RunAll(w, [s]) == RunAll(Do(w, s), []);
  }

  lemma {:induction false} ConfigFixed(w: World, steps: seq<Step>)
    ensures RunAll(w, steps).config == w.config
    decreases |steps|
  {
    if steps != [] { ConfigFixed(Do(w, steps[0]), steps[1..]); }
  }
}
