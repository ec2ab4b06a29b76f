/**
 The routing decision on values: the two tier orders as the agent writes them, and the same
 decision as a machine that makes one reservation attempt at a time, so that other requests can
 act between its attempts.
 */
module Routing {
  import opened Amounts
  import opened Options
  import opened Ledgers
  import Q = QueueMonitors
  import E = LatencyEstimates

  datatype Tier = Fast | Quality

  datatype Route = ToLocal | ToRemote | ToQueueLocal | FailFast

  /** `Raised` stands for a ValueError out of the reservation call. */
  datatype Outcome = Routed(route: Route, reservation: Option<Reservation>) | Raised

  const FAILED := Routed(FailFast, None)

  /** The advisory reads a request makes once, holding no lock. */
  datatype Snapshot = Snapshot(
    tier: Tier, sla: real, atCapacity: bool, queueDepth: nat, estLocal: real, estRemote: real)

  function LocalEstimate(t: E.Tracker, queueDepth: nat): real {
    E.Mul(E.EstimateOf(t, E.Local), (queueDepth + 1) as real)
  }

  function Look(q: Q.Queue, t: E.Tracker, tier: Tier, sla: real): Snapshot {
    Snapshot(tier, sla, Q.AtCapacity(q), q.active, LocalEstimate(t, q.active), E.EstimateOf(t, E.Remote))
  }

  predicate LocalWithinSla(s: Snapshot) {
    s.estLocal <= s.sla
  }

  predicate RemoteWithinSla(s: Snapshot) {
    s.estRemote <= s.sla
  }

  // ---------- the decision, uninterrupted ----------

  function LocalWant(s: Snapshot): Amount {
    Amount(0.0, s.estLocal)
  }

  function RemoteWant(s: Snapshot, remoteCost: real): Amount {
    Amount(remoteCost, s.estRemote)
  }

  /** The degraded path estimates afresh, from the queue depth read at the start. */
  function DegradedWant(degraded: real): Amount {
    Amount(0.0, degraded)
  }

  /** What the agent returns when its last attempt is the one that got `reply`. */
  function Conclude(reply: ReserveReply, route: Route): Outcome {
    match reply
    case Granted(r) => Routed(route, Some(r))
    case Refused => FAILED
    case InvalidArgument => Raised
  }

  function DegradedPath(l: Ledger, s: Snapshot, degraded: real, now: real): (Ledger, Outcome) {
    if !s.atCapacity then
      var (l', reply) := TryReserve(l, DegradedWant(degraded), now);
      (l', Conclude(reply, ToQueueLocal))
    else (l, FAILED)
  }

  function LocalPath(l: Ledger, s: Snapshot, now: real): (Ledger, Outcome) {
    var (l', reply) := TryReserve(l, LocalWant(s), now);
    (l', Conclude(reply, ToLocal))
  }

  function RouteFast(l: Ledger, s: Snapshot, degraded: real, remoteCost: real, now: real): (Ledger, Outcome) {
    if !s.atCapacity && LocalWithinSla(s) then LocalPath(l, s, now)
    else if RemoteWithinSla(s) then
      var (l', reply) := TryReserve(l, RemoteWant(s, remoteCost), now);
      if reply.Refused? then DegradedPath(l, s, degraded, now) else (l', Conclude(reply, ToRemote))
    else DegradedPath(l, s, degraded, now)
  }

  function LocalOrDegraded(l: Ledger, s: Snapshot, degraded: real, now: real): (Ledger, Outcome) {
    if !s.atCapacity && LocalWithinSla(s) then LocalPath(l, s, now) else DegradedPath(l, s, degraded, now)
  }

  function RouteQuality(l: Ledger, s: Snapshot, degraded: real, remoteCost: real, now: real): (Ledger, Outcome) {
    if RemoteWithinSla(s) then
      var (l', reply) := TryReserve(l, RemoteWant(s, remoteCost), now);
      if reply.Refused? then LocalOrDegraded(l, s, degraded, now) else (l', Conclude(reply, ToRemote))
    else LocalOrDegraded(l, s, degraded, now)
  }

  function RouteRequest(l: Ledger, s: Snapshot, degraded: real, remoteCost: real, now: real): (Ledger, Outcome) {
    match s.tier
    case Quality => RouteQuality(l, s, degraded, remoteCost, now)
    case Fast => RouteFast(l, s, degraded, remoteCost, now)
  }

  // ---------- the decision, one attempt at a time ----------

  /**
   What a request does next; `refused` records that remote was tried and refused.  Before the
   degraded attempt the local latency is estimated again, without a lock.
   */
  datatype Stage =
    | TryLocal(refused: bool)
    | TryRemote
    | Reestimating(refused: bool)
    | TryDegraded(refused: bool, degraded: real)
    | Decided(outcome: Outcome, refused: bool)

  predicate Attempting(stage: Stage) {
    stage.TryLocal? || stage.TryRemote? || stage.TryDegraded?
  }

  function AfterRemote(s: Snapshot, refused: bool): Stage {
    if s.atCapacity then Decided(FAILED, refused)
    else if s.tier == Quality && LocalWithinSla(s) then TryLocal(refused)
    else Reestimating(refused)
  }

  function FirstStage(s: Snapshot): Stage {
    if s.tier == Fast && !s.atCapacity && LocalWithinSla(s) then TryLocal(false)
    else if RemoteWithinSla(s) then TryRemote
    else AfterRemote(s, false)
  }

  function Want(s: Snapshot, stage: Stage, remoteCost: real): Amount
    requires Attempting(stage)
  {
    match stage
    case TryLocal(_) => LocalWant(s)
    case TryRemote => RemoteWant(s, remoteCost)
    case TryDegraded(_, degraded) => DegradedWant(degraded)
  }

  function RouteOf(stage: Stage): Route
    requires Attempting(stage)
  {
    match stage
    case TryLocal(_) => ToLocal
    case TryRemote => ToRemote
    case TryDegraded(_, _) => ToQueueLocal
  }

  function AfterReply(s: Snapshot, stage: Stage, reply: ReserveReply): Stage
    requires Attempting(stage)
  {
    match stage
    case TryRemote => if reply.Refused? then AfterRemote(s, true) else Decided(Conclude(reply, ToRemote), false)
    case TryLocal(refused) => Decided(Conclude(reply, ToLocal), refused)
    case TryDegraded(refused, _) => Decided(Conclude(reply, ToQueueLocal), refused)
  }

  /** One attempt: a single critical section of the budget manager. */
  function Attempt(l: Ledger, s: Snapshot, stage: Stage, remoteCost: real, now: real): (Ledger, Stage)
    requires Attempting(stage)
  {
    var (l', reply) := TryReserve(l, Want(s, stage, remoteCost), now);
    (l', AfterReply(s, stage, reply))
  }

  /** How many more attempts a stage can lead to. */
  function AttemptsLeft(stage: Stage): nat {
    match stage
    case TryRemote => 2
    case TryLocal(_) => 1
    case Reestimating(_) => 1
    case TryDegraded(_, _) => 1
    case Decided(_, _) => 0
  }

  /** How many more steps, the new estimate included. */
  function StepsLeft(stage: Stage): nat {
    match stage
    case TryRemote => 3
    case Reestimating(_) => 2
    case TryLocal(_) => 1
    case TryDegraded(_, _) => 1
    case Decided(_, _) => 0
  }

  function Finish(l: Ledger, s: Snapshot, stage: Stage, degraded: real, remoteCost: real, now: real): (Ledger, Outcome)
    decreases StepsLeft(stage)
  {
    match stage
    case Decided(outcome, _) => (l, outcome)
    case Reestimating(refused) => Finish(l, s, TryDegraded(refused, degraded), degraded, remoteCost, now)
    case _ =>
      var (l', next) := Attempt(l, s, stage, remoteCost, now);
      Finish(l', s, next, degraded, remoteCost, now)
  }

  /** Undisturbed, the attempts add up to the decision as the agent writes it, in at most two of them. */
  lemma AttemptsAddUp(l: Ledger, s: Snapshot, degraded: real, remoteCost: real, now: real)
    ensures Finish(l, s, FirstStage(s), degraded, remoteCost, now) == RouteRequest(l, s, degraded, remoteCost, now)
  {
    var want := RemoteWant(s, remoteCost);
    var (l', reply) := TryReserve(l, want, now);
    assert reply.Refused? ==> l' == l;
  }

  // ---------- what a decision guarantees ----------

  /**
   What holds of the snapshot whenever a stage is reached, whatever happened between attempts:
   a local attempt means a slot was seen free and local within the SLA; a remote one that remote
   was within the SLA; a degraded one that a slot was seen free, local over the SLA, and remote
   over the SLA or refused.
   */
  ghost predicate Justified(s: Snapshot, stage: Stage) {
    match stage
    case TryLocal(refused) =>
      Warranted(s, ToLocal, refused)
    case TryRemote => RemoteWithinSla(s) && (s.tier == Fast ==> s.atCapacity || !LocalWithinSla(s))
    case Reestimating(refused) => Warranted(s, ToQueueLocal, refused)
    case TryDegraded(refused, _) => Warranted(s, ToQueueLocal, refused)
    case Decided(o, refused) => o.Routed? ==> Warranted(s, o.route, refused)
  }

  ghost predicate Warranted(s: Snapshot, route: Route, refused: bool) {
    match route
    case ToLocal =>
      !s.atCapacity && LocalWithinSla(s) && (s.tier == Quality ==> (refused <==> RemoteWithinSla(s)))
    case ToRemote => RemoteWithinSla(s)
    case ToQueueLocal => !s.atCapacity && !LocalWithinSla(s) && (refused <==> RemoteWithinSla(s))
    case FailFast => true
  }

  /** One attempt keeps the justification and hands out a reservation exactly when it decides on a route. */
  lemma AttemptJustified(l: Ledger, s: Snapshot, stage: Stage, remoteCost: real, now: real)
    requires Attempting(stage) && Justified(s, stage)
    ensures var (l', next) := Attempt(l, s, stage, remoteCost, now);
            && Justified(s, next)
            && AttemptsLeft(next) < AttemptsLeft(stage) && StepsLeft(next) < StepsLeft(stage)
            && (if next.Decided? && next.outcome.Routed? && next.outcome.route != FailFast then
                  var r := Reservation(|l.issued|, Want(s, stage, remoteCost), now, l.ttl);
                  next.outcome == Routed(RouteOf(stage), Some(r)) && l' == Grant(l, r.amount, now)
                else l' == l && (next.Decided? ==> next.outcome in {FAILED, Raised}))
  {}

  /**
   An uninterrupted decision creates exactly one active reservation, or fails fast and leaves
   the ledger as it was.  It is warranted by the snapshot, holds the full remote cost when
   remote, and degrades only when remote was over the SLA or refused.
   */
  lemma RouteGuarantees(l: Ledger, s: Snapshot, degraded: real, remoteCost: real, now: real)
    requires remoteCost >= 0.0 && s.estLocal > 0.0 && s.estRemote > 0.0 && degraded > 0.0
    ensures var (l', o) := RouteRequest(l, s, degraded, remoteCost, now);
            && o.Routed?
            && (o.route == ToLocal ==>
                  && !s.atCapacity && s.estLocal <= s.sla
                  && (s.tier == Quality ==> s.estRemote > s.sla || !Admits(l, RemoteWant(s, remoteCost))))
            && (o.route == ToRemote ==> s.estRemote <= s.sla)
            && (o.route == FailFast <==> o.reservation == None)
            && (o.route == FailFast ==> l' == l)
            && (o.route != FailFast ==>
                  var r := o.reservation.value;
                  && l'.active == l.active + [r] && r.id == |l.issued|
                  && l' == Grant(l, r.amount, now)
                  && r.amount == (match o.route
                                  case ToRemote => Amount(remoteCost, s.estRemote)
                                  case ToLocal => Amount(0.0, s.estLocal)
                                  case _ => Amount(0.0, degraded)))
            && (o.route == ToQueueLocal ==>
                  && !s.atCapacity && s.estLocal > s.sla
                  && (s.estRemote > s.sla || !Admits(l, RemoteWant(s, remoteCost))))
  {}

  // ---------- the two tiers compared ----------

  /**
   In the same state, whenever the quality tier fails fast so does the fast tier.  The fast tier
   alone fails exactly when local is free and within the SLA but refused while remote is within
   the SLA and admitted, and that forces the local estimate above the remote one.
   */
  lemma TierComparison(l: Ledger, s: Snapshot, remoteCost: real, now: real)
    requires remoteCost >= 0.0 && s.estLocal > 0.0 && s.estRemote > 0.0
    ensures var fast := RouteFast(l, s, s.estLocal, remoteCost, now).1;
            var quality := RouteQuality(l, s, s.estLocal, remoteCost, now).1;
            && (quality == FAILED ==> fast == FAILED)
            && (fast == FAILED && quality != FAILED
                <==> !s.atCapacity && s.estLocal <= s.sla && !Admits(l, Amount(0.0, s.estLocal))
                     && s.estRemote <= s.sla && Admits(l, Amount(remoteCost, s.estRemote)))
            && (fast == FAILED && quality != FAILED ==> s.estLocal > s.estRemote)
  {}

  // ---------- valid arguments ----------

  lemma EstimatesPositive(q: Q.Queue, t: E.Tracker, queueDepth: nat)
    requires E.PositiveAverages(t)
    ensures E.EstimateOf(t, E.Remote) > 0.0 && LocalEstimate(t, queueDepth) > 0.0
  {
    E.Product(E.EstimateOf(t, E.Local), (queueDepth + 1) as real);
  }

  /** With positive estimates no attempt is rejected as invalid, so routing never raises. */
  lemma AttemptNeverRaises(l: Ledger, s: Snapshot, stage: Stage, remoteCost: real, now: real)
    requires Attempting(stage) && remoteCost >= 0.0
    requires s.estLocal > 0.0 && s.estRemote > 0.0 && (stage.TryDegraded? ==> stage.degraded > 0.0)
    ensures var next := Attempt(l, s, stage, remoteCost, now).1; next.Decided? ==> next.outcome != Raised
  {}
}
