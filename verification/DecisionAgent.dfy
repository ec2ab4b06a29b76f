/**
 The decision agent as the program keeps it: a stateless object over the shared managers, whose
 only effects are its reservation calls.
 */
module DecisionAgents {
  import opened Amounts
  import opened Routing
  import L = Ledgers
  import E = LatencyEstimates
  import Q = QueueMonitors
  import opened BudgetManagers
  import opened LatencyTrackers

  class DecisionAgent {
    const bm: BudgetManager
    const qm: Q.QueueMonitor
    const lt: LatencyTracker
    const remoteCost: real

    ghost predicate Valid()
      reads this, bm, qm, lt
    {
      bm.Valid() && qm.Valid() && lt.Valid()
    }

    constructor (bm: BudgetManager, qm: Q.QueueMonitor, lt: LatencyTracker, remoteCost: real)
      requires bm.Valid() && qm.Valid() && lt.Valid()
      ensures Valid() && this.bm == bm && this.qm == qm && this.lt == lt && this.remoteCost == remoteCost
    {
      this.bm, this.qm, this.lt, this.remoteCost := bm, qm, lt, remoteCost;
    }

    /** The snapshot the advisory reads amount to. */
    method Look(tier: Tier, sla: real) returns (s: Snapshot)
      requires Valid()
      ensures s == Routing.Look(qm.Model(), lt.Model(), tier, sla)
    {
      var queueDepth := qm.activeCount;
      var atCapacity := qm.IsAtCapacity();
      var perSlot := lt.GetEstimate(E.Local);
      var estRemote := lt.GetEstimate(E.Remote);
      s := Snapshot(tier, sla, atCapacity, queueDepth, E.Mul(perSlot, (queueDepth + 1) as real), estRemote);
    }

    /** The request either leaves the agent with a new reservation, or the managers unchanged. */
    method Route(tier: Tier, sla: real, now: real) returns (o: Outcome, reservation: Reservation?)
      requires Valid()
      modifies bm
      ensures Valid()
      ensures var s := old(Routing.Look(qm.Model(), lt.Model(), tier, sla));
              (bm.Model(), o) == RouteRequest(old(bm.Model()), s, s.estLocal, remoteCost, now)
      ensures reservation != null <==> o.Routed? && o.reservation.Some?
      ensures reservation != null ==> fresh(reservation) && reservation.info == o.reservation.value
    {
      var s := Look(tier, sla);
      if tier == Quality {
        o, reservation := RouteQuality(s, now);
      } else {
        o, reservation := RouteFast(s, now);
      }
    }

    /** One reservation attempt, concluding the decision unless remote is refused. */
    method Reserve(want: Amount, route: Route, now: real) returns (o: Outcome, reservation: Reservation?)
      requires Valid()
      modifies bm
      ensures Valid()
      ensures var (l, reply) := L.TryReserve(old(bm.Model()), want, now);
              bm.Model() == l && o == Conclude(reply, route)
      ensures reservation != null <==> o.Routed? && o.reservation.Some?
      ensures reservation != null ==> fresh(reservation) && reservation.info == o.reservation.value
    {
      var reply;
      reply, reservation := bm.TryReserve(want.cost, want.latency, now);
      o := Conclude(reply, route);
    }

    method RouteFast(s: Snapshot, now: real) returns (o: Outcome, reservation: Reservation?)
      requires Valid()
      modifies bm
      ensures Valid()
      ensures var degraded := LocalEstimate(old(lt.Model()), s.queueDepth);
              (bm.Model(), o) == Routing.RouteFast(old(bm.Model()), s, degraded, remoteCost, now)
      ensures reservation != null <==> o.Routed? && o.reservation.Some?
      ensures reservation != null ==> fresh(reservation) && reservation.info == o.reservation.value
    {
      if !s.atCapacity && LocalWithinSla(s) {
        o, reservation := Reserve(LocalWant(s), ToLocal, now);
        return;
      }
      if RemoteWithinSla(s) {
        o, reservation := Reserve(RemoteWant(s, remoteCost), ToRemote, now);
        if o != FAILED {
          return;
        }
      }
      o, reservation := Degrade(s, now);
    }

    method RouteQuality(s: Snapshot, now: real) returns (o: Outcome, reservation: Reservation?)
      requires Valid()
      modifies bm
      ensures Valid()
      ensures var degraded := LocalEstimate(old(lt.Model()), s.queueDepth);
              (bm.Model(), o) == Routing.RouteQuality(old(bm.Model()), s, degraded, remoteCost, now)
      ensures reservation != null <==> o.Routed? && o.reservation.Some?
      ensures reservation != null ==> fresh(reservation) && reservation.info == o.reservation.value
    {
      if RemoteWithinSla(s) {
        o, reservation := Reserve(RemoteWant(s, remoteCost), ToRemote, now);
        if o != FAILED {
          return;
        }
      }
      if !s.atCapacity && LocalWithinSla(s) {
        o, reservation := Reserve(LocalWant(s), ToLocal, now);
        return;
      }
      o, reservation := Degrade(s, now);
    }

    /** The degraded local path, which reads the latency estimate again: it may have changed since the snapshot. */
    method Degrade(s: Snapshot, now: real) returns (o: Outcome, reservation: Reservation?)
      requires Valid()
      modifies bm
      ensures Valid()
      ensures var degraded := LocalEstimate(old(lt.Model()), s.queueDepth);
              (bm.Model(), o) == DegradedPath(old(bm.Model()), s, degraded, now)
      ensures reservation != null <==> o.Routed? && o.reservation.Some?
      ensures reservation != null ==> fresh(reservation) && reservation.info == o.reservation.value
    {
      if s.atCapacity {
        return FAILED, null;
      }
      var perSlot := lt.GetEstimate(E.Local);
      var degraded := E.Mul(perSlot, (s.queueDepth + 1) as real);
      o, reservation := Reserve(DegradedWant(degraded), ToQueueLocal, now);
    }
  }
}
