/**
 Which route a request is given, in any state a run can reach, said in plain terms: by the
 estimates against the SLA, the slots, and what the ledger can still afford.
 */
module RoutingAnswers {
  import opened Amounts
  import opened Options
  import opened Ledgers
  import opened LedgerAnswers
  import opened Routing
  import Q = QueueMonitors
  import E = LatencyEstimates

  /** What a request reads before it decides: slots in use, and the estimates, local scaled by the queue ahead. */
  lemma LookReads(q: Q.Queue, t: E.Tracker, tier: Tier, sla: real)
    ensures var s := Look(q, t, tier, sla);
            && s.tier == tier && s.sla == sla
            && s.queueDepth == q.active && (s.atCapacity <==> q.active >= q.capacity)
            && s.estLocal == E.EstimateOf(t, E.Local) * (q.active + 1) as real
            && s.estRemote == E.EstimateOf(t, E.Remote)
  {}

  /**
   The route.  A fast request is answered local if and only if a slot is free, local is within the
   SLA and affordable; remote only if local is not an option and remote is within the SLA and
   affordable.  A quality request tries remote first, under the same conditions.  Either is degraded
   to local only if a slot is free, local is over the SLA, remote is not to be had, and the fresh
   local estimate is affordable; and fails fast otherwise.
   */
  lemma RouteAnswer(l: Ledger, cap: Amount, ttl: real, s: Snapshot, degraded: real, remoteCost: real, now: real)
    requires Reachable(l, cap, ttl)
    requires remoteCost >= 0.0 && s.estLocal > 0.0 && s.estRemote > 0.0 && degraded > 0.0
    ensures var (l', o) := RouteRequest(l, s, degraded, remoteCost, now);
            var localFits := !s.atCapacity && s.estLocal <= s.sla;
            var localWins := localFits && Affordable(l, cap, 0.0, s.estLocal);
            var remoteWins := s.estRemote <= s.sla && Affordable(l, cap, remoteCost, s.estRemote);
            var degradedWins := !s.atCapacity && s.estLocal > s.sla && Affordable(l, cap, 0.0, degraded);
            && o.Routed?
            && (s.tier == Fast ==>
                  && (o.route == ToLocal <==> localWins)
                  && (o.route == ToRemote <==> !localFits && remoteWins)
                  && (o.route == ToQueueLocal <==> degradedWins && !remoteWins))
            && (s.tier == Quality ==>
                  && (o.route == ToRemote <==> remoteWins)
                  && (o.route == ToLocal <==> !remoteWins && localWins)
                  && (o.route == ToQueueLocal <==> !remoteWins && degradedWins))
            && (o.route == FailFast <==> o.reservation == None)
            && (o.reservation == None ==> l' == l)
            && (o.reservation.Some? ==>
                  var held := match o.route
                              case ToRemote => Amount(remoteCost, s.estRemote)
                              case ToLocal => Amount(0.0, s.estLocal)
                              case _ => Amount(0.0, degraded);
                  && o.reservation.value == Reservation(|l.issued|, held, now, ttl)
                  && l'.active == l.active + [o.reservation.value])
  {
    ReachableFacts(l, cap, ttl);
    AdmitsIffAffordable(l, Amount(0.0, s.estLocal));
    AdmitsIffAffordable(l, Amount(remoteCost, s.estRemote));
    AdmitsIffAffordable(l, Amount(0.0, degraded));
  }
}
