/**
 What every call on a ledger answers and does, in any state a run can reach, said in plain terms:
 by sums over what was committed and what is reserved, by reservations' states, and by the
 tolerances as numbers.
 */
module LedgerAnswers {
  import opened Amounts
  import opened Ledgers
  import opened LedgerInvariant
  import S = Settlement
  import opened Reaping
  import opened Spending

  // ---------- sums ----------

  function CommittedCost(cs: seq<Ledgers.Settlement>): real {
    if cs == [] then 0.0 else cs[0].actual.cost + CommittedCost(cs[1..])
  }

  function CommittedLatency(cs: seq<Ledgers.Settlement>): real {
    if cs == [] then 0.0 else cs[0].actual.latency + CommittedLatency(cs[1..])
  }

  function ReservedCost(rs: seq<Reservation>): real {
    if rs == [] then 0.0 else rs[0].amount.cost + ReservedCost(rs[1..])
  }

  function ReservedLatency(rs: seq<Reservation>): real {
    if rs == [] then 0.0 else rs[0].amount.latency + ReservedLatency(rs[1..])
  }

  lemma {:induction false} CommittedAppend(cs: seq<Ledgers.Settlement>, c: Ledgers.Settlement)
    ensures CommittedCost(cs + [c]) == CommittedCost(cs) + c.actual.cost
    ensures CommittedLatency(cs + [c]) == CommittedLatency(cs) + c.actual.latency
  {
    if cs == [] {
      assert cs + [c] == [c];
    } else {
      assert (cs + [c])[1..] == cs[1..] + [c];
      CommittedAppend(cs[1..], c);
    }
  }

  lemma {:induction false} CommittedIsSpent(cs: seq<Ledgers.Settlement>)
    ensures Spent(cs) == Amount(CommittedCost(cs), CommittedLatency(cs))
  {
    if cs != [] {
      var n := |cs| - 1;
      CommittedIsSpent(cs[..n]);
      CommittedAppend(cs[..n], cs[n]);
      assert cs[..n] + [cs[n]] == cs;
    }
  }

  lemma {:induction false} ReservedIsHeld(rs: seq<Reservation>)
    ensures Held(rs) == Amount(ReservedCost(rs), ReservedLatency(rs))
  {
    if rs != [] { ReservedIsHeld(rs[1..]); }
  }

  /** What was committed, what is reserved and what is asked for fit under both caps, give or take 1e-12. */
  predicate Affordable(l: Ledger, cap: Amount, cost: real, latency: real) {
    && CommittedCost(l.commits) + ReservedCost(l.active) + cost <= cap.cost + 0.000000000001
    && CommittedLatency(l.commits) + ReservedLatency(l.active) + latency <= cap.latency + 0.000000000001
  }

  lemma AdmitsIffAffordable(l: Ledger, want: Amount)
    requires Inv(l)
    ensures Admits(l, want) <==> Affordable(l, l.cap, want.cost, want.latency)
  {
    CommittedIsSpent(l.commits);
    ReservedIsHeld(l.active);
  }

  // ---------- reservations live as long as the manager says ----------

  ghost predicate SameTtl(l: Ledger) {
    forall i :: 0 <= i < |l.issued| ==> l.issued[i].ttl == l.ttl
  }

  lemma StepSameTtl(l: Ledger, e: Event)
    requires SameTtl(l)
    ensures SameTtl(Apply(l, e))
  {
    if e.SweepCall? && |e.clock| == |l.active| { S.SweepIssued(l, l.active, e.clock); }
  }

  lemma {:induction false} RunSameTtl(l: Ledger, es: seq<Event>)
    requires SameTtl(l)
    ensures SameTtl(Run(l, es))
    decreases |es|
  {
    if es != [] {
      StepSameTtl(l, es[0]);
      RunSameTtl(Apply(l, es[0]), es[1..]);
    }
  }

  /** A state that some run of a manager with these caps and time to live reaches. */
  ghost predicate Reachable(l: Ledger, cap: Amount, ttl: real) {
    exists es :: l == Run(Fresh(cap, ttl), es)
  }

  lemma ReachableFacts(l: Ledger, cap: Amount, ttl: real)
    requires Reachable(l, cap, ttl)
    ensures Inv(l) && l.cap == cap && l.ttl == ttl && SameTtl(l)
  {
    var es :| l == Run(Fresh(cap, ttl), es);
    FreshInv(cap, ttl);
    RunInv(Fresh(cap, ttl), es);
    CapFixed(Fresh(cap, ttl), es);
    RunSameTtl(Fresh(cap, ttl), es);
  }

  // ---------- the four calls ----------

  /**
   A reservation call.  It is invalid if an amount is negative or both are zero; otherwise it is
   granted if and only if, on each resource, what was committed, what is reserved and what is asked
   for come to at most the cap plus 1e-12.  A grant adds one reservation made now, and nothing else.
   */
  lemma ReserveAnswer(l: Ledger, cap: Amount, ttl: real, want: Amount, now: real)
    requires Reachable(l, cap, ttl)
    ensures var (l', reply) := TryReserve(l, want, now);
            var valid := want.cost >= 0.0 && want.latency >= 0.0 && (want.cost > 0.0 || want.latency > 0.0);
            && (reply == InvalidArgument <==> !valid)
            && (reply.Granted? <==>
                  && valid
                  && CommittedCost(l.commits) + ReservedCost(l.active) + want.cost <= cap.cost + 0.000000000001
                  && CommittedLatency(l.commits) + ReservedLatency(l.active) + want.latency
                     <= cap.latency + 0.000000000001)
            && (!reply.Granted? ==> l' == l)
            && (reply.Granted? ==>
                  var r := Reservation(|l.issued|, want, now, ttl);
                  && reply.reservation == r
                  && l'.active == l.active + [r] && l'.issued == l.issued + [r] && l'.status == l.status + [Pending]
                  && l'.commits == l.commits)
  {
    ReachableFacts(l, cap, ttl);
    AdmitsIffAffordable(l, want);
  }

  /** The reservation has been issued and is not settled. */
  predicate PendingAt(l: Ledger, id: nat) {
    id < |l.status| && l.status[id] == Pending
  }

  /** Exactly reservation `id` has left the dictionary, to end as `s`. */
  ghost predicate SettledAs(l: Ledger, l': Ledger, id: nat, s: Status)
    requires id < |l.status|
  {
    && l'.issued == l.issued && l'.status == l.status[id := s]
    && (forall q :: q in l'.active <==> q in l.active && q.id != id)
  }

  /**
   A commit.  It is refused as not active if and only if the reservation is not pending.  Otherwise
   it succeeds if and only if the actual cost is at most the reserved cost plus 1e-9, and the
   latencies committed so far and this one come to at most the cap plus 1e-9; the cost is tested
   first.  Either way the reservation is settled, and only a success is charged.
   */
  lemma CommitAnswer(l: Ledger, cap: Amount, ttl: real, id: nat, actual: Amount)
    requires Reachable(l, cap, ttl)
    ensures var (l', reply) := Commit(l, id, actual);
            && (reply == CommitNotActive <==> !PendingAt(l, id))
            && (!PendingAt(l, id) ==> l' == l)
            && (PendingAt(l, id) ==>
                  && id < |l.issued|
                  && var cheap := actual.cost <= l.issued[id].amount.cost + 0.000000001;
                     var quick := CommittedLatency(l.commits) + actual.latency <= cap.latency + 0.000000001;
                     && (reply == Settled <==> cheap && quick)
                     && (reply == CostExceeded <==> !cheap)
                     && (reply == LatencyExceeded <==> cheap && !quick)
                     && SettledAs(l, l', id, if cheap && quick then Committed else RolledBack)
                     && l'.commits == l.commits + if cheap && quick then [Ledgers.Settlement(id, actual)] else [])
  {
    ReachableFacts(l, cap, ttl);
    CommittedIsSpent(l.commits);
    assert PendingAt(l, id) <==> Has(l.active, id);
    if Has(l.active, id) {
      RestIsHeld(l, id);
      WithoutMembers(l.active, id);
    }
  }

  /** A rollback: it returns a pending reservation's amounts, and refuses any other. */
  lemma RollbackAnswer(l: Ledger, cap: Amount, ttl: real, id: nat)
    requires Reachable(l, cap, ttl)
    ensures var (l', reply) := Rollback(l, id);
            && (reply == Returned <==> PendingAt(l, id))
            && (!PendingAt(l, id) ==> l' == l)
            && (PendingAt(l, id) ==> SettledAs(l, l', id, RolledBack) && l'.commits == l.commits)
  {
    ReachableFacts(l, cap, ttl);
    assert PendingAt(l, id) <==> Has(l.active, id);
    if Has(l.active, id) {
      RestIsHeld(l, id);
      WithoutMembers(l.active, id);
    }
  }

  lemma {:induction false} SurvivorAt(rs: seq<Reservation>, clock: seq<real>, i: nat)
    requires |clock| == |rs| && i < |rs| && Ordered(rs)
    ensures rs[i] in Survivors(rs, clock) <==> clock[i] - rs[i].createdAt <= rs[i].ttl
    ensures rs[i].id in Ids(Lapsed(rs, clock)) <==> clock[i] - rs[i].createdAt > rs[i].ttl
  {
    OrderedTail(rs);
    NotLater(rs, clock);
    if i > 0 {
      SurvivorAt(rs[1..], clock[1..], i - 1);
      assert rs[0].id < rs[i].id;
    }
  }

  lemma OrderedTail(rs: seq<Reservation>)
    requires Ordered(rs)
    ensures rs != [] ==> Ordered(rs[1..])
  {}

  lemma {:induction false} LapsedKnown(rs: seq<Reservation>, clock: seq<real>)
    requires |clock| == |rs|
    ensures forall id :: id in Ids(Lapsed(rs, clock)) ==> Has(rs, id)
    ensures forall r :: r in Survivors(rs, clock) ==> r in rs
  {
    if rs != [] {
      LapsedKnown(rs[1..], clock[1..]);
      forall id | Has(rs[1..], id) ensures Has(rs, id) {
        var i :| 0 <= i < |rs[1..]| && rs[1..][i].id == id;
        assert rs[i + 1].id == id;
      }
    }
  }

  /** The first reservation of an ordered list does not turn up again. */
  lemma NotLater(rs: seq<Reservation>, clock: seq<real>)
    requires |clock| == |rs| && Ordered(rs)
    ensures rs != [] ==> rs[0] !in Survivors(rs[1..], clock[1..]) && rs[0].id !in Ids(Lapsed(rs[1..], clock[1..]))
  {
    if rs != [] {
      LapsedKnown(rs[1..], clock[1..]);
      assert forall i :: 0 <= i < |rs[1..]| ==> rs[0].id < rs[1..][i].id;
    }
  }

  /**
   A sweep.  It keeps an active reservation if and only if the clock reading taken for it is at most
   its creation time plus the manager's time to live, reports exactly the others, rolls exactly
   those back, and charges nothing.
   */
  lemma SweepAnswer(l: Ledger, cap: Amount, ttl: real, clock: seq<real>)
    requires Reachable(l, cap, ttl) && |clock| == |l.active|
    ensures var (l', ids) := Sweep(l, clock);
            && l'.issued == l.issued && l'.commits == l.commits && |l'.status| == |l.status|
            && (forall i :: 0 <= i < |l.active| ==>
                  && (l.active[i] in l'.active <==> clock[i] <= l.active[i].createdAt + ttl)
                  && (l.active[i].id in ids <==> clock[i] > l.active[i].createdAt + ttl))
            && (forall r :: r in l'.active ==> r in l.active)
            && (forall id :: 0 <= id < |l.status| ==>
                  l'.status[id] == if id in ids then RolledBack else l.status[id])
            && (forall id :: id in ids ==> PendingAt(l, id))
  {
    ReachableFacts(l, cap, ttl);
    SweepExact(l, clock);
    LapsedKnown(l.active, clock);
    S.SweepIssued(l, l.active, clock);
    forall i | 0 <= i < |l.active|
      ensures l.active[i] in Sweep(l, clock).0.active <==> clock[i] <= l.active[i].createdAt + ttl
      ensures l.active[i].id in Sweep(l, clock).1 <==> clock[i] > l.active[i].createdAt + ttl
    {
      SurvivorAt(l.active, clock, i);
      assert l.active[i] in l.active;
    }
    SweepKeepsStates(l, clock);
  }

  lemma SweepKeepsStates(l: Ledger, clock: seq<real>)
    requires Inv(l) && |clock| == |l.active|
    ensures var (l', ids) := Sweep(l, clock);
            && |l'.status| == |l.status|
            && (forall id :: 0 <= id < |l.status| ==> l'.status[id] == if id in ids then RolledBack else l.status[id])
            && (forall id :: id in ids ==> PendingAt(l, id))
  {
    SweepExact(l, clock);
    LapsedKnown(l.active, clock);
    SweepInv(l, l.active, clock);
    S.SweepIssued(l, l.active, clock);
    forall id | 0 <= id < |l.status|
      ensures Sweep(l, clock).0.status[id] == if id in Sweep(l, clock).1 then RolledBack else l.status[id]
      ensures id in Sweep(l, clock).1 ==> PendingAt(l, id)
    {
      S.SweepStates(l, l.active, clock, id);
    }
    forall id | id in Sweep(l, clock).1 ensures PendingAt(l, id) {
      assert Has(l.active, id);
    }
  }
}
