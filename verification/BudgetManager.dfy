/**
 The budget manager as the program keeps it: an object whose methods update its totals, its
 dictionary of active reservations and the state of each reservation object in place.  Every
 method is one critical section and is proved against its counterpart in Ledger.dfy.
 */
module BudgetManagers {
  import opened Amounts
  import opened LedgerInvariant
  import L = Ledgers

  class Reservation {
    const info: L.Reservation
    var state: L.Status

    constructor (info: L.Reservation)
      ensures this.info == info && state == L.Pending
    {
      this.info := info;
      state := L.Pending;
    }

    method IsExpired(now: real) returns (expired: bool)
      ensures expired == L.Expired(info, now)
    {
      expired := now - info.createdAt > info.ttl;
    }
  }

  datatype BudgetSnapshot = BudgetSnapshot(
    cumulativeCost: real,
    reserved: real,
    remaining: real,
    cumulativeLatencyMs: real,
    reservedLatencyMs: real)

  function Infos(rs: seq<Reservation>): (infos: seq<L.Reservation>)
    ensures |infos| == |rs| && forall i :: 0 <= i < |rs| ==> infos[i] == rs[i].info
  {
    seq(|rs|, i requires 0 <= i < |rs| => rs[i].info)
  }

  ghost function States(rs: seq<Reservation>): (states: seq<L.Status>)
    reads rs
    ensures |states| == |rs| && forall i :: 0 <= i < |rs| ==> states[i] == rs[i].state
  {
    seq(|rs|, i requires 0 <= i < |rs| reads rs => rs[i].state)
  }

  /** Where the dictionary keeps the reservation. */
  function IndexOf(rs: seq<Reservation>, id: nat): (i: nat)
    requires Contains(rs, id)
    ensures i < |rs| && rs[i].info.id == id
    ensures forall k :: 0 <= k < i ==> rs[k].info.id != id
  {
    if rs[0].info.id == id then 0 else 1 + IndexOf(rs[1..], id)
  }

  lemma {:induction false} WithoutAt(rs: seq<L.Reservation>, i: nat)
    requires i < |rs| && forall k :: 0 <= k < i ==> rs[k].id != rs[i].id
    ensures L.Has(rs, rs[i].id) && L.Lookup(rs, rs[i].id) == rs[i]
    ensures L.Without(rs, rs[i].id) == rs[..i] + rs[i + 1..]
  {
    if i > 0 {
      WithoutAt(rs[1..], i - 1);
      assert rs[..i] + rs[i + 1..] == [rs[0]] + (rs[1..][..i - 1] + rs[1..][i..]);
    }
  }

  ghost predicate InOrder(rs: seq<Reservation>) {
    forall i, j :: 0 <= i < j < |rs| ==> rs[i].info.id < rs[j].info.id
  }

  lemma LookupAt(rs: seq<Reservation>, i: nat)
    requires i < |rs| && InOrder(rs)
    ensures L.Has(Infos(rs), rs[i].info.id) && L.Lookup(Infos(rs), rs[i].info.id) == rs[i].info
  {
    WithoutAt(Infos(rs), i);
  }

  lemma RemoveInOrder(rs: seq<Reservation>, i: nat, rest: seq<Reservation>)
    requires i < |rs| && InOrder(rs) && rest == rs[..i] + rs[i + 1..]
    ensures InOrder(rest)
  {
    forall a, b | 0 <= a < b < |rest| ensures rest[a].info.id < rest[b].info.id {
      var a', b' := if a < i then a else a + 1, if b < i then b else b + 1;
      assert rest[a] == rs[a'] && rest[b] == rs[b'];
    }
  }

  lemma RemoveMember(rs: seq<Reservation>, i: nat, rest: seq<Reservation>, q: Reservation)
    requires i < |rs| && InOrder(rs) && rest == rs[..i] + rs[i + 1..]
    ensures q in rest <==> q in rs && q != rs[i]
  {
    if q in rest {
      var a :| 0 <= a < |rest| && rest[a] == q;
      assert q == rs[if a < i then a else a + 1];
    }
    if q in rs && q != rs[i] {
      var a :| 0 <= a < |rs| && rs[a] == q;
      assert q == rest[if a < i then a else a - 1];
    }
  }

  lemma RemoveAt(rs: seq<Reservation>, i: nat, rest: seq<Reservation>)
    requires i < |rs| && InOrder(rs) && rest == rs[..i] + rs[i + 1..]
    ensures Infos(rest) == L.Without(Infos(rs), rs[i].info.id)
    ensures InOrder(rest)
    ensures forall q :: q in rest <==> q in rs && q != rs[i]
  {
    WithoutAt(Infos(rs), i);
    RemoveInOrder(rs, i, rest);
    assert Infos(rest) == Infos(rs)[..i] + Infos(rs)[i + 1..];
    forall q ensures q in rest <==> q in rs && q != rs[i] {
      RemoveMember(rs, i, rest, q);
    }
  }

  /** Membership of the dictionary, on objects and on their values. */
  predicate Contains(rs: seq<Reservation>, id: nat) {
    exists k :: 0 <= k < |rs| && rs[k].info.id == id
  }

  lemma ContainsHas(rs: seq<Reservation>, id: nat)
    ensures Contains(rs, id) <==> L.Has(Infos(rs), id)
  {
    if L.Has(Infos(rs), id) {
      var k :| 0 <= k < |rs| && Infos(rs)[k].id == id;
      assert rs[k].info.id == id;
    }
    if Contains(rs, id) {
      var k :| 0 <= k < |rs| && rs[k].info.id == id;
      assert Infos(rs)[k].id == id;
    }
  }

  /** What the reaper's loop still has to do from position `i` on. */
  ghost function Remaining(l: L.Ledger, items: seq<Reservation>, i: nat, clock: seq<real>): (L.Ledger, seq<nat>)
    requires i <= |items| == |clock|
  {
    L.SweepOver(l, Infos(items[i..]), clock[i..])
  }

  ghost function Prepend(ids: seq<nat>, rest: (L.Ledger, seq<nat>)): (L.Ledger, seq<nat>) {
    (rest.0, ids + rest.1)
  }

  lemma RemainingEnds(l: L.Ledger, items: seq<Reservation>, clock: seq<real>, done: seq<nat>)
    requires |items| == |clock|
    ensures Prepend([], Remaining(l, items, 0, clock)) == L.SweepOver(l, Infos(items), clock)
    ensures Prepend(done, Remaining(l, items, |items|, clock)) == (l, done)
  {
    assert items[0..] == items && clock[0..] == clock;
    var ids := L.SweepOver(l, Infos(items), clock).1;
    assert [] + ids == ids;
    assert done + [] == done;
  }

  lemma RemainingStep(l: L.Ledger, items: seq<Reservation>, i: nat, clock: seq<real>, done: seq<nat>)
    requires i < |items| == |clock|
    ensures var r := items[i].info;
            Prepend(done, Remaining(l, items, i, clock))
            == if L.Expired(r, clock[i]) then
                 Prepend(done + [r.id], Remaining(L.Release(l, r), items, i + 1, clock))
               else Prepend(done, Remaining(l, items, i + 1, clock))
  {
    var r := items[i].info;
    assert Infos(items[i..])[1..] == Infos(items[i + 1..]);
    assert clock[i..][1..] == clock[i + 1..];
    var ids := Remaining(L.Release(l, r), items, i + 1, clock).1;
    assert done + ([r.id] + ids) == done + [r.id] + ids;
  }

  class BudgetManager {
    const maxRemoteBudget: real
    const maxCumulativeLatencyMs: real
    const reservationTtlSeconds: real

    var cumulativeRemoteCost: real
    var reservedForExecution: real
    var cumulativeActualLatencyMs: real
    var reservedLatencyMs: real
    var activeReservations: seq<Reservation>
    var nextId: nat

    ghost var issued: seq<Reservation>
    ghost var commits: seq<L.Settlement>

    ghost function Model(): L.Ledger
      reads this, issued
    {
      L.Ledger(Amount(maxRemoteBudget, maxCumulativeLatencyMs), reservationTtlSeconds,
               Amount(cumulativeRemoteCost, cumulativeActualLatencyMs),
               Amount(reservedForExecution, reservedLatencyMs),
               Infos(activeReservations), Infos(issued), States(issued), commits)
    }

    /**
     The objects are linked up: each issued reservation stands under its own identifier, and the
     dictionary holds issued objects in the order they were issued.  Conservation of the totals is
     a consequence of the methods' contracts, proved about Model() in LedgerInvariant.dfy.
     */
    ghost predicate Valid()
      reads this
    {
      && nextId == |issued|
      && (forall i :: 0 <= i < |issued| ==> issued[i].info.id == i)
      && (forall r :: r in activeReservations ==> r.info.id < |issued| && r == issued[r.info.id])
      && InOrder(activeReservations)
    }

    constructor (maxRemoteBudget: real, maxCumulativeLatencyMs: real, reservationTtlSeconds: real)
      requires maxRemoteBudget > 0.0
      ensures Valid() && issued == []
      ensures Model() == L.Fresh(Amount(maxRemoteBudget, maxCumulativeLatencyMs), reservationTtlSeconds)
    {
      this.maxRemoteBudget := maxRemoteBudget;
      this.maxCumulativeLatencyMs := maxCumulativeLatencyMs;
      this.reservationTtlSeconds := reservationTtlSeconds;
      cumulativeRemoteCost, reservedForExecution := 0.0, 0.0;
      cumulativeActualLatencyMs, reservedLatencyMs := 0.0, 0.0;
      activeReservations, nextId := [], 0;
      issued, commits := [], [];
    }

    /** The constructor's ValueError, as a null result. */
    static method Create(maxRemoteBudget: real, maxCumulativeLatencyMs: real, ttl: real)
      returns (manager: BudgetManager?)
      ensures manager == null <==> maxRemoteBudget <= 0.0
      ensures manager != null ==>
                fresh(manager) && manager.Valid()
                && manager.Model() == L.Fresh(Amount(maxRemoteBudget, maxCumulativeLatencyMs), ttl)
    {
      if maxRemoteBudget <= 0.0 {
        return null;
      }
      manager := new BudgetManager(maxRemoteBudget, maxCumulativeLatencyMs, ttl);
    }

    method TryReserve(cost: real, projectedLatencyMs: real, now: real)
      returns (reply: L.ReserveReply, reservation: Reservation?)
      requires Valid()
      modifies this
      ensures Valid()
      ensures (Model(), reply) == L.TryReserve(old(Model()), Amount(cost, projectedLatencyMs), now)
      ensures reply.Granted? <==> reservation != null
      ensures reservation != null ==>
                fresh(reservation) && reservation.info == reply.reservation && reservation.state == L.Pending
      ensures issued == old(issued) + if reservation == null then [] else [reservation]
    {
      if cost < 0.0 || projectedLatencyMs < 0.0 || (cost == 0.0 && projectedLatencyMs == 0.0) {
        return L.InvalidArgument, null;
      }
      var liquid := maxRemoteBudget - cumulativeRemoteCost - reservedForExecution;
      var latencyRemaining := maxCumulativeLatencyMs - cumulativeActualLatencyMs - reservedLatencyMs;
      if liquid < cost - ADMIT_EPS || latencyRemaining < projectedLatencyMs - ADMIT_EPS {
        return L.Refused, null;
      }
      var r := Grant(Amount(cost, projectedLatencyMs), now);
      return L.Granted(r.info), r;
    }

    /** The success path of a reservation. */
    method Grant(want: Amount, now: real) returns (r: Reservation)
      requires Valid()
      modifies this
      ensures Valid() && fresh(r) && r.state == L.Pending
      ensures r.info == L.Reservation(|old(issued)|, want, now, reservationTtlSeconds)
      ensures Model() == L.Grant(old(Model()), want, now) && issued == old(issued) + [r]
    {
      r := new Reservation(L.Reservation(nextId, want, now, reservationTtlSeconds));
      reservedForExecution := reservedForExecution + want.cost;
      reservedLatencyMs := reservedLatencyMs + want.latency;
      activeReservations := activeReservations + [r];
      nextId := nextId + 1;
      issued := issued + [r];
      assert Infos(activeReservations) == old(Infos(activeReservations)) + [r.info];
      assert Infos(issued) == old(Infos(issued)) + [r.info];
      assert States(issued) == old(States(issued)) + [L.Pending];
    }

    /** Settles an active reservation: its state, the dictionary, and the new reserved totals. */
    method Retire(r: Reservation, state: L.Status, cost: real, latencyMs: real)
      requires Valid() && r in activeReservations
      modifies this`activeReservations, this`reservedForExecution, this`reservedLatencyMs, r
      ensures Valid() && r.state == state
      ensures Model() == L.Retire(old(Model()), r.info, state, Amount(cost, latencyMs))
      ensures forall q :: q in activeReservations <==> q in old(activeReservations) && q != r
    {
      var id := r.info.id;
      var i := IndexOf(activeReservations, id);
      var rest := activeReservations[..i] + activeReservations[i + 1..];
      RemoveAt(activeReservations, i, rest);
      assert activeReservations[i] == r == issued[id];
      activeReservations := rest;
      r.state := state;
      reservedForExecution, reservedLatencyMs := cost, latencyMs;
      assert States(issued) == old(States(issued))[id := state];
    }

    /** Takes back a reservation whose commit is refused; unlike Release, without clamping the totals. */
    method Refuse(r: Reservation)
      requires Valid() && r in activeReservations
      modifies this, r
      ensures Valid() && issued == old(issued)
      ensures Model() == L.Retire(old(Model()), r.info, L.RolledBack,
                                  Subtract(old(Model()).reserved, r.info.amount))
    {
      Retire(r, L.RolledBack, reservedForExecution - r.info.amount.cost, reservedLatencyMs - r.info.amount.latency);
    }

    /** The success path of a commit. */
    method Charge(r: Reservation, actualCost: real, actualLatencyMs: real)
      requires Valid() && r in activeReservations
      modifies this, r
      ensures Valid() && issued == old(issued)
      ensures var l, actual := old(Model()), Amount(actualCost, actualLatencyMs);
              Model() == L.Retire(l, r.info, L.Committed, Clamp(Subtract(l.reserved, r.info.amount)))
                         .(spent := Add(l.spent, actual), commits := l.commits + [L.Settlement(r.info.id, actual)])
    {
      Retire(r, L.Committed, Max(0.0, reservedForExecution - r.info.amount.cost),
             Max(0.0, reservedLatencyMs - r.info.amount.latency));
      ghost var retired := Model();
      cumulativeRemoteCost := cumulativeRemoteCost + actualCost;
      cumulativeActualLatencyMs := cumulativeActualLatencyMs + actualLatencyMs;
      commits := commits + [L.Settlement(r.info.id, Amount(actualCost, actualLatencyMs))];
      assert States(issued) == retired.status;
      assert Model() == retired.(spent := Add(retired.spent, Amount(actualCost, actualLatencyMs)), commits := commits);
    }

    method Commit(id: nat, actualCost: real, actualLatencyMs: real) returns (reply: L.CommitReply)
      requires Valid()
      modifies this, activeReservations
      ensures Valid() && issued == old(issued)
      ensures (Model(), reply) == L.Commit(old(Model()), id, Amount(actualCost, actualLatencyMs))
    {
      ContainsHas(activeReservations, id);
      if !Contains(activeReservations, id) {
        return L.CommitNotActive;
      }
      var i := IndexOf(activeReservations, id);
      var r := activeReservations[i];
      LookupAt(activeReservations, i);
      if actualCost > r.info.amount.cost + COMMIT_EPS {
        Refuse(r);
        return L.CostExceeded;
      }
      if cumulativeActualLatencyMs + actualLatencyMs > maxCumulativeLatencyMs + COMMIT_EPS {
        Refuse(r);
        return L.LatencyExceeded;
      }
      Charge(r, actualCost, actualLatencyMs);
      return L.Settled;
    }

    method Rollback(id: nat) returns (reply: L.RollbackReply)
      requires Valid()
      modifies this, activeReservations
      ensures Valid() && issued == old(issued)
      ensures (Model(), reply) == L.Rollback(old(Model()), id)
    {
      ContainsHas(activeReservations, id);
      if !Contains(activeReservations, id) {
        return L.RollbackNotActive;
      }
      var i := IndexOf(activeReservations, id);
      LookupAt(activeReservations, i);
      Release(activeReservations[i]);
      return L.Returned;
    }

    /** Rolls one active reservation back, as both the handler and the reaper do. */
    method Release(r: Reservation)
      requires Valid() && r in activeReservations
      modifies this, r
      ensures Valid() && issued == old(issued) && r.state == L.RolledBack
      ensures Model() == L.Release(old(Model()), r.info)
      ensures forall q :: q in activeReservations <==> q in old(activeReservations) && q != r
    {
      Retire(r, L.RolledBack, Max(0.0, reservedForExecution - r.info.amount.cost),
             Max(0.0, reservedLatencyMs - r.info.amount.latency));
    }

    /** The body of the reaper's loop: rolls back one reservation if it has expired. */
    method Visit(r: Reservation, now: real) returns (expired: bool)
      requires Valid() && r in activeReservations
      modifies this, r
      ensures Valid() && issued == old(issued)
      ensures expired == L.Expired(r.info, now)
      ensures Model() == if expired then L.Release(old(Model()), r.info) else old(Model())
      ensures forall q :: q in old(activeReservations) && q != r ==> q in activeReservations
    {
      expired := r.IsExpired(now);
      if expired {
        Release(r);
      }
    }

    /** One pass of the reaper; `clock[i]` is the reading taken for the i-th active reservation. */
    method ExpireStaleReservations(clock: seq<real>) returns (expiredIds: seq<nat>)
      requires Valid() && |clock| == |activeReservations|
      modifies this, activeReservations
      ensures Valid() && issued == old(issued)
      ensures (Model(), expiredIds) == L.Sweep(old(Model()), clock)
    {
      expiredIds := [];
      var items := activeReservations;
      ghost var outcome := L.Sweep(Model(), clock);
      RemainingEnds(Model(), items, clock, expiredIds);
      var i := 0;
      while i < |items|
        invariant 0 <= i <= |items|
        invariant Valid() && issued == old(issued)
        invariant forall k :: i <= k < |items| ==> items[k] in activeReservations
        invariant outcome == Prepend(expiredIds, Remaining(Model(), items, i, clock))
      {
        var r := items[i];
        RemainingStep(Model(), items, i, clock, expiredIds);
        assert forall k :: i < k < |items| ==> items[k] != r;
        var expired := Visit(r, clock[i]);
        if expired {
          expiredIds := expiredIds + [r.info.id];
        }
        i := i + 1;
      }
      RemainingEnds(Model(), items, clock, expiredIds);
    }

    /** The snapshot reports the true sums, by conservation. */
    method Snapshot() returns (s: BudgetSnapshot)
      requires Valid() && Inv(Model())
      ensures var l := Model();
              s == BudgetSnapshot(l.spent.cost, L.Held(l.active).cost, Max(0.0, L.Liquid(l).cost),
                                  l.spent.latency, L.Held(l.active).latency)
    {
      s := BudgetSnapshot(cumulativeRemoteCost, reservedForExecution,
                          Max(0.0, maxRemoteBudget - cumulativeRemoteCost - reservedForExecution),
                          cumulativeActualLatencyMs, reservedLatencyMs);
    }
  }
}
