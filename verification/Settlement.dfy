/**
 Exactly-once settlement.  Handlers and the reaper race to settle a reservation;
 replies are counted, not states, so the two views check each other.
 */
module Settlement {
  import opened Amounts
  import opened Ledgers
  import opened LedgerInvariant

  /** The event reports to its caller that it settled reservation `id`. */
  predicate Settles(l: Ledger, e: Event, id: nat) {
    match e
    case ReserveCall(_, _) => false
    case CommitCall(i, actual) => i == id && Commit(l, i, actual).1 != CommitNotActive
    case RollbackCall(i) => i == id && Rollback(l, i).1 == Returned
    case SweepCall(clock) => |clock| == |l.active| && id in Sweep(l, clock).1
  }

  function Settlements(l: Ledger, es: seq<Event>, id: nat): nat
    decreases |es|
  {
    if es == [] then 0
    else (if Settles(l, es[0], id) then 1 else 0) + Settlements(Apply(l, es[0]), es[1..], id)
  }

  /** A pass settles exactly those of its reservations that it reports, and touches no other state. */
  lemma {:induction false} SweepStates(l: Ledger, todo: seq<Reservation>, clock: seq<real>, id: nat)
    requires Inv(l) && |clock| == |todo| && Ordered(todo) && id < |l.status|
    requires forall r :: r in todo ==> r in l.active
    ensures var (l', ids) := SweepOver(l, todo, clock);
            && |l'.status| == |l.status|
            && l'.status[id] == (if id in ids then RolledBack else l.status[id])
            && (id in ids ==> l.status[id] == Pending && Has(todo, id))
    decreases |todo|
  {
    if todo != [] {
      if Expired(todo[0], clock[0]) {
        ReleaseHead(l, todo);
        SweepStates(Release(l, todo[0]), todo[1..], clock[1..], id);
        assert todo[0].id == id ==> !Has(todo[1..], id);
      } else {
        SweepStates(l, todo[1..], clock[1..], id);
      }
      assert Has(todo[1..], id) ==> Has(todo, id);
    }
  }

  lemma CommitStates(l: Ledger, i: nat, actual: Amount)
    requires Registered(l) && Classified(l) && Has(l.active, i)
    ensures i < |l.status| && l.status[i] == Pending
    ensures var status := Commit(l, i, actual).0.status;
            status == l.status[i := Committed] || status == l.status[i := RolledBack]
    ensures Rollback(l, i).0.status == l.status[i := RolledBack]
  {
    var r := Lookup(l.active, i);
    RetireActive(l, r, Committed, ZERO);
    var status := Commit(l, i, actual).0.status;
    assert status == l.status[i := Committed] || status == l.status[i := RolledBack];
  }

  lemma StepStates(l: Ledger, e: Event, id: nat)
    requires Inv(l) && id < |l.status|
    ensures var l' := Apply(l, e);
            && id < |l'.status|
            && (if Settles(l, e, id) then l.status[id] == Pending && l'.status[id] != Pending
                else l'.status[id] == l.status[id])
  {
    match e
    case ReserveCall(want, now) =>
    case CommitCall(i, actual) =>
      if Has(l.active, i) { CommitStates(l, i, actual); }
    case RollbackCall(i) =>
      if Has(l.active, i) { CommitStates(l, i, ZERO); }
    case SweepCall(clock) =>
      if |clock| == |l.active| { SweepStates(l, l.active, clock, id); }
  }

  lemma {:induction false} SweepIssued(l: Ledger, todo: seq<Reservation>, clock: seq<real>)
    requires |clock| == |todo|
    ensures var l' := SweepOver(l, todo, clock).0;
            l'.issued == l.issued && l'.commits == l.commits && l'.spent == l.spent
            && l'.cap == l.cap && l'.ttl == l.ttl
    decreases |todo|
  {
    if todo != [] {
      SweepIssued(if Expired(todo[0], clock[0]) then Release(l, todo[0]) else l, todo[1..], clock[1..]);
    }
  }

  /**
   In any order of commits, rollbacks and sweeps, a pending reservation is settled by at
   most one of them, by exactly one if it ends settled, and a settled one by none, its
   state then being final.
   */
  lemma {:induction false} ExactlyOnce(l: Ledger, es: seq<Event>, id: nat)
    requires Inv(l) && id < |l.issued|
    ensures id < |Run(l, es).status|
    ensures var final := Run(l, es).status[id];
            if l.status[id] == Pending then Settlements(l, es, id) == (if final == Pending then 0 else 1)
            else Settlements(l, es, id) == 0 && final == l.status[id]
    decreases |es|
  {
    if es != [] {
      StepStates(l, es[0], id);
      ApplyInv(l, es[0]);
      ExactlyOnce(Apply(l, es[0]), es[1..], id);
    }
  }

  /** Once settled, every later attempt is refused (or skipped by the sweep) and changes nothing. */
  lemma LateAttemptsChangeNothing(l: Ledger, es: seq<Event>, id: nat, actual: Amount, clock: seq<real>)
    requires Inv(l) && id < |l.issued| && l.status[id] != Pending
    ensures var l' := Run(l, es);
            && Commit(l', id, actual) == (l', CommitNotActive)
            && Rollback(l', id) == (l', RollbackNotActive)
            && (|clock| == |l'.active| ==> id !in Sweep(l', clock).1)
  {
    ExactlyOnce(l, es, id);
    RunInv(l, es);
    var l' := Run(l, es);
    if |clock| == |l'.active| {
      SweepStates(l', l'.active, clock, id);
    }
  }
}
