/**
 Conservation: the invariant of the ledger and its preservation by every step.
 */
module LedgerInvariant {
  import opened Amounts
  import opened Ledgers

  function Spent(cs: seq<Settlement>): Amount {
    if cs == [] then ZERO else Add(Spent(cs[..|cs| - 1]), cs[|cs| - 1].actual)
  }

  function Count(status: seq<Status>, s: Status): nat {
    if status == [] then 0 else (if status[0] == s then 1 else 0) + Count(status[1..], s)
  }

  predicate CommittedIn(cs: seq<Settlement>, id: nat) {
    exists k :: 0 <= k < |cs| && cs[k].id == id
  }

  ghost predicate Ordered(rs: seq<Reservation>) {
    forall i, j :: 0 <= i < j < |rs| ==> rs[i].id < rs[j].id
  }

  /** The books list exactly what was issued, each entry under its own number. */
  ghost predicate Registered(l: Ledger) {
    && |l.status| == |l.issued|
    && (forall i :: 0 <= i < |l.issued| ==> l.issued[i].id == i && l.issued[i].amount.NonNegative())
    && (forall r :: r in l.active ==> r.id < |l.issued| && l.issued[r.id] == r)
    && Ordered(l.active)
  }

  /** Every issued reservation is in one of three places, and its state says which. */
  ghost predicate Classified(l: Ledger) {
    && |l.status| == |l.issued|
    && (forall i :: 0 <= i < |l.status| ==> (l.status[i] == Pending <==> Has(l.active, i)))
    && (forall i :: 0 <= i < |l.status| ==> (l.status[i] == Committed <==> CommittedIn(l.commits, i)))
    && (forall c :: c in l.commits ==> c.id < |l.status|)
    && (forall i, j :: 0 <= i < j < |l.commits| ==> l.commits[i].id != l.commits[j].id)
    && Count(l.status, Pending) == |l.active|
    && Count(l.status, Committed) == |l.commits|
  }

  ghost predicate Balanced(l: Ledger) {
    l.reserved == Held(l.active) && l.spent == Spent(l.commits)
  }

  ghost predicate Inv(l: Ledger) {
    Registered(l) && Classified(l) && Balanced(l)
  }

  // ---------- sums and removals ----------

  lemma {:induction false} HeldAppend(rs: seq<Reservation>, r: Reservation)
    ensures Held(rs + [r]) == Add(Held(rs), r.amount)
  {
    if rs == [] {
      assert rs + [r] == [r];
    } else {
      assert (rs + [r])[1..] == rs[1..] + [r];
      HeldAppend(rs[1..], r);
    }
  }

  lemma {:induction false} HeldWithout(rs: seq<Reservation>, id: nat)
    requires Has(rs, id)
    ensures Held(rs) == Add(Held(Without(rs, id)), Lookup(rs, id).amount)
    ensures |Without(rs, id)| == |rs| - 1
  {
    if rs[0].id != id {
      assert Has(rs[1..], id);
      HeldWithout(rs[1..], id);
      var rest := Without(rs[1..], id);
      assert ([rs[0]] + rest)[1..] == rest;
    }
  }

  lemma {:induction false} HeldNonNegative(rs: seq<Reservation>)
    requires forall r :: r in rs ==> r.amount.NonNegative()
    ensures Held(rs).NonNegative()
    ensures forall r :: r in rs ==> r.amount.AtMost(Held(rs))
  {
    if rs != [] {
      HeldNonNegative(rs[1..]);
    }
  }

  lemma {:induction false} WithoutMember(rs: seq<Reservation>, id: nat, r: Reservation)
    requires Ordered(rs)
    ensures r in Without(rs, id) <==> r in rs && r.id != id
  {
    if rs != [] {
      var head, tail := rs[0], rs[1..];
      assert r in rs <==> r == head || r in tail;
      if head.id != id {
        WithoutMember(tail, id, r);
      } else if r in tail {
        var i :| 0 <= i < |tail| && tail[i] == r;
        assert rs[0].id < rs[i + 1].id;
      }
    }
  }

  lemma {:induction false} WithoutOrdered(rs: seq<Reservation>, id: nat)
    requires Ordered(rs)
    ensures Ordered(Without(rs, id))
  {
    if rs != [] && rs[0].id != id {
      var tail := rs[1..];
      WithoutOrdered(tail, id);
      var rest := Without(tail, id);
      forall i | 0 <= i < |rest| ensures rs[0].id < rest[i].id {
        WithoutMember(tail, id, rest[i]);
        var j :| 0 <= j < |tail| && tail[j] == rest[i];
        assert rs[0].id < rs[j + 1].id;
      }
    }
  }

  lemma WithoutMembers(rs: seq<Reservation>, id: nat)
    requires Ordered(rs)
    ensures Ordered(Without(rs, id))
    ensures forall r :: r in Without(rs, id) <==> r in rs && r.id != id
  {
    WithoutOrdered(rs, id);
    forall r ensures r in Without(rs, id) <==> r in rs && r.id != id {
      WithoutMember(rs, id, r);
    }
  }

  lemma HasMember(rs: seq<Reservation>, id: nat)
    ensures Has(rs, id) <==> exists r :: r in rs && r.id == id
  {
    if r :| r in rs && r.id == id {
      var i :| 0 <= i < |rs| && rs[i] == r;
    }
  }

  lemma {:induction false} CountUpdate(status: seq<Status>, id: nat, s: Status, t: Status)
    requires id < |status|
    ensures Count(status[id := s], t)
         == Count(status, t) - (if status[id] == t then 1 else 0) + (if s == t then 1 else 0)
  {
    if id > 0 {
      assert status[id := s][1..] == status[1..][id - 1 := s];
      CountUpdate(status[1..], id - 1, s, t);
    } else {
      assert status[id := s][1..] == status[1..];
    }
  }

  lemma {:induction false} CountAppend(status: seq<Status>, s: Status, t: Status)
    ensures Count(status + [s], t) == Count(status, t) + (if s == t then 1 else 0)
  {
    if status != [] {
      assert (status + [s])[1..] == status[1..] + [s];
      CountAppend(status[1..], s, t);
    }
  }

  lemma {:induction false} CountsAddUp(status: seq<Status>)
    ensures Count(status, Pending) + Count(status, Committed) + Count(status, RolledBack) == |status|
  {
    if status != [] {
      CountsAddUp(status[1..]);
    }
  }

  // ---------- preservation ----------

  lemma FreshInv(cap: Amount, ttl: real)
    ensures Inv(Fresh(cap, ttl))
  {}

  lemma GrantClassified(l: Ledger, want: Amount, now: real)
    requires Registered(l) && Classified(l)
    ensures Classified(Grant(l, want, now))
  {
    var l' := Grant(l, want, now);
    CountAppend(l.status, Pending, Pending);
    CountAppend(l.status, Pending, Committed);
    forall i | 0 <= i < |l'.status|
      ensures l'.status[i] == Pending <==> Has(l'.active, i)
    {
      HasMember(l.active, i);
      HasMember(l'.active, i);
    }
  }

  lemma GrantInv(l: Ledger, want: Amount, now: real)
    requires Inv(l) && want.NonNegative()
    ensures Inv(Grant(l, want, now))
  {
    HeldAppend(l.active, Reservation(|l.issued|, want, now, l.ttl));
    GrantClassified(l, want, now);
    assert Registered(Grant(l, want, now));
  }

  /** Clamping a settled total never matters: what is left is a sum of non-negative amounts. */
  lemma RestIsHeld(l: Ledger, id: nat)
    requires Inv(l) && Has(l.active, id)
    ensures var rest := Subtract(l.reserved, Lookup(l.active, id).amount);
            rest == Held(Without(l.active, id)) && Clamp(rest) == rest
    ensures Lookup(l.active, id) == l.issued[id]
  {
    HeldWithout(l.active, id);
    WithoutMembers(l.active, id);
    HeldNonNegative(Without(l.active, id));
  }

  lemma RetireRegistered(l: Ledger, r: Reservation, s: Status, reserved: Amount)
    requires Registered(l) && r in l.active
    ensures Registered(Retire(l, r, s, reserved))
  {
    WithoutMembers(l.active, r.id);
  }

  lemma RetireClassified(l: Ledger, r: Reservation, reserved: Amount)
    requires Registered(l) && Classified(l) && r in l.active
    ensures Classified(Retire(l, r, RolledBack, reserved))
  {
    RetireActive(l, r, RolledBack, reserved);
    CountUpdate(l.status, r.id, RolledBack, Pending);
    CountUpdate(l.status, r.id, RolledBack, Committed);
  }

  lemma RetireActive(l: Ledger, r: Reservation, s: Status, reserved: Amount)
    requires Registered(l) && Classified(l) && r in l.active && s != Pending
    ensures l.status[r.id] == Pending
    ensures var l' := Retire(l, r, s, reserved);
            && |l'.active| == |l.active| - 1
            && forall i :: 0 <= i < |l'.status| ==> (l'.status[i] == Pending <==> Has(l'.active, i))
  {
    HasMember(l.active, r.id);
    HeldWithout(l.active, r.id);
    WithoutMembers(l.active, r.id);
    forall i | 0 <= i < |l.status|
      ensures Retire(l, r, s, reserved).status[i] == Pending <==> Has(Without(l.active, r.id), i)
    {
      HasMember(l.active, i);
      HasMember(Without(l.active, r.id), i);
    }
  }

  lemma ReleaseInv(l: Ledger, r: Reservation)
    requires Inv(l) && r in l.active
    ensures Inv(Release(l, r))
    ensures Has(l.active, r.id) && Lookup(l.active, r.id) == r
  {
    HasMember(l.active, r.id);
    RestIsHeld(l, r.id);
    RetireRegistered(l, r, RolledBack, Held(Without(l.active, r.id)));
    RetireClassified(l, r, Held(Without(l.active, r.id)));
  }

  lemma CommitClassified(l: Ledger, r: Reservation, reserved: Amount, actual: Amount)
    requires Registered(l) && Classified(l) && r in l.active
    ensures Classified(Retire(l, r, Committed, reserved).(commits := l.commits + [Settlement(r.id, actual)]))
  {
    RetireActive(l, r, Committed, reserved);
    CountUpdate(l.status, r.id, Committed, Pending);
    CountUpdate(l.status, r.id, Committed, Committed);
    var cs := l.commits + [Settlement(r.id, actual)];
    assert !CommittedIn(l.commits, r.id);
    forall i | 0 <= i < |l.status|
      ensures CommittedIn(cs, i) <==> CommittedIn(l.commits, i) || i == r.id
    {
      if CommittedIn(l.commits, i) {
        var k :| 0 <= k < |l.commits| && l.commits[k].id == i;
        assert cs[k].id == i;
      }
      assert cs[|l.commits|].id == r.id;
    }
  }

  lemma CommitInv(l: Ledger, id: nat, actual: Amount)
    requires Inv(l)
    ensures Inv(Commit(l, id, actual).0)
  {
    if Has(l.active, id) {
      var r := Lookup(l.active, id);
      var rest := Subtract(l.reserved, r.amount);
      RestIsHeld(l, id);
      if Commit(l, id, actual).1 == Settled {
        RetireRegistered(l, r, Committed, rest);
        CommitClassified(l, r, rest, actual);
        var cs := l.commits + [Settlement(id, actual)];
        assert cs[..|cs| - 1] == l.commits;
      } else {
        ReleaseInv(l, r);
      }
    }
  }

  /** One step of the sweep: the rest of its list stays active. */
  lemma ReleaseHead(l: Ledger, todo: seq<Reservation>)
    requires Inv(l) && todo != [] && Ordered(todo)
    requires forall r :: r in todo ==> r in l.active
    ensures Inv(Release(l, todo[0])) && Ordered(todo[1..])
    ensures forall r :: r in todo[1..] ==> r in Release(l, todo[0]).active
    ensures var id := todo[0].id;
            id < |l.status| && l.status[id] == Pending && Release(l, todo[0]).status == l.status[id := RolledBack]
  {
    ReleaseInv(l, todo[0]);
    WithoutMembers(l.active, todo[0].id);
    RetireActive(l, todo[0], RolledBack, ZERO);
  }

  lemma {:induction false} SweepInv(l: Ledger, todo: seq<Reservation>, clock: seq<real>)
    requires Inv(l) && |clock| == |todo| && Ordered(todo)
    requires forall r :: r in todo ==> r in l.active
    ensures Inv(SweepOver(l, todo, clock).0)
    decreases |todo|
  {
    if todo != [] {
      if Expired(todo[0], clock[0]) {
        ReleaseHead(l, todo);
        SweepInv(Release(l, todo[0]), todo[1..], clock[1..]);
      } else {
        SweepInv(l, todo[1..], clock[1..]);
      }
    }
  }

  lemma ApplyInv(l: Ledger, e: Event)
    requires Inv(l)
    ensures Inv(Apply(l, e))
  {
    match e
    case ReserveCall(want, now) =>
      if want.NonNegative() { GrantInv(l, want, now); }
    case CommitCall(id, actual) =>
      CommitInv(l, id, actual);
    case RollbackCall(id) =>
      if Has(l.active, id) { ReleaseInv(l, Lookup(l.active, id)); }
    case SweepCall(clock) =>
      if |clock| == |l.active| { SweepInv(l, l.active, clock); }
  }

  lemma {:induction false} RunInv(l: Ledger, es: seq<Event>)
    requires Inv(l)
    ensures Inv(Run(l, es))
    decreases |es|
  {
    if es != [] {
      ApplyInv(l, es[0]);
      RunInv(Apply(l, es[0]), es[1..]);
    }
  }

  /**
   Conservation over every run.  Both reserved totals are the sums over the active
   reservations, both spent totals the sums of what was actually committed, and the
   issued reservations split exactly into active, committed and rolled back ones.
   */
  lemma Conservation(cap: Amount, ttl: real, es: seq<Event>)
    ensures var l := Run(Fresh(cap, ttl), es);
            && l.reserved == Held(l.active)
            && l.spent == Spent(l.commits)
            && |l.status| == |l.issued|
            && (forall i :: 0 <= i < |l.issued| ==>
                  (Has(l.active, i) <==> l.status[i] == Pending)
                  && (CommittedIn(l.commits, i) <==> l.status[i] == Committed))
            && |l.issued| == |l.active| + |l.commits| + Count(l.status, RolledBack)
  {
    FreshInv(cap, ttl);
    RunInv(Fresh(cap, ttl), es);
    CountsAddUp(Run(Fresh(cap, ttl), es).status);
  }

  /**
   The four settlement paths agree: whichever of commit, failed commit, rollback and
   sweep retires an active reservation, clamped or not, the reserved totals drop by
   exactly its amounts and the same reservations remain.
   */
  lemma SettlementPathsAgree(l: Ledger, id: nat, actual: Amount)
    requires Inv(l) && Has(l.active, id)
    ensures var r := Lookup(l.active, id);
            && Commit(l, id, actual).0.reserved == Subtract(l.reserved, r.amount)
            && Rollback(l, id).0.reserved == Subtract(l.reserved, r.amount)
            && Release(l, r).reserved == Subtract(l.reserved, r.amount)
            && Commit(l, id, actual).0.active == Rollback(l, id).0.active == Release(l, r).active
    ensures Commit(l, id, actual).1 != CommitNotActive
    ensures Commit(l, id, actual).1 != Settled ==> Commit(l, id, actual).0 == Rollback(l, id).0
  {
    RestIsHeld(l, id);
  }
}
