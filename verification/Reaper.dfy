/**
 The reaper's sweep under a moving clock, and how soon it recovers an orphan.
 */
module Reaping {
  import opened Amounts
  import opened Ledgers
  import opened LedgerInvariant
  import opened Settlement

  /** The reservations found expired when the pass reached them. */
  function Lapsed(rs: seq<Reservation>, clock: seq<real>): seq<Reservation>
    requires |clock| == |rs|
  {
    if rs == [] then []
    else if Expired(rs[0], clock[0]) then [rs[0]] + Lapsed(rs[1..], clock[1..])
    else Lapsed(rs[1..], clock[1..])
  }

  /** Those found still within their time to live. */
  function Survivors(rs: seq<Reservation>, clock: seq<real>): seq<Reservation>
    requires |clock| == |rs|
  {
    if rs == [] then []
    else if Expired(rs[0], clock[0]) then Survivors(rs[1..], clock[1..])
    else [rs[0]] + Survivors(rs[1..], clock[1..])
  }

  function Ids(rs: seq<Reservation>): seq<nat> {
    if rs == [] then [] else [rs[0].id] + Ids(rs[1..])
  }

  predicate NonDecreasing(clock: seq<real>) {
    forall i, j :: 0 <= i < j < |clock| ==> clock[i] <= clock[j]
  }

  lemma {:induction false} WithoutPrefix(kept: seq<Reservation>, r: Reservation, rest: seq<Reservation>)
    requires forall k :: k in kept ==> k.id != r.id
    ensures Without(kept + [r] + rest, r.id) == kept + rest
  {
    if kept == [] {
      assert kept + [r] + rest == [r] + rest;
      assert ([r] + rest)[1..] == rest;
    } else {
      assert (kept + [r] + rest)[1..] == kept[1..] + [r] + rest;
      WithoutPrefix(kept[1..], r, rest);
    }
  }

  lemma ReleaseBetween(l: Ledger, kept: seq<Reservation>, r: Reservation, rest: seq<Reservation>)
    requires Inv(l) && l.active == kept + [r] + rest
    ensures Inv(Release(l, r))
    ensures Release(l, r).active == kept + rest
    ensures Release(l, r).reserved == Subtract(l.reserved, r.amount)
  {
    assert l.active[|kept|] == r;
    forall k | k in kept ensures k.id != r.id {
      var i :| 0 <= i < |kept| && kept[i] == k;
      assert l.active[i] == k;
    }
    WithoutPrefix(kept, r, rest);
    ReleaseInv(l, r);
    RestIsHeld(l, r.id);
  }

  lemma {:induction false} SweepReports(l: Ledger, todo: seq<Reservation>, clock: seq<real>)
    requires |clock| == |todo|
    ensures SweepOver(l, todo, clock).1 == Ids(Lapsed(todo, clock))
    decreases |todo|
  {
    if todo != [] {
      if Expired(todo[0], clock[0]) {
        SweepReports(Release(l, todo[0]), todo[1..], clock[1..]);
        var lapsed := Lapsed(todo[1..], clock[1..]);
        assert ([todo[0]] + lapsed)[1..] == lapsed;
      } else {
        SweepReports(l, todo[1..], clock[1..]);
      }
    }
  }

  /** The pass in mid-flight: `kept` has been visited and kept, `todo` is still to come. */
  lemma {:induction false} SweepFrom(l: Ledger, kept: seq<Reservation>, todo: seq<Reservation>, clock: seq<real>)
    requires Inv(l) && |clock| == |todo| && l.active == kept + todo
    ensures var l' := SweepOver(l, todo, clock).0;
            && l'.active == kept + Survivors(todo, clock)
            && l'.reserved == Subtract(l.reserved, Held(Lapsed(todo, clock)))
    decreases |todo|
  {
    if todo != [] {
      var r, rest := todo[0], todo[1..];
      if Expired(r, clock[0]) {
        assert l.active == kept + [r] + rest;
        ReleaseBetween(l, kept, r, rest);
        SweepFrom(Release(l, r), kept, rest, clock[1..]);
        var lapsed := Lapsed(rest, clock[1..]);
        assert ([r] + lapsed)[1..] == lapsed;
      } else {
        assert l.active == (kept + [r]) + rest;
        SweepFrom(l, kept + [r], rest, clock[1..]);
        assert kept + [r] + Survivors(rest, clock[1..]) == kept + ([r] + Survivors(rest, clock[1..]));
      }
    }
  }

  lemma {:induction false} LapsedOrSurvives(rs: seq<Reservation>, clock: seq<real>)
    requires |clock| == |rs|
    ensures forall r :: r in rs ==> r in Lapsed(rs, clock) || r in Survivors(rs, clock)
    ensures forall r :: r in Survivors(rs, clock) ==> r in rs
  {
    if rs != [] { LapsedOrSurvives(rs[1..], clock[1..]); }
  }

  lemma {:induction false} SurvivorsUnexpired(rs: seq<Reservation>, clock: seq<real>, first: real)
    requires |clock| == |rs|
    requires forall i :: 0 <= i < |clock| ==> first <= clock[i]
    ensures forall r :: r in Survivors(rs, clock) ==> !Expired(r, first)
  {
    if rs != [] { SurvivorsUnexpired(rs[1..], clock[1..], first); }
  }

  lemma {:induction false} LapsedExpired(rs: seq<Reservation>, clock: seq<real>, last: real)
    requires |clock| == |rs|
    requires forall i :: 0 <= i < |clock| ==> clock[i] <= last
    ensures forall r :: r in Lapsed(rs, clock) ==> Expired(r, last)
  {
    if rs != [] { LapsedExpired(rs[1..], clock[1..], last); }
  }

  /** Everything expired at the first reading is gone, everything unexpired at the last is kept. */
  ghost predicate SweptBetween(before: seq<Reservation>, after: seq<Reservation>, clock: seq<real>) {
    clock == [] ||
    (forall r :: r in before ==>
        && (Expired(r, clock[0]) ==> r !in after)
        && (!Expired(r, clock[|clock| - 1]) ==> r in after))
  }

  lemma ClockBounds(rs: seq<Reservation>, clock: seq<real>)
    requires |clock| == |rs|
    ensures NonDecreasing(clock) ==> SweptBetween(rs, Survivors(rs, clock), clock)
  {
    if NonDecreasing(clock) && clock != [] {
      LapsedOrSurvives(rs, clock);
      SurvivorsUnexpired(rs, clock, clock[0]);
      LapsedExpired(rs, clock, clock[|clock| - 1]);
    }
  }

  /**
   Sweep under a moving clock.  The pass removes exactly the reservations that had expired
   when it read the clock for them, reports exactly their identifiers in insertion order,
   keeps the others in order and lowers both totals by exactly the removed sums.  With a
   clock that never runs backwards, everything expired at the first reading is removed and
   nothing unexpired at the last.
   */
  lemma SweepExact(l: Ledger, clock: seq<real>)
    requires Inv(l) && |clock| == |l.active|
    ensures var (l', ids) := Sweep(l, clock);
            var lapsed := Lapsed(l.active, clock);
            && l'.active == Survivors(l.active, clock)
            && ids == Ids(lapsed)
            && l'.reserved == Subtract(l.reserved, Held(lapsed))
            && (NonDecreasing(clock) ==> SweptBetween(l.active, l'.active, clock))
  {
    SweepFrom(l, [], l.active, clock);
    SweepReports(l, l.active, clock);
    ClockBounds(l.active, clock);
  }

  // ---------- recovery time ----------

  /** What happened since the last sweep, then an instantaneous sweep at time `at`. */
  datatype Round = Round(events: seq<Event>, at: real)

  function InstantSweep(l: Ledger, at: real): Event {
    SweepCall(seq(|l.active|, _ => at))
  }

  function Reap(l: Ledger, round: Round): Ledger {
    var before := Run(l, round.events);
    Apply(before, InstantSweep(before, round.at))
  }

  function ReapAll(l: Ledger, rounds: seq<Round>): Ledger
    decreases |rounds|
  {
    if rounds == [] then l else ReapAll(Reap(l, rounds[0]), rounds[1..])
  }

  lemma PendingIsActive(l: Ledger, id: nat)
    requires Inv(l) && id < |l.issued|
    ensures id < |l.status| && (Has(l.active, id) <==> l.status[id] == Pending)
  {}

  lemma StepIssued(l: Ledger, e: Event, id: nat)
    requires id < |l.issued|
    ensures id < |Apply(l, e).issued| && Apply(l, e).issued[id] == l.issued[id]
  {
    if e.SweepCall? && |e.clock| == |l.active| { SweepIssued(l, l.active, e.clock); }
  }

  lemma StepNotActive(l: Ledger, e: Event, id: nat)
    requires Inv(l) && id < |l.issued|
    ensures id < |Apply(l, e).issued| && Apply(l, e).issued[id] == l.issued[id]
    ensures Inv(Apply(l, e))
    ensures !Has(l.active, id) ==> !Has(Apply(l, e).active, id)
  {
    ApplyInv(l, e);
    StepIssued(l, e, id);
    if !Has(l.active, id) {
      assert !Has(Apply(l, e).active, id) by {
        PendingIsActive(l, id);
        StepStates(l, e, id);
        PendingIsActive(Apply(l, e), id);
      }
    }
  }

  lemma {:induction false} NotActiveStays(l: Ledger, es: seq<Event>, id: nat)
    requires Inv(l) && id < |l.issued|
    ensures Inv(Run(l, es)) && id < |Run(l, es).issued|
    ensures !Has(l.active, id) ==> !Has(Run(l, es).active, id)
    ensures Run(l, es).issued[id] == l.issued[id]
    decreases |es|
  {
    if es != [] {
      StepNotActive(l, es[0], id);
      NotActiveStays(Apply(l, es[0]), es[1..], id);
    }
  }

  lemma SweepRemovesExpired(l: Ledger, at: real, id: nat)
    requires Inv(l) && id < |l.issued| && Expired(l.issued[id], at)
    ensures !Has(Apply(l, InstantSweep(l, at)).active, id)
  {
    var clock := seq(|l.active|, _ => at);
    SweepExact(l, clock);
    LapsedOrSurvives(l.active, clock);
    SurvivorsUnexpired(l.active, clock, at);
    HasMember(Survivors(l.active, clock), id);
  }

  lemma ReapRemoves(l: Ledger, round: Round, id: nat)
    requires Inv(l) && id < |l.issued|
    ensures Inv(Reap(l, round)) && id < |Reap(l, round).issued|
    ensures !Has(l.active, id) || Expired(l.issued[id], round.at) ==> !Has(Reap(l, round).active, id)
    ensures Reap(l, round).issued[id] == l.issued[id]
  {
    var before := Run(l, round.events);
    NotActiveStays(l, round.events, id);
    StepNotActive(before, InstantSweep(before, round.at), id);
    if Expired(before.issued[id], round.at) {
      SweepRemovesExpired(before, round.at, id);
    }
  }

  lemma {:induction false} GoneAfter(l: Ledger, rounds: seq<Round>, id: nat)
    requires Inv(l) && id < |l.issued|
    requires exists k :: 0 <= k < |rounds| && Expired(l.issued[id], rounds[k].at)
    ensures !Has(ReapAll(l, rounds).active, id)
    decreases |rounds|
  {
    ReapRemoves(l, rounds[0], id);
    if Expired(l.issued[id], rounds[0].at) {
      GoneStays(Reap(l, rounds[0]), rounds[1..], id);
    } else {
      var k :| 0 <= k < |rounds| && Expired(l.issued[id], rounds[k].at);
      assert rounds[1..][k - 1] == rounds[k];
      GoneAfter(Reap(l, rounds[0]), rounds[1..], id);
    }
  }

  lemma {:induction false} GoneStays(l: Ledger, rounds: seq<Round>, id: nat)
    requires Inv(l) && id < |l.issued| && !Has(l.active, id)
    ensures !Has(ReapAll(l, rounds).active, id)
    decreases |rounds|
  {
    if rounds != [] {
      ReapRemoves(l, rounds[0], id);
      GoneStays(Reap(l, rounds[0]), rounds[1..], id);
    }
  }

  /** Of ticks at most `interval` apart that start early and run late enough, one falls just after `due`. */
  lemma {:induction false} TickAfter(rounds: seq<Round>, due: real, interval: real) returns (k: nat)
    requires rounds != [] && rounds[0].at <= due + interval && rounds[|rounds| - 1].at > due
    requires forall i :: 0 < i < |rounds| ==> rounds[i].at <= rounds[i - 1].at + interval
    ensures k < |rounds| && due < rounds[k].at <= due + interval
  {
    if rounds[0].at > due {
      k := 0;
    } else {
      assert |rounds| > 1;
      forall i | 0 < i < |rounds[1..]| ensures rounds[1..][i].at <= rounds[1..][i - 1].at + interval {
        assert rounds[1..][i] == rounds[i + 1] && rounds[1..][i - 1] == rounds[i];
      }
      assert rounds[1] == rounds[1..][0];
      var j := TickAfter(rounds[1..], due, interval);
      k := j + 1;
    }
  }

  /**
   With instantaneous sweeps at most `interval` apart, whatever handlers do between them, an
   active reservation is gone after some sweep no later than created_at + ttl + interval, and
   stays gone.
   */
  lemma OrphanRecoveredInTime(l: Ledger, rounds: seq<Round>, id: nat, interval: real)
    requires Inv(l) && id < |l.issued|
    requires var due := l.issued[id].createdAt + l.issued[id].ttl;
             rounds != [] && rounds[0].at <= due + interval && rounds[|rounds| - 1].at > due
    requires forall i :: 0 < i < |rounds| ==> rounds[i].at <= rounds[i - 1].at + interval
    ensures exists k ::
              && 0 <= k < |rounds|
              && rounds[k].at <= l.issued[id].createdAt + l.issued[id].ttl + interval
              && (forall n :: k < n <= |rounds| ==> !Has(ReapAll(l, rounds[..n]).active, id))
  {
    var due := l.issued[id].createdAt + l.issued[id].ttl;
    var k := TickAfter(rounds, due, interval);
    forall n | k < n <= |rounds| ensures !Has(ReapAll(l, rounds[..n]).active, id) {
      assert Expired(l.issued[id], rounds[..n][k].at);
      GoneAfter(l, rounds[..n], id);
    }
  }
}
