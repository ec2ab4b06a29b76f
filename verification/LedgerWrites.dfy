/**
 The ledger's critical sections write by write: what a section decides when it has tested the
 ledger, and the single assignments it then makes.  Other tasks may run between two of them.
 */
module LedgerWrites {
  import opened Amounts
  import opened Ledgers

  /** One assignment of a critical section. */
  datatype Write =
    | ReserveCost(cost: real)
    | ReserveLatency(latency: real)
    | Enter(want: Amount)
    | SetState(id: nat, state: Status)
    | Pop(id: nat)
    | FreeCost(cost: real, clamped: bool)
    | FreeLatency(latency: real, clamped: bool)
    | SpendCost(cost: real)
    | SpendLatency(id: nat, actual: Amount)

  /** What the section's tests have found; the reply follows from it when the last write is made. */
  datatype Verdict =
    | Admitted(want: Amount)
    | Denied
    | CommitEnds(commit: CommitReply)
    | RollbackEnds(rollback: RollbackReply)

  datatype Reply =
    | ToReserve(reserve: ReserveReply)
    | ToCommit(commit: CommitReply)
    | ToRollback(rollback: RollbackReply)

  function Floor(x: real, clamped: bool): real {
    if clamped then Max(0.0, x) else x
  }

  /** The reservation object is created, and its creation time read, when it enters the dictionary. */
  function Exec(l: Ledger, w: Write, now: real): Ledger {
    match w
    case ReserveCost(cost) => l.(reserved := l.reserved.(cost := l.reserved.cost + cost))
    case ReserveLatency(latency) => l.(reserved := l.reserved.(latency := l.reserved.latency + latency))
    case Enter(want) =>
      var r := Reservation(|l.issued|, want, now, l.ttl);
      l.(active := l.active + [r], issued := l.issued + [r], status := l.status + [Pending])
    case SetState(id, state) => l.(status := WithStatus(l.status, id, state))
    case Pop(id) => l.(active := Without(l.active, id))
    case FreeCost(cost, clamped) => l.(reserved := l.reserved.(cost := Floor(l.reserved.cost - cost, clamped)))
    case FreeLatency(latency, clamped) =>
      l.(reserved := l.reserved.(latency := Floor(l.reserved.latency - latency, clamped)))
    case SpendCost(cost) => l.(spent := l.spent.(cost := l.spent.cost + cost))
    case SpendLatency(id, actual) =>
      l.(spent := l.spent.(latency := l.spent.latency + actual.latency),
         commits := l.commits + [Settlement(id, actual)])
  }

  function ExecAll(l: Ledger, ws: seq<Write>, now: real): Ledger
    decreases |ws|
  {
    if ws == [] then l else ExecAll(Exec(l, ws[0], now), ws[1..], now)
  }

  // ---------- the tests ----------

  function TestReserve(l: Ledger, want: Amount): (seq<Write>, Verdict) {
    if !Admits(l, want) then ([], Denied)
    else ([ReserveCost(want.cost), ReserveLatency(want.latency), Enter(want)], Admitted(want))
  }

  function Settle(r: Reservation, state: Status, clamped: bool): seq<Write> {
    [SetState(r.id, state), Pop(r.id), FreeCost(r.amount.cost, clamped), FreeLatency(r.amount.latency, clamped)]
  }

  function TestCommit(l: Ledger, id: nat, actual: Amount): (seq<Write>, Verdict) {
    if !Has(l.active, id) then ([], CommitEnds(CommitNotActive))
    else
      var r := Lookup(l.active, id);
      if actual.cost > r.amount.cost + COMMIT_EPS then
        (Settle(r, RolledBack, false), CommitEnds(CostExceeded))
      else if l.spent.latency + actual.latency > l.cap.latency + COMMIT_EPS then
        (Settle(r, RolledBack, false), CommitEnds(LatencyExceeded))
      else
        (Settle(r, Committed, true) + [SpendCost(actual.cost), SpendLatency(id, actual)], CommitEnds(Settled))
  }

  function TestRollback(l: Ledger, id: nat): (seq<Write>, Verdict) {
    if !Has(l.active, id) then ([], RollbackEnds(RollbackNotActive))
    else
      var r := Lookup(l.active, id);
      ([Pop(id), SetState(id, RolledBack), FreeCost(r.amount.cost, true), FreeLatency(r.amount.latency, true)],
       RollbackEnds(Returned))
  }

  /** A sweep is not one of a handler's sections. */
  function Test(l: Ledger, e: Event): (seq<Write>, Verdict) {
    match e
    case ReserveCall(want, _) => TestReserve(l, want)
    case CommitCall(id, actual) => TestCommit(l, id, actual)
    case RollbackCall(id) => TestRollback(l, id)
    case SweepCall(_) => ([], Denied)
  }

  function ReplyOf(l: Ledger, v: Verdict, now: real): Reply {
    match v
    case Admitted(want) => ToReserve(Granted(Reservation(|l.issued|, want, now, l.ttl)))
    case Denied => ToReserve(Refused)
    case CommitEnds(reply) => ToCommit(reply)
    case RollbackEnds(reply) => ToRollback(reply)
  }

  // ---------- against the atomic operations ----------

  /** The reply of the atomic operation. */
  function AtomicReply(l: Ledger, e: Event): Reply {
    match e
    case ReserveCall(want, now) => ToReserve(TryReserve(l, want, now).1)
    case CommitCall(id, actual) => ToCommit(Commit(l, id, actual).1)
    case RollbackCall(id) => ToRollback(Rollback(l, id).1)
    case SweepCall(_) => ToReserve(Refused)
  }

  predicate Plain(e: Event) {
    !e.SweepCall? && (e.ReserveCall? ==> ValidRequest(e.want))
  }

  lemma FourWrites(l: Ledger, ws: seq<Write>, more: seq<Write>, now: real)
    requires |ws| == 4
    ensures ExecAll(l, ws + more, now)
         == ExecAll(Exec(Exec(Exec(Exec(l, ws[0], now), ws[1], now), ws[2], now), ws[3], now), more, now)
  {
    var all := ws + more;
    var l1 := Exec(l, ws[0], now);
    var l2 := Exec(l1, ws[1], now);
    var l3 := Exec(l2, ws[2], now);
    assert all[1..][1..] == all[2..] && all[2..][1..] == all[3..] && all[3..][1..] == more;
    assert ExecAll(l, all, now) == ExecAll(l1, all[1..], now) == ExecAll(l2, all[2..], now);
    assert ExecAll(l2, all[2..], now) == ExecAll(l3, all[3..], now);
  }

  lemma ReserveWrites(l: Ledger, want: Amount, now: real)
    requires ValidRequest(want)
    ensures ExecAll(l, TestReserve(l, want).0, now) == TryReserve(l, want, now).0
  {
    if Admits(l, want) {
      var ws := TestReserve(l, want).0;
      var l1 := Exec(l, ws[0], now);
      var l2 := Exec(l1, ws[1], now);
      assert ws[1..][1..] == ws[2..] && ws[2..][1..] == [];
      assert ExecAll(l, ws, now) == ExecAll(l1, ws[1..], now) == ExecAll(l2, ws[2..], now);
      assert ExecAll(l2, ws[2..], now) == ExecAll(Exec(l2, ws[2], now), [], now);
    }
  }

  lemma SettleWrites(l: Ledger, r: Reservation, state: Status, clamped: bool, more: seq<Write>, now: real)
    ensures var rest := Subtract(l.reserved, r.amount);
            ExecAll(l, Settle(r, state, clamped) + more, now)
            == ExecAll(Retire(l, r, state, if clamped then Clamp(rest) else rest), more, now)
  {
    FourWrites(l, Settle(r, state, clamped), more, now);
  }

  lemma SpendWrites(l: Ledger, id: nat, actual: Amount, now: real)
    ensures ExecAll(l, [SpendCost(actual.cost), SpendLatency(id, actual)], now)
         == l.(spent := Add(l.spent, actual), commits := l.commits + [Settlement(id, actual)])
  {
    var ws := [SpendCost(actual.cost), SpendLatency(id, actual)];
    var l1 := Exec(l, ws[0], now);
    assert ws[1..][1..] == [];
    assert ExecAll(l, ws, now) == ExecAll(l1, ws[1..], now) == ExecAll(Exec(l1, ws[1], now), [], now);
  }

  lemma CommitWrites(l: Ledger, id: nat, actual: Amount, now: real)
    ensures ExecAll(l, TestCommit(l, id, actual).0, now) == Commit(l, id, actual).0
  {
    if Has(l.active, id) {
      var r := Lookup(l.active, id);
      if Commit(l, id, actual).1 == Settled {
        var retired := Retire(l, r, Committed, Clamp(Subtract(l.reserved, r.amount)));
        SettleWrites(l, r, Committed, true, [SpendCost(actual.cost), SpendLatency(id, actual)], now);
        SpendWrites(retired, id, actual, now);
      } else {
        SettleWrites(l, r, RolledBack, false, [], now);
        assert Settle(r, RolledBack, false) + [] == Settle(r, RolledBack, false);
      }
    }
  }

  lemma RollbackWrites(l: Ledger, id: nat, now: real)
    ensures ExecAll(l, TestRollback(l, id).0, now) == Rollback(l, id).0
  {
    if Has(l.active, id) {
      var ws := TestRollback(l, id).0;
      FourWrites(l, ws, [], now);
      assert ws + [] == ws;
    }
  }

  /** Left alone after its tests, a section's writes add up to the atomic operation, with its reply. */
  lemma WritesAddUp(l: Ledger, e: Event, now: real)
    requires Plain(e) && (e.ReserveCall? ==> e.now == now)
    ensures var (ws, verdict) := Test(l, e);
            ExecAll(l, ws, now) == Apply(l, e) && ReplyOf(l, verdict, now) == AtomicReply(l, e)
  {
    match e
    case ReserveCall(want, _) => ReserveWrites(l, want, now);
    case CommitCall(id, actual) => CommitWrites(l, id, actual, now);
    case RollbackCall(id) => RollbackWrites(l, id, now);
  }

  /**
   Without mutual exclusion they do not: two sections that both test before either writes hand
   out the same money twice, at any price above the admission tolerance.
   */
  lemma UnlockedOverbooks(cap: Amount, ttl: real, now: real)
    requires cap.cost > ADMIT_EPS && cap.latency >= 0.0
    ensures var l, want := Fresh(cap, ttl), Amount(cap.cost, 0.0);
            var ws := TestReserve(l, want).0;
            var both := ExecAll(ExecAll(l, ws, now), ws, now);
            && !Admits(ExecAll(l, ws, now), want)
            && both.reserved.cost > both.cap.cost + ADMIT_EPS
  {
    var l, want := Fresh(cap, ttl), Amount(cap.cost, 0.0);
    var ws := TestReserve(l, want).0;
    ReserveWrites(l, want, now);
    var once := ExecAll(l, ws, now);
    var o1 := Exec(once, ws[0], now);
    var o2 := Exec(o1, ws[1], now);
    assert ws[1..][1..] == ws[2..] && ws[2..][1..] == [];
    assert ExecAll(once, ws, now) == ExecAll(o1, ws[1..], now) == ExecAll(o2, ws[2..], now);
    assert ExecAll(o2, ws[2..], now) == ExecAll(Exec(o2, ws[2], now), [], now);
  }
}
