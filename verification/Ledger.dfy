/**
 The budget ledger on values: what each critical section of the budget manager
 does to its state.  The class in BudgetManager.dfy is proved against these
 functions; the theorems about whole runs are proved about them.
 */
module Ledgers {
  import opened Amounts

  datatype Status = Pending | Committed | RolledBack

  /** The fields of a reservation that never change.  Identifiers are drawn from a counter. */
  datatype Reservation = Reservation(id: nat, amount: Amount, createdAt: real, ttl: real)

  /** A successful commit: which reservation, and what was actually spent. */
  datatype Settlement = Settlement(id: nat, actual: Amount)

  /**
   `active` is the dictionary of active reservations in insertion order.
   `issued[i]` is the reservation object with identifier `i` and `status[i]` its state.
   `commits` is a history: the program keeps only its running total, `spent`.
   */
  datatype Ledger = Ledger(
    cap: Amount,
    ttl: real,
    spent: Amount,
    reserved: Amount,
    active: seq<Reservation>,
    issued: seq<Reservation>,
    status: seq<Status>,
    commits: seq<Settlement>)

  datatype ReserveReply = Granted(reservation: Reservation) | Refused | InvalidArgument

  datatype CommitReply = Settled | CostExceeded | LatencyExceeded | CommitNotActive

  datatype RollbackReply = Returned | RollbackNotActive

  function Fresh(cap: Amount, ttl: real): Ledger {
    Ledger(cap, ttl, ZERO, ZERO, [], [], [], [])
  }

  // ---------- the dictionary of active reservations ----------

  predicate Has(rs: seq<Reservation>, id: nat) {
    exists i :: 0 <= i < |rs| && rs[i].id == id
  }

  function Lookup(rs: seq<Reservation>, id: nat): (r: Reservation)
    requires Has(rs, id)
    ensures r in rs && r.id == id
  {
    if rs[0].id == id then rs[0] else Lookup(rs[1..], id)
  }

  function Without(rs: seq<Reservation>, id: nat): seq<Reservation> {
    if rs == [] then []
    else if rs[0].id == id then rs[1..]
    else [rs[0]] + Without(rs[1..], id)
  }

  function Held(rs: seq<Reservation>): Amount {
    if rs == [] then ZERO else Add(rs[0].amount, Held(rs[1..]))
  }

  // ---------- the critical sections ----------

  predicate ValidRequest(want: Amount) {
    want.NonNegative() && want != ZERO
  }

  /** What a new reservation can still draw on. */
  function Liquid(l: Ledger): Amount {
    Subtract(Subtract(l.cap, l.spent), l.reserved)
  }

  predicate Admits(l: Ledger, want: Amount) {
    !(Liquid(l).cost < want.cost - ADMIT_EPS || Liquid(l).latency < want.latency - ADMIT_EPS)
  }

  function Grant(l: Ledger, want: Amount, now: real): Ledger {
    var r := Reservation(|l.issued|, want, now, l.ttl);
    l.(reserved := Add(l.reserved, want),
       active := l.active + [r],
       issued := l.issued + [r],
       status := l.status + [Pending])
  }

  function TryReserve(l: Ledger, want: Amount, now: real): (Ledger, ReserveReply) {
    if !ValidRequest(want) then (l, InvalidArgument)
    else if !Admits(l, want) then (l, Refused)
    else (Grant(l, want, now), Granted(Reservation(|l.issued|, want, now, l.ttl)))
  }

  function WithStatus(status: seq<Status>, id: nat, s: Status): seq<Status> {
    if id < |status| then status[id := s] else status
  }

  /** Takes `r` out of the active reservations, leaving `reserved` as the new reserved total. */
  function Retire(l: Ledger, r: Reservation, s: Status, reserved: Amount): Ledger {
    l.(reserved := reserved,
       active := Without(l.active, r.id),
       status := WithStatus(l.status, r.id, s))
  }

  function Commit(l: Ledger, id: nat, actual: Amount): (Ledger, CommitReply) {
    if !Has(l.active, id) then (l, CommitNotActive)
    else
      var r := Lookup(l.active, id);
      var rest := Subtract(l.reserved, r.amount);
      if actual.cost > r.amount.cost + COMMIT_EPS then
        (Retire(l, r, RolledBack, rest), CostExceeded)
      else if l.spent.latency + actual.latency > l.cap.latency + COMMIT_EPS then
        (Retire(l, r, RolledBack, rest), LatencyExceeded)
      else
        (Retire(l, r, Committed, Clamp(rest))
         .(spent := Add(l.spent, actual), commits := l.commits + [Settlement(id, actual)]), Settled)
  }

  function Release(l: Ledger, r: Reservation): Ledger {
    Retire(l, r, RolledBack, Clamp(Subtract(l.reserved, r.amount)))
  }

  function Rollback(l: Ledger, id: nat): (Ledger, RollbackReply) {
    if !Has(l.active, id) then (l, RollbackNotActive)
    else (Release(l, Lookup(l.active, id)), Returned)
  }

  predicate Expired(r: Reservation, now: real) {
    now - r.createdAt > r.ttl
  }

  /** The reaper's pass over `todo`, reading the clock once per reservation. */
  function SweepOver(l: Ledger, todo: seq<Reservation>, clock: seq<real>): (Ledger, seq<nat>)
    requires |clock| == |todo|
    decreases |todo|
  {
    if todo == [] then (l, [])
    else if Expired(todo[0], clock[0]) then
      var (l', ids) := SweepOver(Release(l, todo[0]), todo[1..], clock[1..]);
      (l', [todo[0].id] + ids)
    else SweepOver(l, todo[1..], clock[1..])
  }

  function Sweep(l: Ledger, clock: seq<real>): (Ledger, seq<nat>)
    requires |clock| == |l.active|
  {
    SweepOver(l, l.active, clock)
  }

  // ---------- runs ----------

  datatype Event =
    | ReserveCall(want: Amount, now: real)
    | CommitCall(id: nat, actual: Amount)
    | RollbackCall(id: nat)
    | SweepCall(clock: seq<real>)

  /** A sweep whose clock readings do not match the active reservations is not a step of the program. */
  function Apply(l: Ledger, e: Event): Ledger {
    match e
    case ReserveCall(want, now) => TryReserve(l, want, now).0
    case CommitCall(id, actual) => Commit(l, id, actual).0
    case RollbackCall(id) => Rollback(l, id).0
    case SweepCall(clock) => if |clock| == |l.active| then Sweep(l, clock).0 else l
  }

  function Run(l: Ledger, es: seq<Event>): Ledger
    decreases |es|
  {
    if es == [] then l else Run(Apply(l, es[0]), es[1..])
  }

  lemma {:induction false} RunConcat(l: Ledger, es: seq<Event>, fs: seq<Event>)
    ensures Run(l, es + fs) == Run(Run(l, es), fs)
    decreases |es|
  {
    if es == [] {
      assert es + fs == fs;
    } else {
      assert (es + fs)[0] == es[0] && (es + fs)[1..] == es[1..] + fs;
      RunConcat(Apply(l, es[0]), es[1..], fs);
    }
  }
}
