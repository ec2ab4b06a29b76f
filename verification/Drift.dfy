/**
 Rounding drift of a reserved total.  The rest of the model uses exact reals; here every
 addition to and subtraction from a reserved total may be off by up to delta, and whatever
 the rounded totals make the program decide, the error grows only linearly.
 */
module Drift {
  import opened Amounts
  import opened Ledgers
  import opened LedgerInvariant

  datatype Resource = Money | Latency

  function Part(a: Amount, k: Resource): real {
    match k case Money => a.cost case Latency => a.latency
  }

  /** One change of a reserved total: a grant, or the settlement of the `index`-th active entry. */
  datatype Update = Grow(amount: real) | Shrink(index: nat, clamped: bool)

  /** The true active entries beside the stored, rounded total. */
  datatype Book = Book(entries: seq<real>, total: real)

  function Sum(xs: seq<real>): real {
    if xs == [] then 0.0 else xs[0] + Sum(xs[1..])
  }

  function Dropped(xs: seq<real>, i: nat): seq<real>
    requires i < |xs|
  {
    xs[..i] + xs[i + 1..]
  }

  /** `slip` is the rounding error of this one addition or subtraction; `max(0.0, x)` is exact. */
  function Revise(b: Book, u: Update, slip: real): Book {
    match u
    case Grow(a) => Book(b.entries + [a], b.total + a + slip)
    case Shrink(i, clamped) =>
      if i >= |b.entries| then b
      else
        var raw := b.total - b.entries[i] + slip;
        Book(Dropped(b.entries, i), if clamped then Max(0.0, raw) else raw)
  }

  function ReviseAll(b: Book, us: seq<Update>, slips: seq<real>): Book
    requires |us| == |slips|
    decreases |us|
  {
    if us == [] then b else ReviseAll(Revise(b, us[0], slips[0]), us[1..], slips[1..])
  }

  lemma {:induction false} SumConcat(xs: seq<real>, ys: seq<real>)
    ensures Sum(xs + ys) == Sum(xs) + Sum(ys)
  {
    if xs == [] {
      assert xs + ys == ys;
    } else {
      assert (xs + ys)[1..] == xs[1..] + ys;
      SumConcat(xs[1..], ys);
    }
  }

  lemma {:induction false} SumRemove(xs: seq<real>, i: nat)
    requires i < |xs|
    ensures Sum(Dropped(xs, i)) == Sum(xs) - xs[i]
  {
    if i == 0 {
      assert Dropped(xs, i) == xs[1..];
    } else {
      SumRemove(xs[1..], i - 1);
      var rest := Dropped(xs[1..], i - 1);
      assert Dropped(xs, i) == [xs[0]] + rest;
      assert ([xs[0]] + rest)[1..] == rest;
    }
  }

  lemma {:induction false} SumNonNegative(xs: seq<real>)
    requires forall i :: 0 <= i < |xs| ==> xs[i] >= 0.0
    ensures Sum(xs) >= 0.0
  {
    if xs != [] { SumNonNegative(xs[1..]); }
  }

  function Error(b: Book): real {
    Abs(b.total - Sum(b.entries))
  }

  ghost predicate NonNegativeEntries(b: Book) {
    forall i :: 0 <= i < |b.entries| ==> b.entries[i] >= 0.0
  }

  ghost predicate NonNegativeGrowth(us: seq<Update>) {
    forall i :: 0 <= i < |us| ==> us[i].Grow? ==> us[i].amount >= 0.0
  }

  ghost predicate SlipsWithin(slips: seq<real>, delta: real) {
    forall i :: 0 <= i < |slips| ==> Abs(slips[i]) <= delta
  }

  /** The clamp never moves the stored total away from the true, non-negative sum. */
  lemma ReviseDrift(b: Book, u: Update, slip: real, delta: real)
    requires NonNegativeEntries(b) && Abs(slip) <= delta
    requires u.Grow? ==> u.amount >= 0.0
    ensures var b' := Revise(b, u, slip);
            && NonNegativeEntries(b')
            && Error(b') <= Error(b) + delta
  {
    match u
    case Grow(a) =>
      SumConcat(b.entries, [a]);
    case Shrink(i, clamped) =>
      if i < |b.entries| {
        SumRemove(b.entries, i);
        SumNonNegative(Revise(b, u, slip).entries);
      }
  }

  lemma {:induction false} DriftFrom(b: Book, us: seq<Update>, slips: seq<real>, delta: real)
    requires |us| == |slips| && NonNegativeEntries(b)
    requires NonNegativeGrowth(us) && SlipsWithin(slips, delta)
    ensures Error(ReviseAll(b, us, slips)) <= Error(b) + Times(|us|, delta)
    decreases |us|
  {
    if us != [] {
      ReviseDrift(b, us[0], slips[0], delta);
      DriftFrom(Revise(b, us[0], slips[0]), us[1..], slips[1..], delta);
    }
  }

  /** After n updates, in any order and whatever prompted them, the drift is at most n times delta. */
  lemma DriftIsLinear(us: seq<Update>, slips: seq<real>, delta: real)
    requires |us| == |slips| && NonNegativeGrowth(us) && SlipsWithin(slips, delta)
    ensures Error(ReviseAll(Book([], 0.0), us, slips)) <= Times(|us|, delta)
  {
    DriftFrom(Book([], 0.0), us, slips, delta);
  }

  /** The bound is reached: grants that all round up by delta drift by exactly n times delta. */
  lemma {:induction false} DriftReached(b: Book, us: seq<Update>, slips: seq<real>, delta: real)
    requires |us| == |slips| && forall i :: 0 <= i < |us| ==> us[i].Grow?
    requires forall i :: 0 <= i < |slips| ==> slips[i] == delta
    ensures var b' := ReviseAll(b, us, slips);
            b'.total - Sum(b'.entries) == b.total - Sum(b.entries) + Times(|us|, delta)
    decreases |us|
  {
    if us != [] {
      SumConcat(b.entries, [us[0].amount]);
      DriftReached(Revise(b, us[0], slips[0]), us[1..], slips[1..], delta);
    }
  }

  // ---------- the updates a ledger run makes ----------

  function IndexOf(rs: seq<Reservation>, id: nat): nat {
    if rs == [] || rs[0].id == id then 0 else 1 + IndexOf(rs[1..], id)
  }

  function Entries(rs: seq<Reservation>, k: Resource): seq<real> {
    if rs == [] then [] else [Part(rs[0].amount, k)] + Entries(rs[1..], k)
  }

  function BookOf(l: Ledger, k: Resource): Book {
    Book(Entries(l.active, k), Part(l.reserved, k))
  }

  function SweepUpdates(l: Ledger, todo: seq<Reservation>, clock: seq<real>): seq<Update>
    requires |clock| == |todo|
    decreases |todo|
  {
    if todo == [] then []
    else if Expired(todo[0], clock[0]) then
      [Shrink(IndexOf(l.active, todo[0].id), true)] + SweepUpdates(Release(l, todo[0]), todo[1..], clock[1..])
    else SweepUpdates(l, todo[1..], clock[1..])
  }

  /** The updates each critical section makes: one per settled or granted reservation. */
  function Updates(l: Ledger, e: Event, k: Resource): seq<Update> {
    match e
    case ReserveCall(want, now) =>
      if TryReserve(l, want, now).1.Granted? then [Grow(Part(want, k))] else []
    case CommitCall(id, actual) =>
      if Has(l.active, id) then [Shrink(IndexOf(l.active, id), Commit(l, id, actual).1 == Settled)] else []
    case RollbackCall(id) =>
      if Has(l.active, id) then [Shrink(IndexOf(l.active, id), true)] else []
    case SweepCall(clock) =>
      if |clock| == |l.active| then SweepUpdates(l, l.active, clock) else []
  }

  function Trace(l: Ledger, es: seq<Event>, k: Resource): seq<Update>
    decreases |es|
  {
    if es == [] then [] else Updates(l, es[0], k) + Trace(Apply(l, es[0]), es[1..], k)
  }

  function Exactly(n: nat): seq<real> {
    seq(n, _ => 0.0)
  }

  lemma {:induction false} EntriesAppend(rs: seq<Reservation>, r: Reservation, k: Resource)
    ensures Entries(rs + [r], k) == Entries(rs, k) + [Part(r.amount, k)]
  {
    if rs == [] {
      assert rs + [r] == [r];
    } else {
      assert (rs + [r])[1..] == rs[1..] + [r];
      EntriesAppend(rs[1..], r, k);
    }
  }

  lemma {:induction false} EntriesWithout(rs: seq<Reservation>, id: nat, k: Resource)
    requires Has(rs, id)
    ensures var i := IndexOf(rs, id);
            && i < |Entries(rs, k)|
            && Entries(rs, k)[i] == Part(Lookup(rs, id).amount, k)
            && Entries(Without(rs, id), k) == Dropped(Entries(rs, k), i)
  {
    var xs, i := Entries(rs, k), IndexOf(rs, id);
    assert xs[1..] == Entries(rs[1..], k);
    if rs[0].id == id {
      assert Dropped(xs, 0) == xs[1..];
    } else {
      assert Has(rs[1..], id);
      EntriesWithout(rs[1..], id, k);
      var rest := Without(rs[1..], id);
      assert ([rs[0]] + rest)[1..] == rest;
      assert Dropped(xs, i) == [xs[0]] + Dropped(xs[1..], i - 1);
    }
  }

  lemma ReleaseRevises(l: Ledger, r: Reservation, k: Resource)
    requires Inv(l) && r in l.active
    ensures Revise(BookOf(l, k), Shrink(IndexOf(l.active, r.id), true), 0.0) == BookOf(Release(l, r), k)
  {
    ReleaseInv(l, r);
    EntriesWithout(l.active, r.id, k);
  }

  lemma {:induction false} SweepRevises(l: Ledger, todo: seq<Reservation>, clock: seq<real>, k: Resource)
    requires Inv(l) && |clock| == |todo| && Ordered(todo)
    requires forall r :: r in todo ==> r in l.active
    ensures var us := SweepUpdates(l, todo, clock);
            ReviseAll(BookOf(l, k), us, Exactly(|us|)) == BookOf(SweepOver(l, todo, clock).0, k)
    decreases |todo|
  {
    if todo != [] {
      if Expired(todo[0], clock[0]) {
        ReleaseRevises(l, todo[0], k);
        ReleaseHead(l, todo);
        SweepRevises(Release(l, todo[0]), todo[1..], clock[1..], k);
        var us := SweepUpdates(l, todo, clock);
        assert us[1..] == SweepUpdates(Release(l, todo[0]), todo[1..], clock[1..]);
        assert Exactly(|us|)[1..] == Exactly(|us| - 1);
      } else {
        SweepRevises(l, todo[1..], clock[1..], k);
      }
    }
  }

  lemma CommitRevises(l: Ledger, id: nat, actual: Amount, k: Resource)
    requires Has(l.active, id)
    ensures var (l', reply) := Commit(l, id, actual);
            Revise(BookOf(l, k), Shrink(IndexOf(l.active, id), reply == Settled), 0.0) == BookOf(l', k)
    ensures Revise(BookOf(l, k), Shrink(IndexOf(l.active, id), true), 0.0) == BookOf(Rollback(l, id).0, k)
  {
    EntriesWithout(l.active, id, k);
  }

  lemma ReviseOne(b: Book, u: Update)
    ensures ReviseAll(b, [u], Exactly(1)) == Revise(b, u, 0.0)
  {
    assert [u][1..] == [] && Exactly(1)[1..] == [];
  }

  lemma StepRevises(l: Ledger, e: Event, k: Resource)
    requires Inv(l)
    ensures var us := Updates(l, e, k);
            ReviseAll(BookOf(l, k), us, Exactly(|us|)) == BookOf(Apply(l, e), k)
  {
    match e
    case ReserveCall(want, now) =>
      EntriesAppend(l.active, Reservation(|l.issued|, want, now, l.ttl), k);
      ReviseOne(BookOf(l, k), Grow(Part(want, k)));
    case CommitCall(id, actual) =>
      if Has(l.active, id) {
        CommitRevises(l, id, actual, k);
        ReviseOne(BookOf(l, k), Shrink(IndexOf(l.active, id), Commit(l, id, actual).1 == Settled));
      }
    case RollbackCall(id) =>
      if Has(l.active, id) {
        CommitRevises(l, id, ZERO, k);
        ReviseOne(BookOf(l, k), Shrink(IndexOf(l.active, id), true));
      }
    case SweepCall(clock) =>
      if |clock| == |l.active| { SweepRevises(l, l.active, clock, k); }
  }

  lemma {:induction false} ReviseConcat(b: Book, us: seq<Update>, vs: seq<Update>)
    ensures ReviseAll(b, us + vs, Exactly(|us + vs|))
         == ReviseAll(ReviseAll(b, us, Exactly(|us|)), vs, Exactly(|vs|))
    decreases |us|
  {
    if us == [] {
      assert us + vs == vs;
    } else {
      assert (us + vs)[1..] == us[1..] + vs;
      assert Exactly(|us + vs|)[1..] == Exactly(|us + vs| - 1);
      assert Exactly(|us|)[1..] == Exactly(|us| - 1);
      ReviseConcat(Revise(b, us[0], 0.0), us[1..], vs);
    }
  }

  /**
   The updates are the ledger's own: replaying a run's updates without rounding gives
   exactly the reserved total and the active entries the run ends with.
   */
  lemma {:induction false} TraceIsFaithful(l: Ledger, es: seq<Event>, k: Resource)
    requires Inv(l)
    ensures var us := Trace(l, es, k);
            ReviseAll(BookOf(l, k), us, Exactly(|us|)) == BookOf(Run(l, es), k)
    decreases |es|
  {
    if es != [] {
      StepRevises(l, es[0], k);
      ApplyInv(l, es[0]);
      TraceIsFaithful(Apply(l, es[0]), es[1..], k);
      ReviseConcat(BookOf(l, k), Updates(l, es[0], k), Trace(Apply(l, es[0]), es[1..], k));
    }
  }

  lemma {:induction false} SweepOnlyShrinks(l: Ledger, todo: seq<Reservation>, clock: seq<real>)
    requires |clock| == |todo|
    ensures forall i :: 0 <= i < |SweepUpdates(l, todo, clock)| ==> SweepUpdates(l, todo, clock)[i].Shrink?
    decreases |todo|
  {
    if todo != [] {
      SweepOnlyShrinks(if Expired(todo[0], clock[0]) then Release(l, todo[0]) else l, todo[1..], clock[1..]);
    }
  }

  /** Whatever its clients ask for, a ledger only ever grows by non-negative amounts. */
  lemma {:induction false} TraceGrowth(l: Ledger, es: seq<Event>, k: Resource)
    ensures NonNegativeGrowth(Trace(l, es, k))
    decreases |es|
  {
    if es != [] {
      if es[0].SweepCall? && |es[0].clock| == |l.active| { SweepOnlyShrinks(l, l.active, es[0].clock); }
      TraceGrowth(Apply(l, es[0]), es[1..], k);
    }
  }

  /**
   Rounding on a ledger's own run: replayed with errors of at most delta, its updates leave the
   reserved total within delta times their number of the true sum.  Without errors they leave the
   true sum, which is what the exact ledger reports.
   */
  lemma RunDrift(cap: Amount, ttl: real, es: seq<Event>, k: Resource, slips: seq<real>, delta: real)
    requires |slips| == |Trace(Fresh(cap, ttl), es, k)| && SlipsWithin(slips, delta)
    ensures var us, l := Trace(Fresh(cap, ttl), es, k), Run(Fresh(cap, ttl), es);
            var rounded := ReviseAll(Book([], 0.0), us, slips);
            && rounded.entries == Entries(l.active, k)
            && Abs(rounded.total - Part(l.reserved, k)) <= Times(|us|, delta)
  {
    var us, l := Trace(Fresh(cap, ttl), es, k), Run(Fresh(cap, ttl), es);
    var rounded := ReviseAll(Book([], 0.0), us, slips);
    TraceGrowth(Fresh(cap, ttl), es, k);
    DriftIsLinear(us, slips, delta);
    RoundedEntries(cap, ttl, es, k, slips);
    assert Error(rounded) == Abs(rounded.total - Sum(Entries(l.active, k)));
  }

  /** The rounded run has the ledger's entries, whose sum is what the exact ledger reports. */
  lemma RoundedEntries(cap: Amount, ttl: real, es: seq<Event>, k: Resource, slips: seq<real>)
    requires |slips| == |Trace(Fresh(cap, ttl), es, k)|
    ensures var us, l := Trace(Fresh(cap, ttl), es, k), Run(Fresh(cap, ttl), es);
            && ReviseAll(Book([], 0.0), us, slips).entries == Entries(l.active, k)
            && Sum(Entries(l.active, k)) == Part(l.reserved, k)
  {
    var l0, us := Fresh(cap, ttl), Trace(Fresh(cap, ttl), es, k);
    FreshInv(cap, ttl);
    RunInv(l0, es);
    TraceIsFaithful(l0, es, k);
    EntriesAlike(Book([], 0.0), Book([], 0.0), us, slips, Exactly(|us|));
    assert BookOf(l0, k) == Book([], 0.0);
    EntriesSum(Run(l0, es).active, k);
  }

  /** Rounding touches the stored total only, never which entries are active. */
  lemma {:induction false} EntriesAlike(b: Book, c: Book, us: seq<Update>, slips: seq<real>, others: seq<real>)
    requires |us| == |slips| == |others| && b.entries == c.entries
    ensures ReviseAll(b, us, slips).entries == ReviseAll(c, us, others).entries
    decreases |us|
  {
    if us != [] {
      EntriesAlike(Revise(b, us[0], slips[0]), Revise(c, us[0], others[0]), us[1..], slips[1..], others[1..]);
    }
  }

  lemma {:induction false} EntriesSum(rs: seq<Reservation>, k: Resource)
    ensures Sum(Entries(rs, k)) == Part(Held(rs), k)
  {
    if rs != [] {
      EntriesSum(rs[1..], k);
      assert Entries(rs, k)[1..] == Entries(rs[1..], k);
    }
  }
}
