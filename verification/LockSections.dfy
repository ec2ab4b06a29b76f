/**
 Inside one critical section: what its acts make of the manager and the handler, against the
 atomic step they add up to; and the atomic steps themselves, with a sweep taken entry by entry.
 */
module LockSections {
  import opened Ledgers
  import opened LedgerWrites
  import opened Routers
  import opened RouterInvariant
  import opened RouterPreservation
  import opened RouterProgress
  import opened Locks
  import Q = QueueMonitors

  // ---------- atomic steps, with a sweep taken entry by entry ----------

  /** One entry of a sweep of the current manager, or the end of a sweep that began at `start`. */
  datatype FineStep = Whole(step: Step) | Lapse(id: nat) | Complete(start: real)

  predicate NoneExpired(l: Ledger, start: real) {
    forall i :: 0 <= i < |l.active| ==> !Expired(l.active[i], start)
  }

  function FineDo(w: World, f: FineStep): World {
    var k := w.app.bm;
    match f
    case Whole(step) => Do(w, step)
    case Lapse(id) =>
      if k < |w.ledgers| && Has(w.ledgers[k].active, id) && Expired(Lookup(w.ledgers[k].active, id), w.clock) then
        w.(ledgers := w.ledgers[k := Rollback(w.ledgers[k], id).0])
      else w
    case Complete(start) =>
      if k < |w.ledgers| && k < |w.swept| && start <= w.clock && NoneExpired(w.ledgers[k], start) then
        w.(swept := w.swept[k := start])
      else w
  }

  function FineRun(w: World, fs: seq<FineStep>): World
    decreases |fs|
  {
    if fs == [] then w else FineRun(FineDo(w, fs[0]), fs[1..])
  }

  lemma {:induction false} FineRunConcat(w: World, fs: seq<FineStep>, gs: seq<FineStep>)
    ensures FineRun(w, fs + gs) == FineRun(FineRun(w, fs), gs)
    decreases |fs|
  {
    if fs == [] {
      assert fs + gs == gs;
    } else {
      assert (fs + gs)[1..] == fs[1..] + gs;
      FineRunConcat(FineDo(w, fs[0]), fs[1..], gs);
    }
  }

  lemma OneFineStep(w: World, f: FineStep)
    ensures FineRun(w, [f]) == FineDo(w, f)
  {
    assert FineRun(w, [f]) == FineRun(FineDo(w, f), []);
  }

  ghost predicate GoodWorld(w: World) {
    WorldInv(w) && ClaimsDistinct(w) && ClaimsPresent(w)
  }

  lemma LapseSound(w: World, id: nat)
    requires WorldInv(w) && Has(w.ledgers[w.app.bm].active, id)
    ensures var w' := w.(ledgers := w.ledgers[w.app.bm := Rollback(w.ledgers[w.app.bm], id).0]); Sound(w', w.app.bm)
  {
    var k := w.app.bm;
    var l := w.ledgers[k];
    var w' := w.(ledgers := w.ledgers[k := Rollback(l, id).0]);
    assert Sound(w, k) && Apply(l, RollbackCall(id)) == w'.ledgers[k];
    ApplyExtends(l, RollbackCall(id));
    ActiveShrinks(l, RollbackCall(id));
    forall r | r in w'.ledgers[k].active ensures Owned(w', k, r) {
      OwnedKept(w, w', k, r);
    }
  }

  lemma LapseInv(w: World, id: nat)
    requires WorldInv(w)
    ensures WorldInv(FineDo(w, Lapse(id)))
  {
    var k := w.app.bm;
    var w' := FineDo(w, Lapse(id));
    if w' != w {
      assert Sound(w, k);
      ApplyExtends(w.ledgers[k], RollbackCall(id));
      forall j | 0 <= j < |w'.ledgers| ensures Sound(w', j) {
        if j == k { LapseSound(w, id); } else { UntouchedSound(w, w', j); }
      }
      forall i | 0 <= i < |w'.handlers|
        ensures ClaimFits(w'.ledgers[w'.handlers[i].refs.bm], w'.handlers[i])
      {
        if w.handlers[i].refs.bm == k { ClaimKept(w.ledgers[k], w'.ledgers[k], w.handlers[i]); }
      }
    }
  }

  lemma CompleteInv(w: World, start: real)
    requires WorldInv(w)
    ensures WorldInv(FineDo(w, Complete(start)))
  {
    var k := w.app.bm;
    var w' := FineDo(w, Complete(start));
    if w' != w {
      assert Sound(w, k);
      forall j | 0 <= j < |w'.ledgers| ensures Sound(w', j) {
        assert Sound(w, j);
        forall r | r in w'.ledgers[j].active ensures Owned(w', j, r) { OwnedKept(w, w', j, r); }
      }
    }
  }

  lemma FineDoGood(w: World, f: FineStep)
    requires GoodWorld(w)
    ensures GoodWorld(FineDo(w, f))
  {
    match f
    case Whole(step) =>
      StepInv(w, step);
      StepDistinct(w, step);
      StepClaimsPresent(w, step);
    case Lapse(id) => LapseInv(w, id);
    case Complete(start) => CompleteInv(w, start);
  }

  lemma {:induction false} FineRunGood(w: World, fs: seq<FineStep>)
    requires GoodWorld(w)
    ensures GoodWorld(FineRun(w, fs))
    decreases |fs|
  {
    if fs != [] {
      FineDoGood(w, fs[0]);
      FineRunGood(FineDo(w, fs[0]), fs[1..]);
    }
  }

  // ---------- inside the budget manager's section ----------

  /** Others' reservations are in the state they were in. */
  ghost predicate OthersKept(c: Ledger, l: Ledger, x: Handler) {
    && |c.status| == |l.status| && |c.issued| == |l.issued| && c.ttl == l.ttl
    && (forall i :: 0 <= i < |l.status| && !(x.claim.Some? && x.claim.value.reservation.id == i) ==>
          c.status[i] == l.status[i])
  }

  /** Made at `now`, the writes left complete the atomic operation. */
  ghost predicate CompletesAt(c: Ledger, l: Ledger, x: Handler, todo: seq<Write>, v: Verdict, cost: real, now: real)
    requires Transacts(x, cost)
  {
    var e := StepEvent(x, cost, now).value;
    ExecAll(c, todo, now) == Apply(l, e) && ReplyOf(c, v, now) == AtomicReply(l, e)
  }

  /** Only the last write may read the clock, and only the handler's own reservation changes state. */
  ghost predicate Orderly(todo: seq<Write>, x: Handler) {
    && (forall i :: 0 <= i < |todo| - 1 ==> !todo[i].Enter?)
    && (forall i :: 0 <= i < |todo| && todo[i].SetState? ==>
          x.claim.Some? && x.claim.value.reservation.id == todo[i].id)
  }

  /** `c` is the ledger as written so far, `l` the ledger as the section found it. */
  ghost predicate BudgetFits(job: Job, c: Ledger, l: Ledger, x: Handler, cost: real) {
    match job
    case Entered => c == l && (Transacts(x, cost) || Reports(x))
    case Writing(todo, v) =>
      && Transacts(x, cost) && todo != [] && Orderly(todo, x) && OthersKept(c, l, x)
      && forall now :: CompletesAt(c, l, x, todo, v, cost, now)
    case Done => c == l
    case _ => false
  }

  lemma TransactsAlways(x: Handler, cost: real, now: real)
    ensures Transacts(x, cost) <==> StepEvent(x, cost, now).Some? && Plain(StepEvent(x, cost, now).value)
    ensures Transacts(x, cost) && StepEvent(x, cost, now).value.ReserveCall? ==>
              StepEvent(x, cost, now).value.now == now
    ensures StepEvent(x, cost, now).Some? <==> StepEvent(x, cost, 0.0).Some?
  {}

  lemma TestOrderly(l: Ledger, x: Handler, cost: real, now: real)
    requires Transacts(x, cost)
    ensures Orderly(Test(l, StepEvent(x, cost, now).value).0, x)
    ensures Test(l, StepEvent(x, cost, now).value) == Test(l, StepEvent(x, cost, 0.0).value)
  {}

  /** The tests. */
  lemma BudgetTests(l: Ledger, x: Handler, k: nat, cost: real, now: real)
    requires Transacts(x, cost)
    ensures var e := StepEvent(x, cost, now).value;
            var (l', x', job) := BudgetWork(l, x, k, Entered, cost, now);
            if job.Done? then l' == l && Apply(l, e) == l && x' == Take(x, k, AtomicReply(l, e))
            else x' == x && BudgetFits(job, l', l, x, cost)
  {
    var (todo, v) := Test(l, StepEvent(x, cost, now).value);
    TestOrderly(l, x, cost, now);
    forall at ensures CompletesAt(l, l, x, todo, v, cost, at) {
      TransactsAlways(x, cost, at);
      TestOrderly(l, x, cost, at);
      WritesAddUp(l, StepEvent(x, cost, at).value, at);
    }
    assert CompletesAt(l, l, x, todo, v, cost, now);
  }

  /** A write other than the last. */
  lemma BudgetWrites(c: Ledger, l: Ledger, x: Handler, todo: seq<Write>, v: Verdict, cost: real, now: real)
    requires BudgetFits(Writing(todo, v), c, l, x, cost) && |todo| > 1
    ensures BudgetFits(Writing(todo[1..], v), Exec(c, todo[0], now), l, x, cost)
  {
    var c' := Exec(c, todo[0], now);
    assert !todo[0].Enter?;
    forall i | 0 <= i < |todo[1..]| ensures todo[1..][i] == todo[i + 1] {}
    forall at ensures CompletesAt(c', l, x, todo[1..], v, cost, at) {
      assert CompletesAt(c, l, x, todo, v, cost, at);
      assert Exec(c, todo[0], at) == c';
    }
  }

  /** The last write. */
  lemma BudgetEnds(c: Ledger, l: Ledger, x: Handler, todo: seq<Write>, v: Verdict, cost: real, now: real)
    requires BudgetFits(Writing(todo, v), c, l, x, cost) && |todo| == 1
    ensures var e := StepEvent(x, cost, now).value;
            Exec(c, todo[0], now) == Apply(l, e) && ReplyOf(c, v, now) == AtomicReply(l, e)
  {
    assert CompletesAt(c, l, x, todo, v, cost, now);
    assert todo[1..] == [];
    assert ExecAll(c, todo, now) == ExecAll(Exec(c, todo[0], now), [], now);
  }

  /** What the atomic step makes of the ledger and the handler. */
  function AtomicWork(l: Ledger, x: Handler, k: nat, cost: real, now: real): (Ledger, Handler) {
    if !Transacts(x, cost) then (l, AfterSnapshot(x))
    else
      TransactsAlways(x, cost, now);
      var e := StepEvent(x, cost, now).value;
      (Apply(l, e), Take(x, k, AtomicReply(l, e)))
  }

  /** Every act inside the section either leaves the handler waiting, or completes the atomic step. */
  lemma BudgetWorkFits(c: Ledger, l: Ledger, x: Handler, k: nat, job: Job, cost: real, now: real)
    requires BudgetFits(job, c, l, x, cost) && !job.Done?
    ensures var (c', x', job') := BudgetWork(c, x, k, job, cost, now);
            if job'.Done? then (c', x') == AtomicWork(l, x, k, cost, now)
            else x' == x && BudgetFits(job', c', l, x, cost)
  {
    match job
    case Entered =>
      if Transacts(x, cost) { BudgetTests(l, x, k, cost, now); }
    case Writing(todo, v) =>
      if |todo| > 1 { BudgetWrites(c, l, x, todo, v, cost, now); } else { BudgetEnds(c, l, x, todo, v, cost, now); }
    case _ =>
  }

  // ---------- inside the queue's section ----------

  /** One permit is missing: taken but not yet counted, or no longer counted but not yet given back. */
  predicate OneShort(c: Q.Queue, q: Q.Queue) {
    q.permits > 0 && c == q.(permits := q.permits - 1)
  }

  predicate QueueFits(job: Job, c: Q.Queue, q: Q.Queue, x: Handler) {
    match job
    case Entered => c == q && (WantsASlot(x) || Releases(x))
    case Taking => c == q && WantsASlot(x) && !Q.AtCapacity(q)
    case Counting => OneShort(c, q) && WantsASlot(x) && !Q.AtCapacity(q)
    case Uncounting => c == q && Releases(x) && q.active > 0
    case Giving => OneShort(c, q)
    case Done => c == q
    case Writing(_, _) => false
  }

  function AtomicSlot(q: Q.Queue, x: Handler): (Q.Queue, Handler) {
    if WantsASlot(x) then (Q.AcquireSlot(q).0, Acquired(x, Q.AcquireSlot(q).1))
    else (Q.ReleaseSlot(q), Released(x))
  }

  /** The job after which the world has taken the step: the counter has been written. */
  predicate Counted(before: Job, after: Job) {
    after.Giving? || (after.Done? && !before.Giving?)
  }

  lemma QueueWorkFits(c: Q.Queue, q: Q.Queue, x: Handler, job: Job)
    requires QueueFits(job, c, q, x) && Q.Agree(q) && !job.Done?
    ensures var (c', x', job') := QueueWork(c, x, job);
            if Counted(job, job') then
              var (q', y) := AtomicSlot(q, x);
              x' == y && QueueFits(job', c', q', x')
            else x' == x && QueueFits(job', c', q, x)
  {}

  // ---------- the atomic step, by its lock ----------

  lemma AdvanceTransacts(v: View, home: nat, cost: real, now: real, reply: BackendReply)
    requires Transacts(v.handler, cost) || Reports(v.handler)
    ensures var (l', x') := AtomicWork(v.ledger, v.handler, home, cost, now);
            Advance(v, home, cost, now, reply) == v.(ledger := l', handler := x')
  {
    if Transacts(v.handler, cost) { TransactsAlways(v.handler, cost, now); }
  }

  lemma AdvanceSlot(v: View, home: nat, cost: real, now: real, reply: BackendReply)
    requires WantsASlot(v.handler) || Releases(v.handler)
    ensures var (q', x') := AtomicSlot(v.queue, v.handler);
            Advance(v, home, cost, now, reply) == v.(queue := q', handler := x')
  {}

  /** Two views in which a step that takes neither the budget nor the queue lock sees the same. */
  ghost predicate LooksAlike(v: View, u: View) {
    && v.handler == u.handler && v.tracker == u.tracker
    && v.queue.active == u.queue.active && v.queue.capacity == u.queue.capacity
    && (StillPending(v.ledger, v.handler) <==> StillPending(u.ledger, u.handler))
  }

  lemma AdvanceFree(v: View, u: View, home: nat, cost: real, now: real, reply: BackendReply)
    requires LooksAlike(v, u)
    requires Needs(v.handler, cost).None? || v.handler.phase.Recording?
    requires NeedsClaim(v.handler.phase) ==> v.handler.claim.Some?
    ensures var v', u' := Advance(v, home, cost, now, reply), Advance(u, home, cost, now, reply);
            && v' == v.(handler := v'.handler, tracker := v'.tracker)
            && u' == u.(handler := v'.handler, tracker := v'.tracker)
  {}
}
