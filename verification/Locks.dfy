/**
 The endpoint with its locks made explicit.  A task takes a lock, tests what it guards, makes its
 writes one at a time and lets the lock go; any other task may run between any two of these acts,
 and the advisory reads, which take no lock, see whatever has been written so far.  The budget,
 queue and latency managers each own one lock; the queue's section also takes the semaphore, while
 holding the lock.
 */
module Locks {
  import opened Ledgers
  import opened LedgerWrites
  import opened Options
  import opened Routing
  import opened Routers
  import Q = QueueMonitors

  datatype Lock = BudgetLock(k: nat) | QueueLock(k: nat) | LatencyLock(k: nat)

  /** How far a task is inside a critical section. */
  datatype Job =
    | Entered
    | Writing(todo: seq<Write>, verdict: Verdict)
    | Taking
    | Counting
    | Uncounting
    | Giving
    | Done

  datatype Pc = Outside | Inside(lock: Lock, job: Job)

  /**
   A sweep under way: when it began and which entries it has still to visit.  The ledger it found
   and the clock readings it has used are kept only to speak of them.
   */
  datatype Pass = Pass(start: real, todo: seq<Reservation>, before: Ledger, readings: seq<real>)

  datatype ReaperPc = Asleep | Opened(k: nat) | Sweeping(k: nat, pass: Pass) | Swept(k: nat, pass: Pass)

  /** A lock is a flag: it does not say who holds it. */
  datatype System = System(world: World, locked: set<Lock>, pcs: seq<Pc>, reaper: ReaperPc)

  function Initially(config: Config, clock: real): System {
    System(Start(config, clock), {}, [], Asleep)
  }

  // ---------- which sections a handler enters ----------

  /** The handler's next step is a critical section on its ledger that may write. */
  predicate Transacts(x: Handler, remoteCost: real) {
    var e := StepEvent(x, remoteCost, 0.0);
    e.Some? && Plain(e.value)
  }

  /** It only reads the budget snapshot. */
  predicate Reports(x: Handler) {
    match x.phase
    case Choosing(_, Decided(o, _)) => o.Routed? && o.route != FailFast
    case Reviewing(_, _) => true
    case Reporting => true
    case _ => false
  }

  predicate WantsASlot(x: Handler) {
    x.phase.WantsSlot? || x.phase.WantsFallbackSlot?
  }

  predicate Releases(x: Handler) {
    x.phase.Leaving? || x.phase.LeavingFallback?
  }

  /** The lock a handler's next step is made under; advisory reads, tests of its own and backend calls take none. */
  function Needs(x: Handler, remoteCost: real): Option<Lock> {
    if Transacts(x, remoteCost) || Reports(x) then Some(BudgetLock(x.refs.bm))
    else if WantsASlot(x) || Releases(x) then Some(QueueLock(x.refs.qm))
    else if x.phase.Recording? then Some(LatencyLock(x.refs.lt))
    else None
  }

  // ---------- what is done inside ----------

  function Take(x: Handler, home: nat, reply: Reply): Handler {
    match reply
    case ToReserve(r) => if x.phase.Choosing? && Attempting(x.phase.stage) then AfterAttempt(x, home, r) else x
    case ToCommit(r) => if x.phase.Settling? then AfterCommit(x, r) else x
    case ToRollback(r) => if x.phase.Returning? then AfterRollback(x, r) else x
  }

  /** One act inside the k-th budget manager's section. */
  function BudgetWork(l: Ledger, x: Handler, k: nat, job: Job, remoteCost: real, now: real): (Ledger, Handler, Job) {
    match job
    case Entered =>
      if !Transacts(x, remoteCost) then (l, AfterSnapshot(x), Done)
      else
        var (todo, verdict) := Test(l, StepEvent(x, remoteCost, now).value);
        if todo == [] then (l, Take(x, k, ReplyOf(l, verdict, now)), Done) else (l, x, Writing(todo, verdict))
    case Writing(todo, verdict) =>
      if |todo| > 1 then (Exec(l, todo[0], now), x, Writing(todo[1..], verdict))
      else if |todo| == 1 then (Exec(l, todo[0], now), Take(x, k, ReplyOf(l, verdict, now)), Done)
      else (l, x, Done)
    case _ => (l, x, Done)
  }

  function Acquired(x: Handler, acquired: bool): Handler {
    if WantsASlot(x) then AfterAcquire(x, acquired) else x
  }

  function Released(x: Handler): Handler {
    if Releases(x) then AfterRelease(x) else x
  }

  /** One act inside the queue's section: acquiring takes the semaphore first, releasing gives it back last. */
  function QueueWork(q: Q.Queue, x: Handler, job: Job): (Q.Queue, Handler, Job) {
    match job
    case Entered =>
      if WantsASlot(x) then
        if Q.AtCapacity(q) then (q, Acquired(x, false), Done) else (q, x, Taking)
      else if q.active > 0 then (q, x, Uncounting)
      else (q, Released(x), Done)
    case Taking => (q.(permits := if q.permits > 0 then q.permits - 1 else 0), x, Counting)
    case Counting => (q.(active := q.active + 1), Acquired(x, true), Done)
    case Uncounting => (q.(active := if q.active > 0 then q.active - 1 else 0), Released(x), Giving)
    case Giving => (q.(permits := q.permits + 1), x, Done)
    case _ => (q, x, Done)
  }

  /** The lock's manager exists. */
  predicate InRange(w: World, lock: Lock) {
    match lock
    case BudgetLock(k) => k < |w.ledgers|
    case QueueLock(k) => k < |w.queues|
    case LatencyLock(k) => k < |w.trackers|
  }

  /** The world and the job after one act of handler `h` inside a section. */
  function Work(w: World, h: nat, lock: Lock, job: Job): (World, Job)
    requires h < |w.handlers| && InRange(w, lock)
  {
    var x := w.handlers[h];
    match lock
    case BudgetLock(k) =>
      var (l', x', job') := BudgetWork(w.ledgers[k], x, k, job, w.config.remoteCost, w.clock);
      (w.(ledgers := w.ledgers[k := l'], handlers := w.handlers[h := x']), job')
    case QueueLock(k) =>
      var (q', x', job') := QueueWork(w.queues[k], x, job);
      (w.(queues := w.queues[k := q'], handlers := w.handlers[h := x']), job')
    case LatencyLock(_) => (Do(w, Move(h, RaisedOther)), Done)
  }

  // ---------- acts ----------

  datatype Act =
    | HandlerAct(h: nat, reply: BackendReply)
    | ReaperAct
    | Outer(step: Step)

  /** The task would wait on the semaphore, still holding the queue's lock. */
  predicate WaitsOnSemaphore(w: World, pc: Pc) {
    && pc.Inside? && pc.job.Taking? && pc.lock.QueueLock?
    && pc.lock.k < |w.queues| && w.queues[pc.lock.k].permits == 0
  }

  predicate HandlerCan(s: System, h: nat) {
    && h < |s.world.handlers| && h < |s.pcs|
    && match s.pcs[h]
       case Outside =>
         Live(s.world.handlers[h])
         && (var l := Needs(s.world.handlers[h], s.world.config.remoteCost); l.None? || l.value !in s.locked)
       case Inside(lock, _) => InRange(s.world, lock) && !WaitsOnSemaphore(s.world, s.pcs[h])
  }

  predicate ReaperCan(s: System) {
    match s.reaper
    case Asleep => BudgetLock(s.world.app.bm) !in s.locked
    case Opened(k) => k < |s.world.ledgers|
    case Sweeping(k, _) => k < |s.world.ledgers| && k < |s.world.swept|
    case Swept(_, _) => true
  }

  /**
    * Arrivals and ticks always.  A cancellation reaches a task only between critical sections, and
    * not while it waits to give its slot back.  A reset stops an idle reaper.
    */
  predicate OuterCan(s: System, step: Step) {
    match step
    case Arrive(_, _) => true
    case Tick(_) => true
    case Cancel(h) => h < |s.pcs| && h < |s.world.handlers| && s.pcs[h].Outside? && !Releases(s.world.handlers[h])
    case ResetRun => s.reaper.Asleep?
    case Move(_, _) => false
    case Reap(_) => false
  }

  function HandlerDoes(s: System, h: nat, reply: BackendReply): System
    requires HandlerCan(s, h)
  {
    match s.pcs[h]
    case Outside =>
      var l := Needs(s.world.handlers[h], s.world.config.remoteCost);
      if l.None? then s.(world := Do(s.world, Move(h, reply)))
      else s.(locked := s.locked + {l.value}, pcs := s.pcs[h := Inside(l.value, Entered)])
    case Inside(lock, job) =>
      if job.Done? then s.(locked := s.locked - {lock}, pcs := s.pcs[h := Outside])
      else
        var (w', job') := Work(s.world, h, lock, job);
        s.(world := w', pcs := s.pcs[h := Inside(lock, job')])
  }

  /** The reaper copies the dictionary, then visits one entry per act. */
  function ReaperDoes(s: System): System
    requires ReaperCan(s)
  {
    var w := s.world;
    match s.reaper
    case Asleep => s.(locked := s.locked + {BudgetLock(w.app.bm)}, reaper := Opened(w.app.bm))
    case Opened(k) => s.(reaper := Sweeping(k, Pass(w.clock, w.ledgers[k].active, w.ledgers[k], [])))
    case Sweeping(k, p) =>
      if p.todo == [] then s.(world := w.(swept := w.swept[k := p.start]), reaper := Swept(k, p))
      else
        var l' := if Expired(p.todo[0], w.clock) then Release(w.ledgers[k], p.todo[0]) else w.ledgers[k];
        s.(world := w.(ledgers := w.ledgers[k := l']),
           reaper := Sweeping(k, p.(todo := p.todo[1..], readings := p.readings + [w.clock])))
    case Swept(k, _) => s.(locked := s.locked - {BudgetLock(k)}, reaper := Asleep)
  }

  function OuterDoes(s: System, step: Step): System
    requires OuterCan(s, step)
  {
    s.(world := Do(s.world, step), pcs := if step.Arrive? then s.pcs + [Outside] else s.pcs)
  }

  predicate Can(s: System, a: Act) {
    match a
    case HandlerAct(h, _) => HandlerCan(s, h)
    case ReaperAct => ReaperCan(s)
    case Outer(step) => OuterCan(s, step)
  }

  /** A blocked act leaves the system as it is. */
  function Perform(s: System, a: Act): System {
    if !Can(s, a) then s
    else match a
      case HandlerAct(h, reply) => HandlerDoes(s, h, reply)
      case ReaperAct => ReaperDoes(s)
      case Outer(step) => OuterDoes(s, step)
  }

  function PerformAll(s: System, acts: seq<Act>): System
    decreases |acts|
  {
    if acts == [] then s else PerformAll(Perform(s, acts[0]), acts[1..])
  }

  // ---------- mutual exclusion ----------

  predicate Holds(pc: Pc, l: Lock) {
    pc.Inside? && pc.lock == l
  }

  predicate ReaperHolds(r: ReaperPc, l: Lock) {
    !r.Asleep? && l == BudgetLock(r.k)
  }

  ghost predicate HandlerHolds(s: System, l: Lock) {
    exists h :: 0 <= h < |s.pcs| && Holds(s.pcs[h], l)
  }

  /** Every flag that is up was put up by exactly one task, and no task is inside without its flag. */
  ghost predicate Exclusive(s: System) {
    && (forall h :: 0 <= h < |s.pcs| && s.pcs[h].Inside? ==> s.pcs[h].lock in s.locked)
    && (forall h, i :: 0 <= h < i < |s.pcs| && s.pcs[h].Inside? && s.pcs[i].Inside? ==> s.pcs[h].lock != s.pcs[i].lock)
    && (!s.reaper.Asleep? ==> BudgetLock(s.reaper.k) in s.locked)
    && (forall h :: 0 <= h < |s.pcs| && s.pcs[h].Inside? ==> !ReaperHolds(s.reaper, s.pcs[h].lock))
    && (forall l :: l in s.locked ==> HandlerHolds(s, l) || ReaperHolds(s.reaper, l))
  }

  lemma HoldsKept(s: System, s': System, h: nat, l: Lock)
    requires h < |s.pcs| == |s'.pcs| && s'.pcs == s.pcs[h := s'.pcs[h]] && HandlerHolds(s, l) && !Holds(s.pcs[h], l)
    ensures HandlerHolds(s', l)
  {
    var i :| 0 <= i < |s.pcs| && Holds(s.pcs[i], l);
    assert Holds(s'.pcs[i], l);
  }

  lemma TakeExclusive(s: System, s': System, h: nat, l: Lock)
    requires Exclusive(s) && h < |s.pcs| && s.pcs[h].Outside? && l !in s.locked
    requires s'.locked == s.locked + {l} && s'.pcs == s.pcs[h := Inside(l, Entered)] && s'.reaper == s.reaper
    ensures Exclusive(s')
  {
    forall m | m in s'.locked ensures HandlerHolds(s', m) || ReaperHolds(s'.reaper, m) {
      if m == l { assert Holds(s'.pcs[h], m); }
      else if HandlerHolds(s, m) { HoldsKept(s, s', h, m); }
    }
  }

  lemma LeaveExclusive(s: System, s': System, h: nat)
    requires Exclusive(s) && h < |s.pcs| && s.pcs[h].Inside?
    requires s'.locked == s.locked - {s.pcs[h].lock} && s'.pcs == s.pcs[h := Outside] && s'.reaper == s.reaper
    ensures Exclusive(s')
  {
    forall m | m in s'.locked ensures HandlerHolds(s', m) || ReaperHolds(s'.reaper, m) {
      if HandlerHolds(s, m) { HoldsKept(s, s', h, m); }
    }
  }

  lemma WorkExclusive(s: System, s': System, h: nat, job: Job)
    requires Exclusive(s) && h < |s.pcs| && s.pcs[h].Inside?
    requires s'.locked == s.locked && s'.pcs == s.pcs[h := Inside(s.pcs[h].lock, job)] && s'.reaper == s.reaper
    ensures Exclusive(s')
  {
    forall m | m in s'.locked ensures HandlerHolds(s', m) || ReaperHolds(s'.reaper, m) {
      if HandlerHolds(s, m) {
        if Holds(s.pcs[h], m) { assert Holds(s'.pcs[h], m); } else { HoldsKept(s, s', h, m); }
      }
    }
  }

  lemma HandlerExclusive(s: System, h: nat, reply: BackendReply)
    requires Exclusive(s) && HandlerCan(s, h)
    ensures Exclusive(HandlerDoes(s, h, reply))
  {
    var s' := HandlerDoes(s, h, reply);
    if s.pcs[h].Outside? {
      var l := Needs(s.world.handlers[h], s.world.config.remoteCost);
      if l.Some? { TakeExclusive(s, s', h, l.value); }
    } else if s.pcs[h].job.Done? {
      LeaveExclusive(s, s', h);
    } else {
      WorkExclusive(s, s', h, s'.pcs[h].job);
    }
  }

  lemma ReaperExclusive(s: System)
    requires Exclusive(s) && ReaperCan(s)
    ensures Exclusive(ReaperDoes(s))
  {
    var s' := ReaperDoes(s);
    forall m | m in s'.locked ensures HandlerHolds(s', m) || ReaperHolds(s'.reaper, m) {
      if HandlerHolds(s, m) {
        var i :| 0 <= i < |s.pcs| && Holds(s.pcs[i], m);
        assert Holds(s'.pcs[i], m);
      }
    }
  }

  lemma OuterExclusive(s: System, step: Step)
    requires Exclusive(s) && OuterCan(s, step)
    ensures Exclusive(OuterDoes(s, step))
  {
    var s' := OuterDoes(s, step);
    forall m | m in s'.locked ensures HandlerHolds(s', m) || ReaperHolds(s'.reaper, m) {
      if HandlerHolds(s, m) {
        var i :| 0 <= i < |s.pcs| && Holds(s.pcs[i], m);
        assert Holds(s'.pcs[i], m);
      }
    }
  }

  lemma PerformExclusive(s: System, a: Act)
    requires Exclusive(s)
    ensures Exclusive(Perform(s, a))
  {
    if Can(s, a) {
      match a
      case HandlerAct(h, reply) => HandlerExclusive(s, h, reply);
      case ReaperAct => ReaperExclusive(s);
      case Outer(step) => OuterExclusive(s, step);
    }
  }
}
