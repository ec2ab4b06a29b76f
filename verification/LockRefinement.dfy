/**
 Critical sections, made of many acts with other tasks in between, amount to the atomic steps of
 the endpoint: because the locks keep every other section off the same manager.
 */
module LockRefinement {
  import opened Ledgers
  import opened LedgerInvariant
  import opened Reaping
  import opened Options
  import opened Routers
  import opened RouterInvariant
  import opened RouterPreservation
  import opened RouterProgress
  import opened RouterBilling
  import opened Locks
  import opened LockSections
  import Q = QueueMonitors

  // ---------- the system mirrors a world that only takes atomic steps ----------

  /** What a task's place in its section says of the manager as written and as it atomically is. */
  ghost predicate PcMirrors(c: World, w: World, pc: Pc, x: Handler) {
    pc.Inside? ==>
      match pc.lock
      case BudgetLock(k) =>
        && k < |c.ledgers| && k < |w.ledgers| && (pc.job.Done? || k == x.refs.bm)
        && BudgetFits(pc.job, c.ledgers[k], w.ledgers[k], x, w.config.remoteCost)
      case QueueLock(k) =>
        && k < |c.queues| && k < |w.queues| && (pc.job.Done? || pc.job.Giving? || k == x.refs.qm)
        && QueueFits(pc.job, c.queues[k], w.queues[k], x)
      case LatencyLock(k) =>
        && k < |w.trackers| && (pc.job.Done? || (pc.job.Entered? && x.phase.Recording? && k == x.refs.lt))
  }

  /** The two worlds differ at most in managers somebody is inside. */
  ghost predicate SameElsewhere(c: World, w: World) {
    && |c.ledgers| == |w.ledgers| && |c.queues| == |w.queues|
    && c.(ledgers := w.ledgers, queues := w.queues) == w
  }

  ghost predicate LedgerMirrors(s: System, w: World, k: nat) {
    k < |w.ledgers| && k < |s.world.ledgers| ==>
      HandlerHolds(s, BudgetLock(k)) || s.world.ledgers[k] == w.ledgers[k]
  }

  ghost predicate QueueMirrors(s: System, w: World, k: nat) {
    k < |w.queues| && k < |s.world.queues| ==>
      HandlerHolds(s, QueueLock(k)) || s.world.queues[k] == w.queues[k]
  }

  /** Continued with any readings, the pass ends as the atomic sweep of the ledger it found. */
  ghost predicate Resumes(l: Ledger, p: Pass) {
    && |p.readings| + |p.todo| == |p.before.active|
    && forall rest: seq<real> :: |rest| == |p.todo| ==>
         SweepOver(l, p.todo, rest).0 == SweepOver(p.before, p.before.active, p.readings + rest).0
  }

  ghost predicate PassFits(l: Ledger, p: Pass, clock: real) {
    && Resumes(l, p)
    && Ordered(p.todo) && (forall r :: r in p.todo ==> r in l.active)
    && (forall r :: r in l.active ==> r in p.todo || !Expired(r, p.start))
    && p.start <= clock && NonDecreasing(p.readings)
    && (forall i :: 0 <= i < |p.readings| ==> p.start <= p.readings[i] <= clock)
  }

  ghost predicate ReaperMirrors(r: ReaperPc, w: World) {
    match r
    case Asleep => true
    case Opened(k) => k == w.app.bm
    case Sweeping(k, p) => k == w.app.bm && k < |w.ledgers| && PassFits(w.ledgers[k], p, w.clock)
    case Swept(k, p) => k == w.app.bm && k < |w.ledgers| && PassFits(w.ledgers[k], p, w.clock) && p.todo == []
  }

  ghost predicate Mirrors(s: System, w: World) {
    && SameElsewhere(s.world, w)
    && |s.pcs| == |w.handlers|
    && (forall h :: 0 <= h < |s.pcs| ==> PcMirrors(s.world, w, s.pcs[h], w.handlers[h]))
    && (forall k: nat :: LedgerMirrors(s, w, k))
    && (forall k: nat :: QueueMirrors(s, w, k))
    && ReaperMirrors(s.reaper, w)
  }

  // ---------- what lock-free reads see ----------

  lemma QueueSeen(s: System, w: World, k: nat)
    requires Mirrors(s, w) && k < |w.queues|
    ensures s.world.queues[k].active == w.queues[k].active && s.world.queues[k].capacity == w.queues[k].capacity
  {
    assert QueueMirrors(s, w, k);
    if HandlerHolds(s, QueueLock(k)) {
      var h :| 0 <= h < |s.pcs| && Holds(s.pcs[h], QueueLock(k));
      assert PcMirrors(s.world, w, s.pcs[h], w.handlers[h]);
    }
  }

  /** A handler sees the true state of its own reservation, whoever is in the middle of a section. */
  lemma StateSeen(s: System, w: World, h: nat)
    requires Mirrors(s, w) && GoodWorld(w) && h < |w.handlers|
    requires !Holds(s.pcs[h], BudgetLock(w.handlers[h].refs.bm))
    ensures w.handlers[h].refs.bm < |w.ledgers|
    ensures var x := w.handlers[h];
            StillPending(s.world.ledgers[x.refs.bm], x) <==> StillPending(w.ledgers[x.refs.bm], x)
  {
    var x := w.handlers[h];
    var k := x.refs.bm;
    assert AtHome(x, |w.ledgers|);
    assert LedgerMirrors(s, w, k);
    if HandlerHolds(s, BudgetLock(k)) && x.claim.Some? {
      var i :| 0 <= i < |s.pcs| && Holds(s.pcs[i], BudgetLock(k));
      assert PcMirrors(s.world, w, s.pcs[i], w.handlers[i]);
      if s.pcs[i].job.Writing? && w.handlers[i].claim.Some? { ClaimIds(w, h, i); }
    }
  }

  lemma SeenAlike(s: System, w: World, h: nat)
    requires Mirrors(s, w) && GoodWorld(w) && h < |w.handlers|
    requires !Holds(s.pcs[h], BudgetLock(w.handlers[h].refs.bm))
    ensures Wired(s.world) && s.world.handlers == w.handlers
    ensures LooksAlike(HomeView(s.world, h), HomeView(w, h))
  {
    var x := w.handlers[h];
    assert AtHome(x, |w.ledgers|);
    QueueSeen(s, w, x.refs.qm);
    StateSeen(s, w, h);
  }

  // ---------- the atomic step on the whole world ----------

  lemma FreeMove(c: World, w: World, h: nat, reply: BackendReply)
    requires SameElsewhere(c, w) && Wired(w) && Wired(c) && h < |w.handlers|
    requires LooksAlike(HomeView(c, h), HomeView(w, h))
    requires var x := w.handlers[h];
             && (Needs(x, w.config.remoteCost).None? || x.phase.Recording?)
             && (NeedsClaim(x.phase) ==> x.claim.Some?)
    ensures var k := w.handlers[h].refs.bm;
            var v := Stepped(w, h, reply);
            var trackers, handlers := w.trackers[k := v.tracker], w.handlers[h := v.handler];
            && Do(w, Move(h, reply)) == w.(trackers := trackers, handlers := handlers)
            && Do(c, Move(h, reply)) == c.(trackers := trackers, handlers := handlers)
  {
    var k := w.handlers[h].refs.bm;
    assert AtHome(w.handlers[h], |w.ledgers|);
    MoveStaysHome(w, h, reply);
    MoveStaysHome(c, h, reply);
    AdvanceFree(HomeView(c, h), HomeView(w, h), k, w.config.remoteCost, w.clock, reply);
    assert w.ledgers[k := w.ledgers[k]] == w.ledgers && w.queues[k := w.queues[k]] == w.queues;
    assert c.ledgers[k := c.ledgers[k]] == c.ledgers && c.queues[k := c.queues[k]] == c.queues;
  }

  lemma LedgerMove(w: World, h: nat, reply: BackendReply)
    requires Wired(w) && h < |w.handlers|
    requires Transacts(w.handlers[h], w.config.remoteCost) || Reports(w.handlers[h])
    ensures var k := w.handlers[h].refs.bm;
            && k < |w.ledgers|
            && var (l', x') := AtomicWork(w.ledgers[k], w.handlers[h], k, w.config.remoteCost, w.clock);
               Do(w, Move(h, reply)) == w.(ledgers := w.ledgers[k := l'], handlers := w.handlers[h := x'])
  {
    var k := w.handlers[h].refs.bm;
    assert AtHome(w.handlers[h], |w.ledgers|);
    MoveStaysHome(w, h, reply);
    AdvanceTransacts(HomeView(w, h), k, w.config.remoteCost, w.clock, reply);
    assert w.queues[k := w.queues[k]] == w.queues && w.trackers[k := w.trackers[k]] == w.trackers;
  }

  lemma QueueMove(w: World, h: nat, reply: BackendReply)
    requires Wired(w) && h < |w.handlers| && (WantsASlot(w.handlers[h]) || Releases(w.handlers[h]))
    ensures var k := w.handlers[h].refs.qm;
            && k < |w.queues|
            && var (q', x') := AtomicSlot(w.queues[k], w.handlers[h]);
               Do(w, Move(h, reply)) == w.(queues := w.queues[k := q'], handlers := w.handlers[h := x'])
  {
    var k := w.handlers[h].refs.bm;
    assert AtHome(w.handlers[h], |w.ledgers|);
    MoveStaysHome(w, h, reply);
    AdvanceSlot(HomeView(w, h), k, w.config.remoteCost, w.clock, reply);
    assert w.ledgers[k := w.ledgers[k]] == w.ledgers && w.trackers[k := w.trackers[k]] == w.trackers;
  }

  // ---------- which atomic step an act amounts to ----------

  function Linear(s: System, a: Act): seq<FineStep> {
    if !Can(s, a) then []
    else match a
      case HandlerAct(h, reply) =>
        (match s.pcs[h]
         case Outside =>
           if Needs(s.world.handlers[h], s.world.config.remoteCost).None? then [Whole(Move(h, reply))] else []
         case Inside(lock, job) =>
           if !job.Done? && Counted(job, Work(s.world, h, lock, job).1) then [Whole(Move(h, reply))] else [])
      case ReaperAct =>
        (match s.reaper
         case Sweeping(_, p) => if p.todo == [] then [Complete(p.start)] else [Lapse(p.todo[0].id)]
         case _ => [])
      case Outer(step) => [Whole(step)]
  }

  function LinearAll(s: System, acts: seq<Act>): seq<FineStep>
    decreases |acts|
  {
    if acts == [] then [] else Linear(s, acts[0]) + LinearAll(Perform(s, acts[0]), acts[1..])
  }

  // ---------- frames ----------

  /** The lock's manager is as it was. */
  ghost predicate Unmoved(w: World, w': World, lock: Lock) {
    match lock
    case BudgetLock(k) => k < |w.ledgers| ==> k < |w'.ledgers| && w'.ledgers[k] == w.ledgers[k]
    case QueueLock(k) => k < |w.queues| ==> k < |w'.queues| && w'.queues[k] == w.queues[k]
    case LatencyLock(k) => k < |w.trackers| ==> k < |w'.trackers|
  }

  lemma StaysMirrored(c: World, w: World, c': World, w': World, pc: Pc, x: Handler)
    requires PcMirrors(c, w, pc, x) && w'.config == w.config
    requires pc.Inside? ==> Unmoved(c, c', pc.lock) && Unmoved(w, w', pc.lock)
    ensures PcMirrors(c', w', pc, x)
  {}

  /** An act that keeps everybody's locks, except perhaps handler `h`'s, keeps who holds the others. */
  lemma HoldersKept(s: System, s': System, h: nat, l: Lock)
    requires h < |s.pcs| == |s'.pcs| && s'.pcs == s.pcs[h := s'.pcs[h]]
    requires HandlerHolds(s, l) && (Holds(s.pcs[h], l) ==> Holds(s'.pcs[h], l))
    ensures HandlerHolds(s', l)
  {
    var i :| 0 <= i < |s.pcs| && Holds(s.pcs[i], l);
    assert Holds(s'.pcs[i], l);
  }

  // ---------- a handler's acts ----------

  lemma TakeMirrors(s: System, w: World, h: nat, l: Lock)
    requires Mirrors(s, w) && GoodWorld(w) && Exclusive(s) && h < |s.pcs| && s.pcs[h].Outside?
    requires Needs(w.handlers[h], w.config.remoteCost) == Some(l) && l !in s.locked
    ensures Mirrors(s.(locked := s.locked + {l}, pcs := s.pcs[h := Inside(l, Entered)]), w)
  {
    var s' := s.(locked := s.locked + {l}, pcs := s.pcs[h := Inside(l, Entered)]);
    assert AtHome(w.handlers[h], |w.ledgers|);
    assert !HandlerHolds(s, l);
    forall k: nat ensures LedgerMirrors(s', w, k) {
      assert LedgerMirrors(s, w, k);
      if HandlerHolds(s, BudgetLock(k)) { HoldersKept(s, s', h, BudgetLock(k)); }
    }
    forall k: nat ensures QueueMirrors(s', w, k) {
      assert QueueMirrors(s, w, k);
      if HandlerHolds(s, QueueLock(k)) { HoldersKept(s, s', h, QueueLock(k)); }
    }
    assert LedgerMirrors(s, w, w.handlers[h].refs.bm) && QueueMirrors(s, w, w.handlers[h].refs.bm);
    assert PcMirrors(s.world, w, Inside(l, Entered), w.handlers[h]);
  }

  lemma LeaveMirrors(s: System, w: World, h: nat)
    requires Mirrors(s, w) && Exclusive(s) && h < |s.pcs| && s.pcs[h].Inside? && s.pcs[h].job.Done?
    ensures Mirrors(s.(locked := s.locked - {s.pcs[h].lock}, pcs := s.pcs[h := Outside]), w)
  {
    var s' := s.(locked := s.locked - {s.pcs[h].lock}, pcs := s.pcs[h := Outside]);
    assert PcMirrors(s.world, w, s.pcs[h], w.handlers[h]);
    forall k: nat ensures LedgerMirrors(s', w, k) {
      assert LedgerMirrors(s, w, k);
      if HandlerHolds(s, BudgetLock(k)) && !Holds(s.pcs[h], BudgetLock(k)) { HoldersKept(s, s', h, BudgetLock(k)); }
    }
    forall k: nat ensures QueueMirrors(s', w, k) {
      assert QueueMirrors(s, w, k);
      if HandlerHolds(s, QueueLock(k)) && !Holds(s.pcs[h], QueueLock(k)) { HoldersKept(s, s', h, QueueLock(k)); }
    }
  }

  /** What an act of handler `h` leaves alone: the other tasks, and every manager but the one it is inside. */
  ghost predicate OnlyMoves(s: System, w: World, s': System, w': World, h: nat) {
    && h < |s.pcs| == |s'.pcs| == |w.handlers| && s'.pcs == s.pcs[h := s'.pcs[h]] && s'.reaper == s.reaper
    && (s.pcs[h].Inside? <==> s'.pcs[h].Inside?) && (s.pcs[h].Inside? ==> s'.pcs[h].lock == s.pcs[h].lock)
    && |w'.handlers| == |w.handlers| && w'.handlers == w.handlers[h := w'.handlers[h]]
    && w'.config == w.config && w'.app == w.app && w'.clock == w.clock
    && |w'.ledgers| == |w.ledgers| && |w'.queues| == |w.queues| && |w'.trackers| == |w.trackers|
    && |s'.world.ledgers| == |s.world.ledgers| && |s'.world.queues| == |s.world.queues|
    && (forall l: Lock :: !Holds(s.pcs[h], l) ==> Unmoved(s.world, s'.world, l) && Unmoved(w, w', l))
  }

  lemma MoverMirrors(s: System, w: World, s': System, w': World, h: nat)
    requires Mirrors(s, w) && Exclusive(s) && OnlyMoves(s, w, s', w', h)
    requires SameElsewhere(s'.world, w') && PcMirrors(s'.world, w', s'.pcs[h], w'.handlers[h])
    ensures Mirrors(s', w')
  {
    forall i | 0 <= i < |s'.pcs| ensures PcMirrors(s'.world, w', s'.pcs[i], w'.handlers[i]) {
      if i != h {
        assert PcMirrors(s.world, w, s.pcs[i], w.handlers[i]);
        if s.pcs[i].Inside? { assert !Holds(s.pcs[h], s.pcs[i].lock); }
        StaysMirrored(s.world, w, s'.world, w', s.pcs[i], w.handlers[i]);
      }
    }
    forall k: nat ensures LedgerMirrors(s', w', k) {
      assert LedgerMirrors(s, w, k);
      if HandlerHolds(s, BudgetLock(k)) {
        HoldersKept(s, s', h, BudgetLock(k));
      } else {
        assert !Holds(s.pcs[h], BudgetLock(k));
        assert Unmoved(s.world, s'.world, BudgetLock(k)) && Unmoved(w, w', BudgetLock(k));
      }
    }
    forall k: nat ensures QueueMirrors(s', w', k) {
      assert QueueMirrors(s, w, k);
      if HandlerHolds(s, QueueLock(k)) {
        HoldersKept(s, s', h, QueueLock(k));
      } else {
        assert !Holds(s.pcs[h], QueueLock(k));
        assert Unmoved(s.world, s'.world, QueueLock(k)) && Unmoved(w, w', QueueLock(k));
      }
    }
    if !s.reaper.Asleep? {
      var l := BudgetLock(s.reaper.k);
      assert ReaperHolds(s.reaper, l) && !Holds(s.pcs[h], l);
      assert Unmoved(w, w', l);
    }
  }

  lemma FreeMirrors(s: System, w: World, h: nat, reply: BackendReply)
    requires Mirrors(s, w) && Wired(w) && Wired(s.world) && Exclusive(s) && h < |s.pcs| && s.pcs[h].Outside?
    requires LooksAlike(HomeView(s.world, h), HomeView(w, h))
    requires NeedsClaim(w.handlers[h].phase) ==> w.handlers[h].claim.Some?
    requires Needs(w.handlers[h], w.config.remoteCost).None?
    ensures Mirrors(s.(world := Do(s.world, Move(h, reply))), Do(w, Move(h, reply)))
  {
    FreeMove(s.world, w, h, reply);
    MoverMirrors(s, w, s.(world := Do(s.world, Move(h, reply))), Do(w, Move(h, reply)), h);
  }

  lemma LatencyMirrors(s: System, w: World, h: nat, reply: BackendReply)
    requires Mirrors(s, w) && Wired(w) && Wired(s.world) && Exclusive(s) && h < |s.pcs|
    requires LooksAlike(HomeView(s.world, h), HomeView(w, h))
    requires s.pcs[h].Inside? && s.pcs[h].lock.LatencyLock? && !s.pcs[h].job.Done?
    ensures Mirrors(s.(world := Do(s.world, Move(h, RaisedOther)), pcs := s.pcs[h := Inside(s.pcs[h].lock, Done)]),
                    Do(w, Move(h, reply)))
  {
    assert PcMirrors(s.world, w, s.pcs[h], w.handlers[h]);
    FreeMove(s.world, w, h, reply);
    FreeMove(s.world, w, h, RaisedOther);
    assert Stepped(w, h, reply) == Stepped(w, h, RaisedOther);
    var s' := s.(world := Do(s.world, Move(h, RaisedOther)), pcs := s.pcs[h := Inside(s.pcs[h].lock, Done)]);
    MoverMirrors(s, w, s', Do(w, Move(h, reply)), h);
  }

  /** What an act inside the budget manager's section writes. */
  function BudgetWritten(s: System, h: nat, k: nat, r: (Ledger, Handler, Job)): System
    requires h < |s.world.handlers| && h < |s.pcs| && k < |s.world.ledgers|
  {
    s.(world := s.world.(ledgers := s.world.ledgers[k := r.0], handlers := s.world.handlers[h := r.1]),
       pcs := s.pcs[h := Inside(BudgetLock(k), r.2)])
  }

  lemma BudgetCompletes(s: System, w: World, h: nat, k: nat, job: Job, r: (Ledger, Handler, Job), reply: BackendReply)
    requires Mirrors(s, w) && Wired(w) && Exclusive(s)
    requires h < |s.pcs| && s.pcs[h] == Inside(BudgetLock(k), job) && !job.Done? && k < |s.world.ledgers|
    requires r == BudgetWork(s.world.ledgers[k], w.handlers[h], k, job, w.config.remoteCost, w.clock) && r.2.Done?
    ensures Mirrors(BudgetWritten(s, h, k, r), Do(w, Move(h, reply)))
  {
    assert PcMirrors(s.world, w, s.pcs[h], w.handlers[h]);
    BudgetWorkFits(s.world.ledgers[k], w.ledgers[k], w.handlers[h], k, job, w.config.remoteCost, w.clock);
    LedgerMove(w, h, reply);
    MoverMirrors(s, w, BudgetWritten(s, h, k, r), Do(w, Move(h, reply)), h);
  }

  lemma BudgetWaits(s: System, w: World, h: nat, k: nat, job: Job, r: (Ledger, Handler, Job))
    requires Mirrors(s, w) && Exclusive(s)
    requires h < |s.pcs| && s.pcs[h] == Inside(BudgetLock(k), job) && !job.Done? && k < |s.world.ledgers|
    requires r == BudgetWork(s.world.ledgers[k], w.handlers[h], k, job, w.config.remoteCost, w.clock) && !r.2.Done?
    ensures Mirrors(BudgetWritten(s, h, k, r), w)
  {
    assert PcMirrors(s.world, w, s.pcs[h], w.handlers[h]);
    BudgetWorkFits(s.world.ledgers[k], w.ledgers[k], w.handlers[h], k, job, w.config.remoteCost, w.clock);
    assert w.handlers[h := w.handlers[h]] == w.handlers;
    MoverMirrors(s, w, BudgetWritten(s, h, k, r), w, h);
  }

  lemma BudgetJobs(l: Ledger, x: Handler, k: nat, job: Job, cost: real, now: real)
    requires !job.Done?
    ensures var job' := BudgetWork(l, x, k, job, cost, now).2;
            && (job'.Done? || job'.Writing?)
            && (!job.Giving? ==> (Counted(job, job') <==> job'.Done?))
  {}

  lemma BudgetMirrors(s: System, w: World, h: nat, reply: BackendReply)
    requires Mirrors(s, w) && Wired(w) && Exclusive(s) && HandlerCan(s, h)
    requires s.pcs[h].Inside? && s.pcs[h].lock.BudgetLock? && !s.pcs[h].job.Done?
    ensures Mirrors(HandlerDoes(s, h, reply), FineRun(w, Linear(s, HandlerAct(h, reply))))
  {
    var job, k := s.pcs[h].job, s.pcs[h].lock.k;
    assert PcMirrors(s.world, w, s.pcs[h], w.handlers[h]);
    var r := BudgetWork(s.world.ledgers[k], w.handlers[h], k, job, w.config.remoteCost, w.clock);
    BudgetJobs(s.world.ledgers[k], w.handlers[h], k, job, w.config.remoteCost, w.clock);
    assert HandlerDoes(s, h, reply) == BudgetWritten(s, h, k, r);
    if r.2.Done? {
      BudgetCompletes(s, w, h, k, job, r, reply);
      OneFineStep(w, Whole(Move(h, reply)));
    } else {
      BudgetWaits(s, w, h, k, job, r);
    }
  }

  /** What an act inside the queue's section writes. */
  function SlotWritten(s: System, h: nat, k: nat, r: (Q.Queue, Handler, Job)): System
    requires h < |s.world.handlers| && h < |s.pcs| && k < |s.world.queues|
  {
    s.(world := s.world.(queues := s.world.queues[k := r.0], handlers := s.world.handlers[h := r.1]),
       pcs := s.pcs[h := Inside(QueueLock(k), r.2)])
  }

  lemma SlotCounts(s: System, w: World, h: nat, k: nat, job: Job, r: (Q.Queue, Handler, Job), reply: BackendReply)
    requires Mirrors(s, w) && Wired(w) && Exclusive(s)
    requires h < |s.pcs| && s.pcs[h] == Inside(QueueLock(k), job) && !job.Done? && k < |s.world.queues|
    requires k < |w.queues| && Q.Agree(w.queues[k])
    requires r == QueueWork(s.world.queues[k], w.handlers[h], job) && Counted(job, r.2)
    ensures Mirrors(SlotWritten(s, h, k, r), Do(w, Move(h, reply)))
  {
    assert PcMirrors(s.world, w, s.pcs[h], w.handlers[h]);
    QueueWorkFits(s.world.queues[k], w.queues[k], w.handlers[h], job);
    QueueMove(w, h, reply);
    MoverMirrors(s, w, SlotWritten(s, h, k, r), Do(w, Move(h, reply)), h);
  }

  lemma SlotWaits(s: System, w: World, h: nat, k: nat, job: Job, r: (Q.Queue, Handler, Job))
    requires Mirrors(s, w) && Exclusive(s)
    requires h < |s.pcs| && s.pcs[h] == Inside(QueueLock(k), job) && !job.Done? && k < |s.world.queues|
    requires k < |w.queues| && Q.Agree(w.queues[k])
    requires r == QueueWork(s.world.queues[k], w.handlers[h], job) && !Counted(job, r.2)
    ensures Mirrors(SlotWritten(s, h, k, r), w)
  {
    assert PcMirrors(s.world, w, s.pcs[h], w.handlers[h]);
    QueueWorkFits(s.world.queues[k], w.queues[k], w.handlers[h], job);
    assert w.handlers[h := w.handlers[h]] == w.handlers;
    MoverMirrors(s, w, SlotWritten(s, h, k, r), w, h);
  }

  lemma SlotMirrors(s: System, w: World, h: nat, reply: BackendReply)
    requires Mirrors(s, w) && Wired(w) && Exclusive(s) && HandlerCan(s, h)
    requires s.pcs[h].Inside? && s.pcs[h].lock.QueueLock? && !s.pcs[h].job.Done?
    requires s.pcs[h].lock.k < |w.queues| && Q.Agree(w.queues[s.pcs[h].lock.k])
    ensures Mirrors(HandlerDoes(s, h, reply), FineRun(w, Linear(s, HandlerAct(h, reply))))
  {
    var job, k := s.pcs[h].job, s.pcs[h].lock.k;
    var r := QueueWork(s.world.queues[k], w.handlers[h], job);
    assert HandlerDoes(s, h, reply) == SlotWritten(s, h, k, r);
    if Counted(job, r.2) {
      SlotCounts(s, w, h, k, job, r, reply);
      OneFineStep(w, Whole(Move(h, reply)));
    } else {
      SlotWaits(s, w, h, k, job, r);
    }
  }

  lemma OutsideMirrors(s: System, w: World, h: nat, reply: BackendReply)
    requires Mirrors(s, w) && GoodWorld(w) && Exclusive(s) && HandlerCan(s, h) && s.pcs[h].Outside?
    ensures Mirrors(HandlerDoes(s, h, reply), FineRun(w, Linear(s, HandlerAct(h, reply))))
  {
    var l := Needs(w.handlers[h], w.config.remoteCost);
    if l.None? {
      SeenAlike(s, w, h);
      FreeMirrors(s, w, h, reply);
      OneFineStep(w, Whole(Move(h, reply)));
    } else {
      TakeMirrors(s, w, h, l.value);
    }
  }

  lemma RecordMirrors(s: System, w: World, h: nat, reply: BackendReply)
    requires Mirrors(s, w) && GoodWorld(w) && Exclusive(s) && HandlerCan(s, h)
    requires s.pcs[h].Inside? && s.pcs[h].lock.LatencyLock? && !s.pcs[h].job.Done?
    ensures Mirrors(HandlerDoes(s, h, reply), FineRun(w, Linear(s, HandlerAct(h, reply))))
  {
    SeenAlike(s, w, h);
    LatencyMirrors(s, w, h, reply);
    OneFineStep(w, Whole(Move(h, reply)));
  }

  lemma InsideMirrors(s: System, w: World, h: nat, reply: BackendReply)
    requires Mirrors(s, w) && GoodWorld(w) && Exclusive(s) && HandlerCan(s, h)
    requires s.pcs[h].Inside? && !s.pcs[h].job.Done?
    ensures Mirrors(HandlerDoes(s, h, reply), FineRun(w, Linear(s, HandlerAct(h, reply))))
  {
    match s.pcs[h].lock
    case BudgetLock(_) => BudgetMirrors(s, w, h, reply);
    case QueueLock(k) =>
      assert PcMirrors(s.world, w, s.pcs[h], w.handlers[h]) && Sound(w, k);
      SlotMirrors(s, w, h, reply);
    case LatencyLock(_) => RecordMirrors(s, w, h, reply);
  }

  lemma HandlerMirrors(s: System, w: World, h: nat, reply: BackendReply)
    requires Mirrors(s, w) && GoodWorld(w) && Exclusive(s) && HandlerCan(s, h)
    ensures Mirrors(HandlerDoes(s, h, reply), FineRun(w, Linear(s, HandlerAct(h, reply))))
  {
    if s.pcs[h].Outside? {
      OutsideMirrors(s, w, h, reply);
    } else if s.pcs[h].job.Done? {
      LeaveMirrors(s, w, h);
    } else {
      InsideMirrors(s, w, h, reply);
    }
  }

  // ---------- the reaper's acts ----------

  lemma ReaperAlone(s: System, w: World)
    requires Mirrors(s, w) && GoodWorld(w) && Exclusive(s) && !s.reaper.Asleep?
    ensures s.reaper.k == w.app.bm && s.reaper.k < |w.ledgers| && s.reaper.k < |s.world.ledgers|
    ensures !HandlerHolds(s, BudgetLock(s.reaper.k)) && s.world.ledgers[s.reaper.k] == w.ledgers[s.reaper.k]
  {
    var k := s.reaper.k;
    assert ReaperHolds(s.reaper, BudgetLock(k));
    assert LedgerMirrors(s, w, k);
  }

  lemma PassBegins(l: Ledger, clock: real)
    requires Inv(l)
    ensures PassFits(l, Pass(clock, l.active, l, []), clock)
  {
    var p := Pass(clock, l.active, l, []);
    forall rest: seq<real> | |rest| == |p.todo|
      ensures SweepOver(l, p.todo, rest).0 == SweepOver(p.before, p.before.active, p.readings + rest).0
    {
      assert p.readings + rest == rest;
    }
  }

  function Visited(l: Ledger, r: Reservation, now: real): Ledger {
    if Expired(r, now) then Release(l, r) else l
  }

  lemma PassResumes(l: Ledger, p: Pass, now: real)
    requires Resumes(l, p) && p.todo != []
    ensures Resumes(Visited(l, p.todo[0], now), p.(todo := p.todo[1..], readings := p.readings + [now]))
  {
    var p' := p.(todo := p.todo[1..], readings := p.readings + [now]);
    forall rest: seq<real> | |rest| == |p'.todo|
      ensures SweepOver(Visited(l, p.todo[0], now), p'.todo, rest).0
           == SweepOver(p.before, p.before.active, p'.readings + rest).0
    {
      var longer := [now] + rest;
      assert longer[1..] == rest;
      assert p'.readings + rest == p.readings + longer;
      assert SweepOver(l, p.todo, longer).0 == SweepOver(p.before, p.before.active, p.readings + longer).0;
    }
  }

  lemma PassVisits(l: Ledger, p: Pass, now: real)
    requires Inv(l) && PassFits(l, p, now) && p.todo != []
    ensures PassFits(Visited(l, p.todo[0], now), p.(todo := p.todo[1..], readings := p.readings + [now]), now)
    ensures Has(l.active, p.todo[0].id) && Lookup(l.active, p.todo[0].id) == p.todo[0]
  {
    PassResumes(l, p, now);
    ReleaseInv(l, p.todo[0]);
    VisitKeeps(l, p, now);
    ReadingsKept(p, now);
  }

  lemma ReadingsKept(p: Pass, now: real)
    requires NonDecreasing(p.readings) && p.start <= now
    requires forall i :: 0 <= i < |p.readings| ==> p.start <= p.readings[i] <= now
    ensures var readings := p.readings + [now];
            NonDecreasing(readings) && forall i :: 0 <= i < |readings| ==> p.start <= readings[i] <= now
  {}

  lemma VisitKeeps(l: Ledger, p: Pass, now: real)
    requires Inv(l) && PassFits(l, p, now) && p.todo != []
    ensures var l', todo := Visited(l, p.todo[0], now), p.todo[1..];
            && Ordered(todo) && (forall r :: r in todo ==> r in l'.active)
            && (forall r :: r in l'.active ==> r in todo || !Expired(r, p.start))
  {
    assert forall r :: r in p.todo <==> r == p.todo[0] || r in p.todo[1..];
    if Expired(p.todo[0], now) {
      ReleaseHead(l, p.todo);
      WithoutMembers(l.active, p.todo[0].id);
    }
  }

  /** The atomic world's side of a visit. */
  lemma LapseVisits(w: World, p: Pass)
    requires w.app.bm < |w.ledgers| && Inv(w.ledgers[w.app.bm]) && p.todo != []
    requires PassFits(w.ledgers[w.app.bm], p, w.clock)
    ensures var k := w.app.bm;
            && FineDo(w, Lapse(p.todo[0].id))
               == w.(ledgers := w.ledgers[k := Visited(w.ledgers[k], p.todo[0], w.clock)])
            && PassFits(Visited(w.ledgers[k], p.todo[0], w.clock),
                        p.(todo := p.todo[1..], readings := p.readings + [w.clock]), w.clock)
  {
    var k := w.app.bm;
    PassVisits(w.ledgers[k], p, w.clock);
    assert w.ledgers[k := w.ledgers[k]] == w.ledgers;
  }

  lemma VisitMirrors(s: System, w: World)
    requires Mirrors(s, w) && Exclusive(s) && ReaperCan(s)
    requires s.reaper.Sweeping? && s.reaper.pass.todo != []
    requires s.reaper.k == w.app.bm < |w.ledgers| && !HandlerHolds(s, BudgetLock(s.reaper.k))
    requires s.world.ledgers[s.reaper.k] == w.ledgers[s.reaper.k] && Inv(w.ledgers[s.reaper.k])
    ensures Mirrors(ReaperDoes(s), FineDo(w, Lapse(s.reaper.pass.todo[0].id)))
  {
    var k, p := s.reaper.k, s.reaper.pass;
    LapseVisits(w, p);
    ReaperMoves(s, w, ReaperDoes(s), FineDo(w, Lapse(p.todo[0].id)), k);
  }

  /** An act of the reaper's that leaves every ledger but its own alone. */
  lemma ReaperMoves(s: System, w: World, s': System, w': World, k: nat)
    requires Mirrors(s, w) && s'.pcs == s.pcs && w'.handlers == w.handlers && w'.config == w.config
    requires !HandlerHolds(s, BudgetLock(k))
    requires k < |w.ledgers| == |w'.ledgers| && w'.ledgers == w.ledgers[k := w'.ledgers[k]]
    requires w'.queues == w.queues && |w'.trackers| == |w.trackers| && s'.world.queues == s.world.queues
    requires k < |s.world.ledgers| && s'.world.ledgers == s.world.ledgers[k := w'.ledgers[k]]
    requires SameElsewhere(s'.world, w') && ReaperMirrors(s'.reaper, w')
    ensures Mirrors(s', w')
  {
    forall h | 0 <= h < |s'.pcs| ensures PcMirrors(s'.world, w', s'.pcs[h], w'.handlers[h]) {
      assert PcMirrors(s.world, w, s.pcs[h], w.handlers[h]);
      assert !Holds(s.pcs[h], BudgetLock(k));
      StaysMirrored(s.world, w, s'.world, w', s.pcs[h], w.handlers[h]);
    }
    forall j: nat ensures LedgerMirrors(s', w', j) {
      assert LedgerMirrors(s, w, j);
      if HandlerHolds(s, BudgetLock(j)) { SamePcs(s, s', BudgetLock(j)); }
    }
    forall j: nat ensures QueueMirrors(s', w', j) {
      assert QueueMirrors(s, w, j);
      if HandlerHolds(s, QueueLock(j)) { SamePcs(s, s', QueueLock(j)); }
    }
  }

  lemma SamePcs(s: System, s': System, l: Lock)
    requires s'.pcs[..] == s.pcs[..] && HandlerHolds(s, l)
    ensures HandlerHolds(s', l)
  {
    var h :| 0 <= h < |s.pcs| && Holds(s.pcs[h], l);
    assert s'.pcs[..][h] == s.pcs[..][h];
    assert Holds(s'.pcs[h], l);
  }

  /** The pass is over: nothing active had expired when it began. */
  lemma CompleteMirrors(s: System, w: World)
    requires Mirrors(s, w) && GoodWorld(w) && Exclusive(s) && ReaperCan(s)
    requires s.reaper.Sweeping? && s.reaper.pass.todo == []
    ensures Mirrors(ReaperDoes(s), FineDo(w, Complete(s.reaper.pass.start)))
  {
    var k, p := s.reaper.k, s.reaper.pass;
    var s', w' := ReaperDoes(s), FineDo(w, Complete(p.start));
    ReaperAlone(s, w);
    forall i | 0 <= i < |w.ledgers[k].active| ensures !Expired(w.ledgers[k].active[i], p.start) {
      assert w.ledgers[k].active[i] in w.ledgers[k].active;
    }
    assert w' == w.(swept := w.swept[k := p.start]);
    assert w.ledgers[k := w.ledgers[k]] == w.ledgers && s.world.ledgers[k := s.world.ledgers[k]] == s.world.ledgers;
    ReaperMoves(s, w, s', w', k);
  }

  lemma ReaperActs(s: System, w: World)
    requires Mirrors(s, w) && GoodWorld(w) && Exclusive(s) && ReaperCan(s)
    ensures Mirrors(ReaperDoes(s), FineRun(w, Linear(s, ReaperAct)))
  {
    var s' := ReaperDoes(s);
    match s.reaper
    case Sweeping(k, p) =>
      if p.todo == [] {
        CompleteMirrors(s, w);
        OneFineStep(w, Complete(p.start));
      } else {
        ReaperAlone(s, w);
        assert Sound(w, k);
        VisitMirrors(s, w);
        OneFineStep(w, Lapse(p.todo[0].id));
      }
    case Opened(k) =>
      ReaperAlone(s, w);
      assert Sound(w, k);
      PassBegins(w.ledgers[k], w.clock);
      OnlyReaper(s, w, s');
    case _ => OnlyReaper(s, w, s');
  }

  lemma OnlyReaper(s: System, w: World, s': System)
    requires Mirrors(s, w) && s'.world == s.world && s'.pcs == s.pcs && ReaperMirrors(s'.reaper, w)
    ensures Mirrors(s', w)
  {
    forall j: nat ensures LedgerMirrors(s', w, j) && QueueMirrors(s', w, j) {
      assert LedgerMirrors(s, w, j) && QueueMirrors(s, w, j);
      if HandlerHolds(s, BudgetLock(j)) { SamePcs(s, s', BudgetLock(j)); }
      if HandlerHolds(s, QueueLock(j)) { SamePcs(s, s', QueueLock(j)); }
    }
  }

  // ---------- arrivals, ticks, cancellations and resets ----------

  lemma LongerPcs(s: System, s': System, l: Lock)
    requires |s.pcs| <= |s'.pcs| && (forall h :: 0 <= h < |s.pcs| ==> s'.pcs[h] == s.pcs[h]) && HandlerHolds(s, l)
    ensures HandlerHolds(s', l)
  {
    var h :| 0 <= h < |s.pcs| && Holds(s.pcs[h], l);
    assert Holds(s'.pcs[h], l);
  }

  /** A step that writes no existing manager, and moves nobody who is inside a section. */
  lemma OuterMoves(s: System, w: World, s': System, w': World)
    requires Mirrors(s, w) && SameElsewhere(s'.world, w') && |s'.pcs| == |w'.handlers| && w'.config == w.config
    requires |s.pcs| <= |s'.pcs| && (forall h :: 0 <= h < |s.pcs| ==> s'.pcs[h] == s.pcs[h])
    requires forall h :: |s.pcs| <= h < |s'.pcs| ==> s'.pcs[h].Outside?
    requires forall h :: 0 <= h < |s.pcs| && s.pcs[h].Inside? ==> w'.handlers[h] == w.handlers[h]
    requires forall l: Lock :: Unmoved(s.world, s'.world, l) && Unmoved(w, w', l)
    requires forall k :: |w.ledgers| <= k < |w'.ledgers| ==> s'.world.ledgers[k] == w'.ledgers[k]
    requires forall k :: |w.queues| <= k < |w'.queues| ==> s'.world.queues[k] == w'.queues[k]
    requires ReaperMirrors(s'.reaper, w')
    ensures Mirrors(s', w')
  {
    forall h | 0 <= h < |s'.pcs| ensures PcMirrors(s'.world, w', s'.pcs[h], w'.handlers[h]) {
      if h < |s.pcs| && s.pcs[h].Inside? {
        assert PcMirrors(s.world, w, s.pcs[h], w.handlers[h]);
        StaysMirrored(s.world, w, s'.world, w', s.pcs[h], w.handlers[h]);
      }
    }
    forall k: nat ensures LedgerMirrors(s', w', k) {
      assert LedgerMirrors(s, w, k) && Unmoved(s.world, s'.world, BudgetLock(k)) && Unmoved(w, w', BudgetLock(k));
      if HandlerHolds(s, BudgetLock(k)) { LongerPcs(s, s', BudgetLock(k)); }
    }
    forall k: nat ensures QueueMirrors(s', w', k) {
      assert QueueMirrors(s, w, k) && Unmoved(s.world, s'.world, QueueLock(k)) && Unmoved(w, w', QueueLock(k));
      if HandlerHolds(s, QueueLock(k)) { LongerPcs(s, s', QueueLock(k)); }
    }
  }

  lemma OuterActs(s: System, w: World, step: Step)
    requires Mirrors(s, w) && GoodWorld(w) && OuterCan(s, step)
    ensures Mirrors(OuterDoes(s, step), FineRun(w, Linear(s, Outer(step))))
  {
    var s', w' := OuterDoes(s, step), Do(w, step);
    OneFineStep(w, Whole(step));
    OuterMoves(s, w, s', w');
  }

  // ---------- every run ----------

  lemma ActMirrors(s: System, w: World, a: Act)
    requires Mirrors(s, w) && GoodWorld(w) && Exclusive(s)
    ensures Mirrors(Perform(s, a), FineRun(w, Linear(s, a)))
  {
    if Can(s, a) {
      match a
      case HandlerAct(h, reply) => HandlerMirrors(s, w, h, reply);
      case ReaperAct => ReaperActs(s, w);
      case Outer(step) => OuterActs(s, w, step);
    }
  }

  lemma {:induction false} RunMirrors(s: System, w: World, acts: seq<Act>)
    requires Mirrors(s, w) && GoodWorld(w) && Exclusive(s)
    ensures var s', w' := PerformAll(s, acts), FineRun(w, LinearAll(s, acts));
            Mirrors(s', w') && GoodWorld(w') && Exclusive(s')
    decreases |acts|
  {
    if acts != [] {
      ActMirrors(s, w, acts[0]);
      PerformExclusive(s, acts[0]);
      FineRunGood(w, Linear(s, acts[0]));
      RunMirrors(Perform(s, acts[0]), FineRun(w, Linear(s, acts[0])), acts[1..]);
      FineRunConcat(w, Linear(s, acts[0]), LinearAll(Perform(s, acts[0]), acts[1..]));
    }
  }

  /** The world of atomic steps that a locked run amounts to. */
  function AtomicWorld(config: Config, clock: real, acts: seq<Act>): World {
    FineRun(Start(config, clock), LinearAll(Initially(config, clock), acts))
  }

  lemma Reached(config: Config, clock: real, acts: seq<Act>)
    ensures var s, w := PerformAll(Initially(config, clock), acts), AtomicWorld(config, clock, acts);
            Mirrors(s, w) && GoodWorld(w) && Exclusive(s)
  {
    StartInv(config, clock);
    RunMirrors(Initially(config, clock), Start(config, clock), acts);
  }

  lemma UnlockedUnheld(s: System, l: Lock)
    requires Exclusive(s) && l !in s.locked
    ensures !HandlerHolds(s, l)
  {}

  /**
   Critical sections are atomic.  However tasks are interleaved inside them, the handlers are
   always exactly where a run of the atomic steps would have them, so is every manager whose lock
   is free, and that run keeps the endpoint's whole invariant.
   */
  lemma LockedRunsAreAtomic(config: Config, clock: real, acts: seq<Act>)
    ensures var s, w := PerformAll(Initially(config, clock), acts), AtomicWorld(config, clock, acts);
            && WorldInv(w)
            && |s.world.ledgers| == |w.ledgers| && |s.world.queues| == |w.queues|
            && s.world.(ledgers := w.ledgers, queues := w.queues) == w
            && (forall k :: 0 <= k < |w.ledgers| && BudgetLock(k) !in s.locked ==> s.world.ledgers[k] == w.ledgers[k])
            && (forall k :: 0 <= k < |w.queues| && QueueLock(k) !in s.locked ==> s.world.queues[k] == w.queues[k])
            && (s.locked == {} ==> s.world == w)
  {
    Reached(config, clock, acts);
    var s, w := PerformAll(Initially(config, clock), acts), AtomicWorld(config, clock, acts);
    forall k | 0 <= k < |w.ledgers| && BudgetLock(k) !in s.locked ensures s.world.ledgers[k] == w.ledgers[k] {
      UnlockedUnheld(s, BudgetLock(k));
      assert LedgerMirrors(s, w, k);
    }
    forall k | 0 <= k < |w.queues| && QueueLock(k) !in s.locked ensures s.world.queues[k] == w.queues[k] {
      UnlockedUnheld(s, QueueLock(k));
      assert QueueMirrors(s, w, k);
    }
    if s.locked == {} {
      assert s.world.ledgers == w.ledgers && s.world.queues == w.queues;
    }
  }

  /**
   A sweep made one entry per act, with requests running in between, ends with exactly the ledger
   that the atomic sweep makes of the one it found, at readings taken in order since it began.
   */
  lemma LockedSweepIsAtomic(config: Config, clock: real, acts: seq<Act>)
    requires PerformAll(Initially(config, clock), acts).reaper.Swept?
    ensures var s := PerformAll(Initially(config, clock), acts);
            var k, p := s.reaper.k, s.reaper.pass;
            && k < |s.world.ledgers| && |p.readings| == |p.before.active|
            && s.world.ledgers[k] == Sweep(p.before, p.readings).0
            && NonDecreasing(p.readings)
            && (forall i :: 0 <= i < |p.readings| ==> p.start <= p.readings[i] <= s.world.clock)
  {
    Reached(config, clock, acts);
    var s, w := PerformAll(Initially(config, clock), acts), AtomicWorld(config, clock, acts);
    ReaperAlone(s, w);
    var p := s.reaper.pass;
    var none: seq<real> := [];
    assert SweepOver(w.ledgers[s.reaper.k], p.todo, none).0
        == SweepOver(p.before, p.before.active, p.readings + none).0;
    assert p.readings + none == p.readings;
  }

  /** A task is between its two writes to the semaphore and the counter of the k-th queue. */
  ghost predicate MidCount(s: System, k: nat) {
    exists h :: 0 <= h < |s.pcs| && Holds(s.pcs[h], QueueLock(k)) && (s.pcs[h].job.Counting? || s.pcs[h].job.Giving?)
  }

  /**
   The slots.  Semaphore and counter add up to the capacity whenever the queue's lock is free, and
   are short by exactly one while a task is between its two writes; so a task that has passed the
   capacity test never waits on the semaphore.
   */
  lemma SlotsBalance(config: Config, clock: real, acts: seq<Act>, k: nat)
    requires k < |PerformAll(Initially(config, clock), acts).world.queues|
    ensures var s := PerformAll(Initially(config, clock), acts);
            var q := s.world.queues[k];
            && q.capacity == s.world.config.capacity
            && q.active + q.permits + (if MidCount(s, k) then 1 else 0) == q.capacity
            && (QueueLock(k) !in s.locked ==> q.active + q.permits == q.capacity)
            && (forall h :: 0 <= h < |s.pcs| ==> !WaitsOnSemaphore(s.world, s.pcs[h]))
  {
    Reached(config, clock, acts);
    var s, w := PerformAll(Initially(config, clock), acts), AtomicWorld(config, clock, acts);
    assert Sound(w, k);
    PermitsShort(s, w, k);
    forall h | 0 <= h < |s.pcs| ensures !WaitsOnSemaphore(s.world, s.pcs[h]) {
      NeverWaits(s, w, h);
    }
  }

  lemma PermitsShort(s: System, w: World, k: nat)
    requires Mirrors(s, w) && Exclusive(s) && k < |w.queues| && Q.Agree(w.queues[k])
    ensures k < |s.world.queues| && s.world.queues[k].capacity == w.queues[k].capacity
    ensures var q := s.world.queues[k]; q.active + q.permits + (if MidCount(s, k) then 1 else 0) == q.capacity
    ensures MidCount(s, k) ==> QueueLock(k) in s.locked
  {
    assert QueueMirrors(s, w, k);
    if HandlerHolds(s, QueueLock(k)) {
      var h :| 0 <= h < |s.pcs| && Holds(s.pcs[h], QueueLock(k));
      assert PcMirrors(s.world, w, s.pcs[h], w.handlers[h]);
    }
  }

  lemma NeverWaits(s: System, w: World, h: nat)
    requires Mirrors(s, w) && GoodWorld(w) && h < |s.pcs|
    ensures !WaitsOnSemaphore(s.world, s.pcs[h])
  {
    assert PcMirrors(s.world, w, s.pcs[h], w.handlers[h]);
    if s.pcs[h].Inside? && s.pcs[h].lock.QueueLock? && s.pcs[h].lock.k < |w.queues| {
      assert Sound(w, s.pcs[h].lock.k);
    }
  }
}
