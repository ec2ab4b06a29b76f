/**
 With the locks explicit, somebody can always act, and every handler ends.
 */
module LockProgress {
  import opened Ledgers
  import opened LedgerWrites
  import opened Routing
  import opened Routers
  import opened RouterPreservation
  import opened RouterProgress
  import opened Locks
  import opened LockSections
  import opened LockRefinement

  // ---------- no task holds two locks ----------

  function Insiders(pcs: seq<Pc>): nat {
    if pcs == [] then 0 else (if pcs[0].Inside? then 1 else 0) + Insiders(pcs[1..])
  }

  function TasksInside(s: System): nat {
    Insiders(s.pcs) + (if s.reaper.Asleep? then 0 else 1)
  }

  lemma {:induction false} InsidersUpdate(pcs: seq<Pc>, h: nat, pc: Pc)
    requires h < |pcs|
    ensures Insiders(pcs[h := pc]) == Insiders(pcs) + (if pc.Inside? then 1 else 0) - (if pcs[h].Inside? then 1 else 0)
  {
    if h == 0 {
      assert pcs[h := pc][1..] == pcs[1..];
    } else {
      assert pcs[h := pc][1..] == pcs[1..][h - 1 := pc];
      InsidersUpdate(pcs[1..], h - 1, pc);
    }
  }

  lemma {:induction false} InsidersAppend(pcs: seq<Pc>)
    ensures Insiders(pcs + [Outside]) == Insiders(pcs)
  {
    if pcs == [] {
      assert pcs + [Outside] == [Outside];
    } else {
      assert (pcs + [Outside])[1..] == pcs[1..] + [Outside];
      InsidersAppend(pcs[1..]);
    }
  }

  lemma HandlerCounts(s: System, h: nat, reply: BackendReply)
    requires Exclusive(s) && HandlerCan(s, h) && |s.locked| == TasksInside(s)
    ensures |HandlerDoes(s, h, reply).locked| == TasksInside(HandlerDoes(s, h, reply))
  {
    var s' := HandlerDoes(s, h, reply);
    InsidersUpdate(s.pcs, h, s'.pcs[h]);
    assert s'.pcs == s.pcs[h := s'.pcs[h]];
  }

  lemma ReaperCounts(s: System)
    requires Exclusive(s) && ReaperCan(s) && |s.locked| == TasksInside(s)
    ensures |ReaperDoes(s).locked| == TasksInside(ReaperDoes(s))
  {}

  lemma StepCounts(s: System, a: Act)
    requires Exclusive(s) && |s.locked| == TasksInside(s)
    ensures |Perform(s, a).locked| == TasksInside(Perform(s, a))
  {
    if Can(s, a) {
      match a
      case HandlerAct(h, reply) => HandlerCounts(s, h, reply);
      case ReaperAct => ReaperCounts(s);
      case Outer(step) =>
        InsidersAppend(s.pcs);
        assert OuterDoes(s, step).locked == s.locked;
    }
  }

  lemma {:induction false} RunCounts(s: System, acts: seq<Act>)
    requires Exclusive(s) && |s.locked| == TasksInside(s)
    ensures |PerformAll(s, acts).locked| == TasksInside(PerformAll(s, acts))
    decreases |acts|
  {
    if acts != [] {
      StepCounts(s, acts[0]);
      PerformExclusive(s, acts[0]);
      RunCounts(Perform(s, acts[0]), acts[1..]);
    }
  }

  // ---------- deadlock freedom ----------

  /** The task that holds the lock can act. */
  ghost predicate HolderCan(s: System, l: Lock) {
    || (exists i :: 0 <= i < |s.pcs| && Holds(s.pcs[i], l) && HandlerCan(s, i))
    || (ReaperHolds(s.reaper, l) && ReaperCan(s))
  }

  lemma InsideCan(s: System, w: World, h: nat)
    requires Mirrors(s, w) && GoodWorld(w) && h < |s.pcs| && s.pcs[h].Inside?
    ensures HandlerCan(s, h)
  {
    assert PcMirrors(s.world, w, s.pcs[h], w.handlers[h]);
    NeverWaits(s, w, h);
  }

  lemma HeldCan(s: System, w: World, l: Lock)
    requires Mirrors(s, w) && GoodWorld(w) && Exclusive(s) && l in s.locked
    ensures HolderCan(s, l)
  {
    if HandlerHolds(s, l) {
      var i :| 0 <= i < |s.pcs| && Holds(s.pcs[i], l);
      InsideCan(s, w, i);
    } else {
      ReaperAlone(s, w);
    }
  }

  /**
   Deadlock freedom, in every run.  As many locks are taken as tasks are inside a section, no two
   of them in the same one, so nobody holds two; the semaphore makes nobody wait there; and a live
   handler that cannot act, or a reaper that cannot, waits outside for a lock whose holder can.
   */
  lemma NoDeadlock(config: Config, clock: real, acts: seq<Act>)
    ensures var s := PerformAll(Initially(config, clock), acts);
            && |s.pcs| == |s.world.handlers| && |s.locked| == TasksInside(s)
            && (forall h, i :: 0 <= h < i < |s.pcs| && s.pcs[h].Inside? && s.pcs[i].Inside? ==>
                  s.pcs[h].lock != s.pcs[i].lock)
            && (forall h :: 0 <= h < |s.pcs| ==> !WaitsOnSemaphore(s.world, s.pcs[h]))
            && (forall h :: 0 <= h < |s.pcs| && (Live(s.world.handlers[h]) || s.pcs[h].Inside?) ==>
                  || HandlerCan(s, h)
                  || (var need := Needs(s.world.handlers[h], s.world.config.remoteCost);
                      s.pcs[h].Outside? && need.Some? && HolderCan(s, need.value)))
            && (ReaperCan(s) || HolderCan(s, BudgetLock(s.world.app.bm)))
  {
    Reached(config, clock, acts);
    RunCounts(Initially(config, clock), acts);
    var s, w := PerformAll(Initially(config, clock), acts), AtomicWorld(config, clock, acts);
    forall h | 0 <= h < |s.pcs| ensures !WaitsOnSemaphore(s.world, s.pcs[h]) {
      NeverWaits(s, w, h);
    }
    forall h | 0 <= h < |s.pcs| && (Live(s.world.handlers[h]) || s.pcs[h].Inside?)
      ensures || HandlerCan(s, h)
              || (var need := Needs(s.world.handlers[h], s.world.config.remoteCost);
                  s.pcs[h].Outside? && need.Some? && HolderCan(s, need.value))
    {
      if s.pcs[h].Inside? {
        InsideCan(s, w, h);
      } else if !HandlerCan(s, h) {
        HeldCan(s, w, Needs(s.world.handlers[h], s.world.config.remoteCost).value);
      }
    }
    if s.reaper.Asleep? {
      if !ReaperCan(s) { HeldCan(s, w, BudgetLock(s.world.app.bm)); }
    } else {
      ReaperAlone(s, w);
    }
  }

  // ---------- bounded work ----------

  /** Acts left in the present section, or needed for the next. */
  function JobLeft(pc: Pc, live: bool): nat {
    match pc
    case Outside => if live then 9 else 0
    case Inside(_, Entered) => 8
    case Inside(_, Writing(todo, _)) => 1 + |todo|
    case Inside(_, Taking) => 7
    case Inside(_, Counting) => 6
    case Inside(_, Uncounting) => 7
    case Inside(_, Giving) => 11
    case Inside(_, Done) => 10
  }

  /** A bound on the acts of its own a handler can still perform. */
  function Measure(s: System, h: nat): nat
    requires h < |s.world.handlers| && h < |s.pcs|
  {
    9 * Rank(s.world.handlers[h].phase) + JobLeft(s.pcs[h], Live(s.world.handlers[h]))
  }

  lemma TestIsShort(l: Ledger, e: Event)
    ensures |Test(l, e).0| <= 6
  {}

  /** An act that takes no atomic step brings its section's end closer. */
  lemma WaitingDescends(s: System, w: World, h: nat, reply: BackendReply)
    requires Mirrors(s, w) && HandlerCan(s, h) && Linear(s, HandlerAct(h, reply)) == []
    ensures var s' := HandlerDoes(s, h, reply);
            && s'.world.handlers == s.world.handlers && h < |s'.pcs|
            && JobLeft(s'.pcs[h], Live(s.world.handlers[h])) < JobLeft(s.pcs[h], Live(s.world.handlers[h]))
  {
    var x := s.world.handlers[h];
    assert s.world.handlers[h := x] == s.world.handlers;
    assert PcMirrors(s.world, w, s.pcs[h], w.handlers[h]);
    if s.pcs[h].Inside? && s.pcs[h].lock.BudgetLock? && Transacts(x, s.world.config.remoteCost) {
      TestIsShort(s.world.ledgers[s.pcs[h].lock.k], StepEvent(x, s.world.config.remoteCost, s.world.clock).value);
    }
  }

  lemma MoveDescends(w: World, h: nat, reply: BackendReply)
    requires GoodWorld(w) && h < |w.handlers| && Live(w.handlers[h])
    ensures h < |Do(w, Move(h, reply)).handlers|
    ensures Rank(Do(w, Move(h, reply)).handlers[h].phase) < Rank(w.handlers[h].phase)
  {
    StepRank(w, Move(h, reply), h);
    assert LiveMoves(w, [Move(h, reply)], h) == 1;
  }

  /** An act that takes one leaves at most the writes and the lock to give back. */
  lemma SteppingLeaves(s: System, h: nat, reply: BackendReply)
    requires HandlerCan(s, h) && Linear(s, HandlerAct(h, reply)) != []
    requires s.pcs[h].Inside? && s.pcs[h].job.Writing? ==> s.pcs[h].job.todo != []
    ensures var s' := HandlerDoes(s, h, reply);
            h < |s'.pcs| && forall live :: JobLeft(s'.pcs[h], live) < 9 + JobLeft(s.pcs[h], Live(s.world.handlers[h]))
  {}

  /** It also leaves the handler a rank lower. */
  lemma SteppingDescends(s: System, w: World, h: nat, reply: BackendReply)
    requires Mirrors(s, w) && GoodWorld(w) && Exclusive(s) && HandlerCan(s, h)
    requires Linear(s, HandlerAct(h, reply)) != []
    ensures var s' := HandlerDoes(s, h, reply);
            h < |s'.world.handlers| && Rank(s'.world.handlers[h].phase) < Rank(s.world.handlers[h].phase)
  {
    SteppingIsLive(s, w, h, reply);
    HandlerMirrors(s, w, h, reply);
    OneFineStep(w, Whole(Move(h, reply)));
    MoveDescends(w, h, reply);
  }

  lemma SteppingIsLive(s: System, w: World, h: nat, reply: BackendReply)
    requires Mirrors(s, w) && HandlerCan(s, h) && Linear(s, HandlerAct(h, reply)) != []
    ensures Linear(s, HandlerAct(h, reply)) == [Whole(Move(h, reply))] && Live(w.handlers[h])
    ensures s.pcs[h].Inside? && s.pcs[h].job.Writing? ==> s.pcs[h].job.todo != []
  {
    assert PcMirrors(s.world, w, s.pcs[h], w.handlers[h]);
  }

  lemma OwnActDescends(s: System, w: World, h: nat, reply: BackendReply)
    requires Mirrors(s, w) && GoodWorld(w) && Exclusive(s) && HandlerCan(s, h)
    ensures var s' := Perform(s, HandlerAct(h, reply));
            h < |s'.world.handlers| && h < |s'.pcs| && Measure(s', h) < Measure(s, h)
  {
    if Linear(s, HandlerAct(h, reply)) == [] {
      WaitingDescends(s, w, h, reply);
    } else {
      SteppingDescends(s, w, h, reply);
      SteppingIsLive(s, w, h, reply);
      SteppingLeaves(s, h, reply);
    }
  }

  /** Either the handler stays as it is, or it is cancelled. */
  predicate StaysOrCancelled(x: Handler, x': Handler) {
    x' == x || x' == x.(phase := AfterCancel(x.phase))
  }

  lemma OthersStay(w: World, f: FineStep, h: nat)
    requires GoodWorld(w) && h < |w.handlers| && !(f.Whole? && f.step.Move? && f.step.h == h)
    ensures var w' := FineDo(w, f); h < |w'.handlers| && StaysOrCancelled(w.handlers[h], w'.handlers[h])
  {
    if f.Whole? && f.step.Move? && f.step.h < |w.handlers| { MoveStaysHome(w, f.step.h, f.step.reply); }
  }

  lemma OthersLinear(s: System, a: Act, h: nat)
    requires !(a.HandlerAct? && a.h == h)
    ensures var fs := Linear(s, a);
            fs == [] || (fs == [fs[0]] && !(fs[0].Whole? && fs[0].step.Move? && fs[0].step.h == h))
  {}

  /** A task that is not the one to act is where it was. */
  lemma OthersPc(s: System, a: Act, h: nat)
    requires h < |s.pcs| && !(a.HandlerAct? && a.h == h)
    ensures h < |Perform(s, a).pcs| && Perform(s, a).pcs[h] == s.pcs[h]
  {}

  lemma CancelledLeft(x: Handler, x': Handler, pc: Pc)
    requires StaysOrCancelled(x, x')
    ensures Rank(x'.phase) <= Rank(x.phase) && JobLeft(pc, Live(x')) <= JobLeft(pc, Live(x))
  {
    CancelDescends(x.phase);
    RankZero(x);
    RankZero(x');
  }

  /** Nothing that anyone else does takes it further away. */
  lemma OtherActsKeep(s: System, w: World, a: Act, h: nat)
    requires Mirrors(s, w) && GoodWorld(w) && Exclusive(s) && h < |s.pcs| && !(a.HandlerAct? && a.h == h)
    ensures var s' := Perform(s, a);
            h < |s'.world.handlers| && h < |s'.pcs| && Measure(s', h) <= Measure(s, h)
  {
    ActMirrors(s, w, a);
    OthersPc(s, a, h);
    OthersLinear(s, a, h);
    var fs := Linear(s, a);
    if fs != [] {
      OneFineStep(w, fs[0]);
      OthersStay(w, fs[0], h);
    }
    CancelledLeft(w.handlers[h], Perform(s, a).world.handlers[h], s.pcs[h]);
  }

  function OwnActs(s: System, acts: seq<Act>, h: nat): nat
    decreases |acts|
  {
    if acts == [] then 0
    else (if acts[0].HandlerAct? && acts[0].h == h && HandlerCan(s, h) then 1 else 0)
         + OwnActs(Perform(s, acts[0]), acts[1..], h)
  }

  lemma {:induction false} OwnActsMeasured(s: System, w: World, acts: seq<Act>, h: nat)
    requires Mirrors(s, w) && GoodWorld(w) && Exclusive(s) && h < |s.pcs|
    ensures OwnActs(s, acts, h) <= Measure(s, h)
    decreases |acts|
  {
    if acts != [] {
      ActMirrors(s, w, acts[0]);
      PerformExclusive(s, acts[0]);
      FineRunGood(w, Linear(s, acts[0]));
      if acts[0].HandlerAct? && acts[0].h == h {
        if HandlerCan(s, h) { OwnActDescends(s, w, h, acts[0].reply); }
      } else {
        OtherActsKeep(s, w, acts[0], h);
      }
      OwnActsMeasured(Perform(s, acts[0]), FineRun(w, Linear(s, acts[0])), acts[1..], h);
    }
  }

  /**
   However tasks are scheduled, a request performs at most 171 acts of its own, lock handling and
   single writes included.
   */
  lemma OwnActsBounded(config: Config, clock: real, before: seq<Act>, tier: Tier, sla: real, after: seq<Act>)
    ensures var s := PerformAll(Initially(config, clock), before);
            OwnActs(Perform(s, Outer(Arrive(tier, sla))), after, |s.pcs|) <= 171
  {
    Reached(config, clock, before);
    var s, w := PerformAll(Initially(config, clock), before), AtomicWorld(config, clock, before);
    var a := Outer(Arrive(tier, sla));
    ActMirrors(s, w, a);
    PerformExclusive(s, a);
    FineRunGood(w, Linear(s, a));
    OwnActsMeasured(Perform(s, a), FineRun(w, Linear(s, a)), after, |s.pcs|);
  }
}
