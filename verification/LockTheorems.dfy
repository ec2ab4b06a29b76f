/**
 The endpoint's theorems with the locks explicit: no leak, the overspend bound, billing, and no
 invalid reservation call, for every interleaving of acts inside and outside critical sections.
 */
module LockTheorems {
  import opened Amounts
  import opened Ledgers
  import opened Spending
  import opened Overspend
  import opened Routers
  import opened RouterInvariant
  import opened RouterPreservation
  import opened RouterProgress
  import opened RouterTheorems
  import opened RouterLedgers
  import opened RouterBilling
  import opened Locks
  import opened LockSections
  import opened LockRefinement
  import Q = QueueMonitors

  // ---------- no leak ----------

  /** No leak, with the locks explicit and sweeps interleaved: at rest, nothing is held and nothing reserved. */
  lemma LockedNoLeak(config: Config, clock: real, acts: seq<Act>, k: nat)
    requires var s := PerformAll(Initially(config, clock), acts);
             && s.locked == {} && k < |s.world.ledgers| && k < |s.world.swept|
             && Quiet(s.world) && OrphansSwept(s.world, k)
    ensures var s := PerformAll(Initially(config, clock), acts);
            && s.world.ledgers[k].active == [] && s.world.ledgers[k].reserved == ZERO
            && k < |s.world.queues| && s.world.queues[k] == Q.Idle(s.world.config.capacity)
  {
    LockedRunsAreAtomic(config, clock, acts);
    NoLeakAt(AtomicWorld(config, clock, acts), k);
  }

  // ---------- the overspend bound ----------

  /** The ledger operation an atomic step performs; taking one entry of a sweep is a rollback. */
  function FineEvents(w: World, f: FineStep, k: nat): seq<Event> {
    match f
    case Whole(step) => StepLog(w, step, k)
    case Lapse(id) => if FineDo(w, f) != w && k == w.app.bm then [RollbackCall(id)] else []
    case Complete(_) => []
  }

  function FineLog(w: World, fs: seq<FineStep>, k: nat): seq<Event>
    decreases |fs|
  {
    if fs == [] then [] else FineEvents(w, fs[0], k) + FineLog(FineDo(w, fs[0]), fs[1..], k)
  }

  lemma FineLogged(w: World, f: FineStep, k: nat)
    requires WorldInv(w)
    ensures LedgerAt(FineDo(w, f), k) == Run(LedgerAt(w, k), FineEvents(w, f, k))
    ensures |FineEvents(w, f, k)| <= 1
  {
    match f
    case Whole(step) => StepLogged(w, step, k);
    case Lapse(id) =>
      if FineDo(w, f) != w && k == w.app.bm {
        assert Run(LedgerAt(w, k), [RollbackCall(id)]) == Run(Apply(LedgerAt(w, k), RollbackCall(id)), []);
      }
    case Complete(_) =>
  }

  lemma {:induction false} FineLedgerIsARun(w: World, fs: seq<FineStep>, k: nat)
    requires GoodWorld(w)
    ensures LedgerAt(FineRun(w, fs), k) == Run(LedgerAt(w, k), FineLog(w, fs, k))
    decreases |fs|
  {
    if fs != [] {
      FineDoGood(w, fs[0]);
      FineLogged(w, fs[0], k);
      FineLedgerIsARun(FineDo(w, fs[0]), fs[1..], k);
      RunConcat(LedgerAt(w, k), FineEvents(w, fs[0], k), FineLog(FineDo(w, fs[0]), fs[1..], k));
    }
  }

  function Larger(a: nat, b: nat): nat {
    if a >= b then a else b
  }

  function FinePeak(w: World, fs: seq<FineStep>, k: nat): nat
    decreases |fs|
  {
    Larger(|LedgerAt(w, k).active|, if fs == [] then 0 else FinePeak(FineDo(w, fs[0]), fs[1..], k))
  }

  lemma {:induction false} FinePeakIsSeen(w: World, fs: seq<FineStep>, k: nat)
    requires GoodWorld(w)
    ensures Peak(LedgerAt(w, k), FineLog(w, fs, k)) == FinePeak(w, fs, k)
    decreases |fs|
  {
    if fs != [] {
      FineDoGood(w, fs[0]);
      FineLogged(w, fs[0], k);
      FinePeakIsSeen(FineDo(w, fs[0]), fs[1..], k);
      ShortPeak(LedgerAt(w, k), FineEvents(w, fs[0], k));
      PeakConcat(LedgerAt(w, k), FineEvents(w, fs[0], k), FineLog(FineDo(w, fs[0]), fs[1..], k));
      PeakCoversEnd(LedgerAt(FineDo(w, fs[0]), k), FineLog(FineDo(w, fs[0]), fs[1..], k));
    }
  }

  /** The largest number of reservations the k-th dictionary has held along this very run of acts. */
  function LockedPeak(s: System, acts: seq<Act>, k: nat): nat
    decreases |acts|
  {
    Larger(|LedgerAt(s.world, k).active|, if acts == [] then 0 else LockedPeak(Perform(s, acts[0]), acts[1..], k))
  }

  /** Only a section that writes it changes a ledger. */
  lemma MoveWrites(w: World, h: nat, reply: BackendReply, k: nat)
    requires WorldInv(w) && h < |w.handlers| && LedgerAt(Do(w, Move(h, reply)), k) != LedgerAt(w, k)
    ensures k == w.handlers[h].refs.bm && Transacts(w.handlers[h], w.config.remoteCost)
  {
    assert AtHome(w.handlers[h], |w.ledgers|);
    MoveStaysHome(w, h, reply);
    AdvanceLedger(HomeView(w, h), w.handlers[h].refs.bm, w.config.remoteCost, w.clock, reply);
    TransactsAlways(w.handlers[h], w.config.remoteCost, w.clock);
  }

  /** The task that just completed a section's atomic step still holds its lock, with nothing left to write. */
  lemma MoverIsDone(s: System, w: World, h: nat, reply: BackendReply)
    requires Mirrors(s, w) && HandlerCan(s, h) && Linear(s, HandlerAct(h, reply)) != []
    requires Transacts(w.handlers[h], w.config.remoteCost)
    ensures var s' := HandlerDoes(s, h, reply);
            h < |s'.pcs| && s'.pcs[h] == Inside(BudgetLock(w.handlers[h].refs.bm), Done)
  {
    assert PcMirrors(s.world, w, s.pcs[h], w.handlers[h]);
  }

  lemma HandlerWrites(s: System, w: World, h: nat, reply: BackendReply, k: nat)
    requires Mirrors(s, w) && GoodWorld(w) && HandlerCan(s, h)
    requires Linear(s, HandlerAct(h, reply)) == [Whole(Move(h, reply))]
    requires LedgerAt(Do(w, Move(h, reply)), k) != LedgerAt(w, k)
    ensures h < |HandlerDoes(s, h, reply).pcs| && HandlerDoes(s, h, reply).pcs[h] == Inside(BudgetLock(k), Done)
  {
    MoveWrites(w, h, reply, k);
    MoverIsDone(s, w, h, reply);
  }

  /** A manager whose holder has nothing left to write is written in full. */
  lemma DoneIsWritten(s: System, w: World, h: nat, k: nat)
    requires Mirrors(s, w) && h < |s.pcs| && s.pcs[h] == Inside(BudgetLock(k), Done)
    ensures LedgerAt(s.world, k) == LedgerAt(w, k)
  {
    assert PcMirrors(s.world, w, s.pcs[h], w.handlers[h]);
  }

  lemma UnheldIsWritten(s: System, w: World, k: nat)
    requires Mirrors(s, w) && !HandlerHolds(s, BudgetLock(k))
    ensures LedgerAt(s.world, k) == LedgerAt(w, k)
  {
    assert LedgerMirrors(s, w, k);
  }

  /** A ledger that an act changes atomically is, after the act, written in full. */
  lemma ActWrites(s: System, w: World, a: Act, k: nat)
    requires Mirrors(s, w) && GoodWorld(w) && Exclusive(s)
    ensures var w' := FineRun(w, Linear(s, a));
            LedgerAt(w', k) == LedgerAt(w, k) || LedgerAt(Perform(s, a).world, k) == LedgerAt(w', k)
  {
    var s', fs := Perform(s, a), Linear(s, a);
    if fs != [] && LedgerAt(FineRun(w, fs), k) != LedgerAt(w, k) {
      OneFineStep(w, fs[0]);
      ActMirrors(s, w, a);
      if a.HandlerAct? {
        HandlerWrites(s, w, a.h, a.reply, k);
        DoneIsWritten(s', FineRun(w, fs), a.h, k);
      } else if a.ReaperAct? {
        ReaperUnheld(s, w, k);
        UnheldIsWritten(s', FineRun(w, fs), k);
      }
    }
  }

  lemma ReaperUnheld(s: System, w: World, k: nat)
    requires Mirrors(s, w) && GoodWorld(w) && Exclusive(s) && ReaperCan(s) && Linear(s, ReaperAct) != []
    requires k == w.app.bm
    ensures !HandlerHolds(ReaperDoes(s), BudgetLock(k))
  {
    ReaperAlone(s, w);
    if HandlerHolds(ReaperDoes(s), BudgetLock(k)) { SamePcs(ReaperDoes(s), s, BudgetLock(k)); }
  }

  lemma {:induction false} PeakFollows(s: System, w: World, acts: seq<Act>, k: nat)
    requires Mirrors(s, w) && GoodWorld(w) && Exclusive(s)
    ensures FinePeak(w, LinearAll(s, acts), k) <= Larger(|LedgerAt(w, k).active|, LockedPeak(s, acts, k))
    decreases |acts|
  {
    if acts != [] {
      var s', fs := Perform(s, acts[0]), Linear(s, acts[0]);
      ActMirrors(s, w, acts[0]);
      PerformExclusive(s, acts[0]);
      FineRunGood(w, fs);
      ActWrites(s, w, acts[0], k);
      PeakFollows(s', FineRun(w, fs), acts[1..], k);
      if fs == [] {
        assert LinearAll(s, acts) == LinearAll(s', acts[1..]);
      } else {
        OneFineStep(w, fs[0]);
        assert LinearAll(s, acts)[0] == fs[0] && LinearAll(s, acts)[1..] == LinearAll(s', acts[1..]);
      }
    }
  }

  lemma {:induction false} FineConfig(w: World, fs: seq<FineStep>)
    ensures FineRun(w, fs).config == w.config
    decreases |fs|
  {
    if fs != [] { FineConfig(FineDo(w, fs[0]), fs[1..]); }
  }

  /**
   The overspend bound with the locks explicit: whenever a manager's lock is free, what is spent and
   reserved there is bounded by the peak of reservations its dictionary has held in this very run,
   the states in the middle of sections included.
   */
  lemma LockedOverspend(config: Config, clock: real, acts: seq<Act>, k: nat)
    requires config.cap.NonNegative()
    requires var s := PerformAll(Initially(config, clock), acts);
             k < |s.world.ledgers| && BudgetLock(k) !in s.locked
    ensures var s0, s := Initially(config, clock), PerformAll(Initially(config, clock), acts);
            var l, peak := s.world.ledgers[k], LockedPeak(s0, acts, k);
            && |l.active| <= peak
            && l.spent.cost + l.reserved.cost
               <= config.cap.cost + 0.000000000001 + 0.000000001 * (peak - |l.active|) as real
            && l.spent.latency <= config.cap.latency + 0.000000001
  {
    var s0, w0 := Initially(config, clock), Start(config, clock);
    var fs := LinearAll(s0, acts);
    StartInv(config, clock);
    LockedRunsAreAtomic(config, clock, acts);
    PeakFollows(s0, w0, acts, k);
    FineOverspend(config, clock, fs, k, LockedPeak(s0, acts, k));
  }

  lemma FineOverspend(config: Config, clock: real, fs: seq<FineStep>, k: nat, peak: nat)
    requires config.cap.NonNegative() && FinePeak(Start(config, clock), fs, k) <= peak
    ensures var l := LedgerAt(FineRun(Start(config, clock), fs), k);
            && |l.active| <= peak
            && l.spent.cost + l.reserved.cost
               <= config.cap.cost + 0.000000000001 + 0.000000001 * (peak - |l.active|) as real
            && l.spent.latency <= config.cap.latency + 0.000000001
  {
    var w0, es := Start(config, clock), FineLog(Start(config, clock), fs, k);
    StartInv(config, clock);
    FineLedgerIsARun(w0, fs, k);
    FinePeakIsSeen(w0, fs, k);
    OverspendUpTo(config.cap, config.ttl, es, peak);
  }

  // ---------- billing ----------

  lemma LapseBills(w: World, id: nat)
    requires WorldInv(w) && BillsFit(w)
    ensures BillsFit(FineDo(w, Lapse(id)))
  {
    var k, w' := w.app.bm, FineDo(w, Lapse(id));
    if w' != w {
      assert Sound(w, k);
      forall i | 0 <= i < |w.handlers|
        ensures BillFits(w'.ledgers[w'.handlers[i].refs.bm], w'.handlers[i])
      {
        assert ClaimFits(w.ledgers[w.handlers[i].refs.bm], w.handlers[i]);
        if w.handlers[i].refs.bm == k { OthersBill(w.ledgers[k], RollbackCall(id), w.handlers[i]); }
      }
    }
  }

  lemma {:induction false} FineBills(w: World, fs: seq<FineStep>)
    requires GoodWorld(w) && BillsFit(w)
    ensures BillsFit(FineRun(w, fs))
    decreases |fs|
  {
    if fs != [] {
      match fs[0] {
        case Whole(step) => StepBills(w, step);
        case Lapse(id) => LapseBills(w, id);
        case Complete(_) =>
      }
      FineDoGood(w, fs[0]);
      FineBills(FineDo(w, fs[0]), fs[1..]);
    }
  }

  /**
   Billing with the locks explicit: whenever the manager's lock is free, a request that was answered
   by the backend it was routed to has been committed there exactly once, at what that charges, and
   one that failed, was turned away or fell back has been rolled back and pays nothing.
   */
  lemma LockedBilling(config: Config, clock: real, acts: seq<Act>, h: nat)
    requires var s := PerformAll(Initially(config, clock), acts);
             h < |s.world.handlers| && BudgetLock(s.world.handlers[h].refs.bm) !in s.locked
    ensures var w := PerformAll(Initially(config, clock), acts).world;
            w.handlers[h].refs.bm < |w.ledgers| && PaysRight(w.ledgers[w.handlers[h].refs.bm], w.handlers[h])
  {
    Reached(config, clock, acts);
    LockedRunsAreAtomic(config, clock, acts);
    StartInv(config, clock);
    FineBills(Start(config, clock), LinearAll(Initially(config, clock), acts));
    var w := AtomicWorld(config, clock, acts);
    var x := w.handlers[h];
    assert AtHome(x, |w.ledgers|) && Sound(w, x.refs.bm) && ClaimFits(w.ledgers[x.refs.bm], x);
    BillSettled(w.ledgers[x.refs.bm], x);
  }

  // ---------- no invalid reservation call ----------

  predicate FineActs(acts: seq<Act>, alpha: real) {
    forall i :: 0 <= i < |acts| ==>
      acts[i].HandlerAct? && acts[i].reply.Answer? ==> Fine(acts[i].reply.latency, alpha)
  }

  lemma LinearFine(s: System, w: World, a: Act, alpha: real)
    requires GoodWorld(w) && FineWorld(w) && w.config.settings.alpha == alpha
    requires a.HandlerAct? && a.reply.Answer? ==> Fine(a.reply.latency, alpha)
    ensures FineWorld(FineRun(w, Linear(s, a)))
  {
    var fs := Linear(s, a);
    if fs != [] {
      OneFineStep(w, fs[0]);
      assert fs == [fs[0]];
      if fs[0].Whole? {
        assert [fs[0].step][0] == fs[0].step;
        StepFine(w, fs[0].step);
      }
    }
  }

  lemma {:induction false} LockedFine(s: System, w: World, acts: seq<Act>)
    requires Mirrors(s, w) && GoodWorld(w) && Exclusive(s)
    requires FineWorld(w) && FineActs(acts, w.config.settings.alpha)
    ensures FineWorld(FineRun(w, LinearAll(s, acts)))
    decreases |acts|
  {
    if acts != [] {
      var s', fs := Perform(s, acts[0]), Linear(s, acts[0]);
      ActMirrors(s, w, acts[0]);
      PerformExclusive(s, acts[0]);
      FineRunGood(w, fs);
      LinearFine(s, w, acts[0], w.config.settings.alpha);
      FineConfig(w, fs);
      forall i | 0 <= i < |acts[1..]| ensures acts[1..][i] == acts[i + 1] {}
      LockedFine(s', FineRun(w, fs), acts[1..]);
      FineRunConcat(w, fs, LinearAll(s', acts[1..]));
    }
  }

  /** Under the configuration's sign conditions no request is turned away by an invalid reservation call. */
  lemma LockedNeverRejected(config: Config, clock: real, acts: seq<Act>, h: nat)
    requires SensibleConfig(config) && FineActs(acts, config.settings.alpha)
    requires h < |PerformAll(Initially(config, clock), acts).world.handlers|
    ensures PerformAll(Initially(config, clock), acts).world.handlers[h].phase != Finished(Rejected)
  {
    StartInv(config, clock);
    LockedRunsAreAtomic(config, clock, acts);
    LockedFine(Initially(config, clock), Start(config, clock), acts);
  }
}
