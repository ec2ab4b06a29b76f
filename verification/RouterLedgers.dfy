/**
 Every manager's ledger goes through a run of its own operations, so what is proved of ledger runs
 holds of the endpoint.
 */
module RouterLedgers {
  import opened Amounts
  import opened Ledgers
  import opened Spending
  import opened Overspend
  import opened Routers
  import opened RouterInvariant
  import opened RouterPreservation

  // ---------- every ledger's history is a run of the ledger ----------

  /** The operation a step of the world performs on the k-th ledger; none before it exists. */
  function StepLog(w: World, s: Step, k: nat): seq<Event> {
    match s
    case Move(h, reply) =>
      if h < |w.handlers| && w.handlers[h].refs.bm == k && k < |w.ledgers| then
        var e := StepEvent(w.handlers[h], w.config.remoteCost, w.clock);
        if e.Some? then [e.value] else []
      else []
    case Reap(readings) => if ReadingsFit(w, readings) && w.app.bm == k then [SweepCall(readings)] else []
    case _ => []
  }

  function Log(w: World, steps: seq<Step>, k: nat): seq<Event>
    decreases |steps|
  {
    if steps == [] then [] else StepLog(w, steps[0], k) + Log(Do(w, steps[0]), steps[1..], k)
  }

  /** The k-th ledger; a manager yet to be created starts from a fresh one. */
  function LedgerAt(w: World, k: nat): Ledger {
    if k < |w.ledgers| then w.ledgers[k] else Fresh(w.config.cap, w.config.ttl)
  }

  lemma StepLogged(w: World, s: Step, k: nat)
    requires WorldInv(w)
    ensures LedgerAt(Do(w, s), k) == Run(LedgerAt(w, k), StepLog(w, s, k))
    ensures |StepLog(w, s, k)| <= 1
  {
    if s.Move? && s.h < |w.handlers| {
      assert AtHome(w.handlers[s.h], |w.ledgers|);
      MoveStaysHome(w, s.h, s.reply);
      if w.handlers[s.h].refs.bm == k {
        var v := View(w.ledgers[k], w.queues[k], w.trackers[k], w.handlers[s.h]);
        AdvanceLedger(v, k, w.config.remoteCost, w.clock, s.reply);
      }
    }
  }

  /**
   The endpoint refines the ledger: whatever handlers, reaper and resets do, each manager's
   ledger, from its creation on, goes through a run of its own four operations, so every theorem
   about ledger runs holds of it.
   */
  lemma {:induction false} EveryLedgerIsARun(w: World, steps: seq<Step>, k: nat)
    requires WorldInv(w)
    ensures LedgerAt(RunAll(w, steps), k) == Run(LedgerAt(w, k), Log(w, steps, k))
    decreases |steps|
  {
    if steps != [] {
      StepInv(w, steps[0]);
      StepLogged(w, steps[0], k);
      EveryLedgerIsARun(Do(w, steps[0]), steps[1..], k);
      RunConcat(LedgerAt(w, k), StepLog(w, steps[0], k), Log(Do(w, steps[0]), steps[1..], k));
    }
  }

  /** The largest number of the k-th manager's reservations that were active at once, along this very run. */
  function PeakActive(w: World, steps: seq<Step>, k: nat): nat
    decreases |steps|
  {
    var rest := if steps == [] then 0 else PeakActive(Do(w, steps[0]), steps[1..], k);
    if |LedgerAt(w, k).active| >= rest then |LedgerAt(w, k).active| else rest
  }

  lemma ShortPeak(l: Ledger, es: seq<Event>)
    requires |es| <= 1
    ensures Peak(l, es) == if |l.active| >= |Run(l, es).active| then |l.active| else |Run(l, es).active|
  {
    if es != [] { assert Run(l, es) == Run(Apply(l, es[0]), []); }
  }

  lemma {:induction false} PeakIsSeen(w: World, steps: seq<Step>, k: nat)
    requires WorldInv(w)
    ensures Peak(LedgerAt(w, k), Log(w, steps, k)) == PeakActive(w, steps, k)
    decreases |steps|
  {
    if steps != [] {
      StepInv(w, steps[0]);
      StepLogged(w, steps[0], k);
      PeakIsSeen(Do(w, steps[0]), steps[1..], k);
      ShortPeak(LedgerAt(w, k), StepLog(w, steps[0], k));
      PeakConcat(LedgerAt(w, k), StepLog(w, steps[0], k), Log(Do(w, steps[0]), steps[1..], k));
      PeakCoversEnd(LedgerAt(Do(w, steps[0]), k), Log(Do(w, steps[0]), steps[1..], k));
    }
  }

  /**
   Every manager ever created, before or after resets, obeys the overspend bound, for the peak of
   simultaneous reservations that this run has seen there.
   */
  lemma EndpointOverspend(config: Config, clock: real, steps: seq<Step>, k: nat)
    requires config.cap.NonNegative() && k < |RunAll(Start(config, clock), steps).ledgers|
    ensures var l := RunAll(Start(config, clock), steps).ledgers[k];
            var peak := PeakActive(Start(config, clock), steps, k);
            && |l.active| <= peak
            && l.spent.cost + l.reserved.cost
               <= config.cap.cost + 0.000000000001 + 0.000000001 * (peak - |l.active|) as real
            && l.spent.latency <= config.cap.latency + 0.000000001
  {
    var w0 := Start(config, clock);
    StartInv(config, clock);
    EveryLedgerIsARun(w0, steps, k);
    PeakIsSeen(w0, steps, k);
    OverspendBounded(config.cap, config.ttl, Log(w0, steps, k));
  }
}
