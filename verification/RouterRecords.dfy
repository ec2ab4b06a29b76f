/**
 What the endpoint learns: every latency estimate is made of exactly what its own requests measured,
 each recorded once, for the backend that answered.
 */
module RouterRecords {
  import opened Amounts
  import opened Options
  import opened Routing
  import opened Routers
  import opened RouterInvariant
  import opened RouterPreservation
  import opened RouterProgress
  import E = LatencyEstimates

  // ---------- a handler's route, result and place agree ----------

  /** What a handler has to record: the latency of its answer, for remote if that is its route, else for local. */
  function UseOf(x: Handler): E.Use {
    var backend := if x.route == Some(ToRemote) then E.Remote else E.Local;
    match x.result
    case Ran(charged) => E.Recorded(backend, charged.latency)
    case FellBack(latency) => E.Recorded(backend, latency)
    case Unknown => E.WasReset
  }

  /** Where the handler is fits the route it was given and the answer it got. */
  predicate Consistent(x: Handler) {
    match x.phase
    case InRemote => x.route == Some(ToRemote) && x.result == Unknown
    case WantsSlot => x.route in {Some(ToLocal), Some(ToQueueLocal)} && x.result == Unknown
    case InLocal => x.route in {Some(ToLocal), Some(ToQueueLocal)} && x.result == Unknown
    case Settling(charged, inSlot) =>
      && x.route.Some? && x.route != Some(FailFast) && (inSlot <==> x.route != Some(ToRemote))
      && x.result == Ran(charged)
    case Reviewing(latency, inSlot) =>
      && (inSlot <==> x.route != Some(ToRemote)) && x.result.Ran? && x.result.charged.latency == latency
    case Leaving(None, latency) =>
      x.route != Some(ToRemote) && x.result.Ran? && x.result.charged.latency == latency
    case Leaving(Some(f), _) => f == RemoteFailure ==> x.result == Unknown
    case Handling(f) => f == RemoteFailure ==> x.result == Unknown
    case Returning(f) => f == RemoteFailure ==> x.result == Unknown
    case LeavingFallback(None, latency) => x.route == Some(ToQueueLocal) && x.result == FellBack(latency)
    case LeavingFallback(_, _) => true
    case Recording(b, latency) => !x.result.Unknown? && UseOf(x) == E.Recorded(b, latency)
    case Reporting => !x.result.Unknown?
    case Finished(r) => r == Answered ==> !x.result.Unknown?
    case _ => x.result == Unknown
  }

  ghost predicate AllConsistent(w: World) {
    forall h :: 0 <= h < |w.handlers| ==> Consistent(w.handlers[h])
  }

  lemma AdvanceConsistent(v: View, home: nat, remoteCost: real, now: real, reply: BackendReply)
    requires Consistent(v.handler)
    ensures Consistent(Advance(v, home, remoteCost, now, reply).handler)
  {}

  lemma StepConsistent(w: World, s: Step)
    requires WorldInv(w) && AllConsistent(w)
    ensures AllConsistent(Do(w, s))
  {
    if s.Move? && s.h < |w.handlers| {
      assert AtHome(w.handlers[s.h], |w.ledgers|);
      MoveStaysHome(w, s.h, s.reply);
      AdvanceConsistent(HomeView(w, s.h), w.handlers[s.h].refs.bm, w.config.remoteCost, w.clock, s.reply);
    }
  }

  lemma {:induction false} RunConsistent(w: World, steps: seq<Step>)
    requires WorldInv(w) && AllConsistent(w)
    ensures AllConsistent(RunAll(w, steps))
    decreases |steps|
  {
    if steps != [] {
      StepConsistent(w, steps[0]);
      StepInv(w, steps[0]);
      RunConsistent(Do(w, steps[0]), steps[1..]);
    }
  }

  // ---------- what is recorded ----------

  /** The step takes a handler of the k-th managers past its recording. */
  predicate RecordsFor(w: World, s: Step, h: nat) {
    s.Move? && s.h == h && h < |w.handlers| && w.handlers[h].phase.Recording?
  }

  function StepUses(w: World, s: Step, k: nat): seq<E.Use> {
    if s.Move? && RecordsFor(w, s, s.h) && w.handlers[s.h].refs.lt == k then [UseOf(w.handlers[s.h])] else []
  }

  /** What the handlers of the k-th managers have recorded, in that order. */
  function Uses(w: World, steps: seq<Step>, k: nat): seq<E.Use>
    decreases |steps|
  {
    if steps == [] then [] else StepUses(w, steps[0], k) + Uses(Do(w, steps[0]), steps[1..], k)
  }

  /** The k-th tracker; one yet to be created starts from the seeds. */
  function TrackerAt(w: World, k: nat): E.Tracker {
    if k < |w.trackers| then w.trackers[k] else E.Seeded(w.config.settings)
  }

  lemma StepRecorded(w: World, s: Step, k: nat)
    requires WorldInv(w) && AllConsistent(w)
    ensures TrackerAt(Do(w, s), k) == E.History(TrackerAt(w, k), StepUses(w, s, k))
  {
    if s.Move? && s.h < |w.handlers| {
      assert AtHome(w.handlers[s.h], |w.ledgers|) && Consistent(w.handlers[s.h]);
      MoveStaysHome(w, s.h, s.reply);
      if StepUses(w, s, k) != [] {
        var use := UseOf(w.handlers[s.h]);
        assert [use][1..] == [];
        assert E.History(TrackerAt(w, k), [use]) == E.Record(TrackerAt(w, k), use.backend, use.latency);
      }
    }
  }

  lemma {:induction false} HistoryConcat(t: E.Tracker, us: seq<E.Use>, vs: seq<E.Use>)
    ensures E.History(t, us + vs) == E.History(E.History(t, us), vs)
    decreases |us|
  {
    if us == [] {
      assert us + vs == vs;
    } else {
      assert (us + vs)[0] == us[0] && (us + vs)[1..] == us[1..] + vs;
      match us[0]
      case Recorded(b, x) => HistoryConcat(E.Record(t, b, x), us[1..], vs);
      case WasReset => HistoryConcat(E.Reset(t), us[1..], vs);
    }
  }

  lemma {:induction false} RunRecorded(w: World, steps: seq<Step>, k: nat)
    requires WorldInv(w) && AllConsistent(w)
    ensures TrackerAt(RunAll(w, steps), k) == E.History(TrackerAt(w, k), Uses(w, steps, k))
    decreases |steps|
  {
    if steps != [] {
      StepRecorded(w, steps[0], k);
      StepConsistent(w, steps[0]);
      StepInv(w, steps[0]);
      RunRecorded(Do(w, steps[0]), steps[1..], k);
      HistoryConcat(TrackerAt(w, k), StepUses(w, steps[0], k), Uses(Do(w, steps[0]), steps[1..], k));
    }
  }

  /**
   In every run, every tracker, those that resets create included, is what its seeds become by the
   latencies that the handlers of its own managers measured, in the order they recorded them: each
   for remote if the handler's route is remote, else for local.
   */
  lemma TrackersLearnExactly(config: Config, clock: real, steps: seq<Step>, k: nat)
    requires k < |RunAll(Start(config, clock), steps).trackers|
    ensures RunAll(Start(config, clock), steps).trackers[k]
         == E.History(E.Seeded(config.settings), Uses(Start(config, clock), steps, k))
  {
    StartInv(config, clock);
    RunRecorded(Start(config, clock), steps, k);
  }

  /**
   So an estimate of the k-th tracker is at least the average and every observation in the window,
   and one of them: the average in closed form over all that was recorded for that backend, the
   window its last observations.
   */
  lemma EndpointEstimates(config: Config, clock: real, steps: seq<Step>, k: nat, b: E.Backend)
    requires k < |RunAll(Start(config, clock), steps).trackers|
    ensures var t := RunAll(Start(config, clock), steps).trackers[k];
            var xs := E.Observed(Uses(Start(config, clock), steps, k), b, []);
            var seed := if b == E.Remote then config.settings.remoteSeed else config.settings.localSeed;
            var average := E.Closed(config.settings.alpha, xs, seed);
            E.LargestOf(E.EstimateOf(t, b), average, xs, config.settings.size)
  {
    TrackersLearnExactly(config, clock, steps, k);
    E.EstimateExact(config.settings, Uses(Start(config, clock), steps, k), b);
  }

  // ---------- each request once ----------

  /** How often a handler records. */
  function Recordings(w: World, steps: seq<Step>, h: nat): nat
    decreases |steps|
  {
    if steps == [] then 0
    else (if RecordsFor(w, steps[0], h) then 1 else 0) + Recordings(Do(w, steps[0]), steps[1..], h)
  }

  /** The handler has come past its recording, or to its end. */
  predicate Past(p: Phase) {
    p.Reporting? || p.Finished?
  }

  ghost predicate PastAt(w: World, h: nat) {
    h < |w.handlers| && Past(w.handlers[h].phase)
  }

  lemma StepPast(w: World, s: Step, h: nat)
    requires WorldInv(w) && AllConsistent(w)
    ensures PastAt(w, h) ==> PastAt(Do(w, s), h) && !RecordsFor(w, s, h)
    ensures RecordsFor(w, s, h) ==> PastAt(Do(w, s), h) && Do(w, s).handlers[h].phase == Reporting
    ensures PastAt(w, h) && Do(w, s).handlers[h].phase in {Reporting, Finished(Answered)} ==>
              w.handlers[h].phase in {Reporting, Finished(Answered)}
    ensures !PastAt(w, h) && !RecordsFor(w, s, h) && PastAt(Do(w, s), h) ==>
              Do(w, s).handlers[h].phase !in {Reporting, Finished(Answered)}
  {
    if s.Move? && s.h < |w.handlers| {
      assert AtHome(w.handlers[s.h], |w.ledgers|);
      MoveStaysHome(w, s.h, s.reply);
    }
  }

  lemma {:induction false} RecordingsFrom(w: World, steps: seq<Step>, h: nat)
    requires WorldInv(w) && AllConsistent(w)
    ensures var w' := RunAll(w, steps);
            && (PastAt(w, h) ==>
                  && Recordings(w, steps, h) == 0 && PastAt(w', h)
                  && (w'.handlers[h].phase in {Reporting, Finished(Answered)} ==>
                        w.handlers[h].phase in {Reporting, Finished(Answered)}))
            && (!PastAt(w, h) ==>
                  && Recordings(w, steps, h) <= 1
                  && (!PastAt(w', h) ==> Recordings(w, steps, h) == 0)
                  && (PastAt(w', h) && w'.handlers[h].phase in {Reporting, Finished(Answered)} ==>
                        Recordings(w, steps, h) == 1))
    decreases |steps|
  {
    if steps != [] {
      StepPast(w, steps[0], h);
      StepConsistent(w, steps[0]);
      StepInv(w, steps[0]);
      RecordingsFrom(Do(w, steps[0]), steps[1..], h);
    }
  }

  /** In every run a request records at most once, and exactly once if it is answered. */
  lemma RecordedOnce(config: Config, clock: real, steps: seq<Step>, h: nat)
    requires h < |RunAll(Start(config, clock), steps).handlers|
    ensures var n := Recordings(Start(config, clock), steps, h);
            && n <= 1
            && (RunAll(Start(config, clock), steps).handlers[h].phase == Finished(Answered) ==> n == 1)
  {
    StartInv(config, clock);
    RecordingsFrom(Start(config, clock), steps, h);
  }

  // ---------- what the backend said ----------

  /** The n-th step gave handler `h` this answer. */
  ghost predicate AnswersAt(w0: World, steps: seq<Step>, n: nat, h: nat, cost: real, latency: real) {
    && n < |steps| && steps[n] == Move(h, Answer(cost, latency))
    && var w := RunAll(w0, steps[..n]);
       h < |w.handlers| && w.handlers[h].result == Unknown && w.handlers[h].phase in {InRemote, InLocal, InFallback}
  }

  /** The result is what the backend answered; only a remote route is charged money. */
  predicate ResultIs(x: Handler, cost: real, latency: real) {
    match x.result
    case Unknown => false
    case Ran(charged) => charged == Amount(if x.route == Some(ToRemote) then cost else 0.0, latency)
    case FellBack(l) => l == latency
  }

  ghost predicate ResultHeard(w0: World, steps: seq<Step>, h: nat, x: Handler) {
    !x.result.Unknown? ==>
      exists n: nat, cost, latency :: AnswersAt(w0, steps, n, h, cost, latency) && ResultIs(x, cost, latency)
  }

  lemma AdvanceResult(v: View, home: nat, remoteCost: real, now: real, reply: BackendReply)
    requires Consistent(v.handler)
    ensures var x, x' := v.handler, Advance(v, home, remoteCost, now, reply).handler;
            && (!x.result.Unknown? ==> x'.result == x.result && x'.route == x.route)
            && (x.result.Unknown? && !x'.result.Unknown? ==>
                  && reply.Answer? && x.phase in {InRemote, InLocal, InFallback}
                  && ResultIs(x', reply.cost, reply.latency))
  {}

  lemma HeardLonger(w0: World, steps: seq<Step>, s: Step, h: nat, x: Handler)
    requires ResultHeard(w0, steps, h, x)
    ensures ResultHeard(w0, steps + [s], h, x)
  {
    if !x.result.Unknown? {
      var n: nat, cost, latency :| AnswersAt(w0, steps, n, h, cost, latency) && ResultIs(x, cost, latency);
      assert (steps + [s])[..n] == steps[..n] && (steps + [s])[n] == steps[n];
      assert AnswersAt(w0, steps + [s], n, h, cost, latency);
    }
  }

  lemma MoveHeard(w0: World, steps: seq<Step>, h: nat, reply: BackendReply)
    requires var w := RunAll(w0, steps);
             WorldInv(w) && AllConsistent(w) && h < |w.handlers| && ResultHeard(w0, steps, h, w.handlers[h])
    ensures ResultHeard(w0, steps + [Move(h, reply)], h, Stepped(RunAll(w0, steps), h, reply).handler)
  {
    var w, s := RunAll(w0, steps), Move(h, reply);
    var x, x' := w.handlers[h], Stepped(w, h, reply).handler;
    HeardLonger(w0, steps, s, h, x);
    AdvanceResult(HomeView(w, h), x.refs.bm, w.config.remoteCost, w.clock, reply);
    if !x.result.Unknown? {
      var n: nat, cost, latency :| AnswersAt(w0, steps + [s], n, h, cost, latency) && ResultIs(x, cost, latency);
      assert ResultIs(x', cost, latency);
    } else if !x'.result.Unknown? {
      assert (steps + [s])[..|steps|] == steps;
      assert AnswersAt(w0, steps + [s], |steps|, h, reply.cost, reply.latency);
    }
  }

  lemma {:induction false} ResultsHeard(w0: World, steps: seq<Step>, h: nat)
    requires WorldInv(w0) && w0.handlers == [] && h < |RunAll(w0, steps).handlers|
    ensures ResultHeard(w0, steps, h, RunAll(w0, steps).handlers[h])
    decreases |steps|
  {
    if steps != [] {
      var init, s := steps[..|steps| - 1], steps[|steps| - 1];
      assert steps == init + [s];
      RunKeepsInv(w0, init);
      RunConsistent(w0, init);
      RunSnoc(w0, init, s);
      var w := RunAll(w0, init);
      if h < |w.handlers| {
        ResultsHeard(w0, init, h);
        if s.Move? && s.h == h {
          MoveStaysHome(w, h, s.reply);
          MoveHeard(w0, init, h, s.reply);
        } else {
          HeardLonger(w0, init, s, h, w.handlers[h]);
          if s.Move? && s.h < |w.handlers| { MoveStaysHome(w, s.h, s.reply); }
        }
      }
    }
  }

  /**
   In every run, what a request is charged and what it records is what its backend answered: the
   latency always, the cost if its route was remote and nothing otherwise.
   */
  lemma ResultIsTheAnswer(config: Config, clock: real, steps: seq<Step>, h: nat)
    requires h < |RunAll(Start(config, clock), steps).handlers|
    ensures ResultHeard(Start(config, clock), steps, h, RunAll(Start(config, clock), steps).handlers[h])
  {
    StartInv(config, clock);
    ResultsHeard(Start(config, clock), steps, h);
  }
}
