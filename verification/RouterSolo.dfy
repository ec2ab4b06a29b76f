/**
 One handler moving alone from a fresh start: what the witnesses of the endpoint's theorems are
 built from.
 */
module SoloRuns {
  import opened Amounts
  import opened Ledgers
  import opened Options
  import opened Routing
  import opened Routers
  import opened RouterInvariant
  import opened RouterPreservation
  import E = LatencyEstimates
  import Q = QueueMonitors

  function Drive(v: View, home: nat, remoteCost: real, now: real, replies: seq<BackendReply>): View
    decreases |replies|
  {
    if replies == [] then v
    else Drive(Advance(v, home, remoteCost, now, replies[0]), home, remoteCost, now, replies[1..])
  }

  function Moves(h: nat, replies: seq<BackendReply>): seq<Step> {
    if replies == [] then [] else [Move(h, replies[0])] + Moves(h, replies[1..])
  }

  lemma {:induction false} DriveMoves(w: World, h: nat, replies: seq<BackendReply>)
    requires WorldInv(w) && h < |w.handlers|
    ensures var k, w' := w.handlers[h].refs.bm, RunAll(w, Moves(h, replies));
            && WorldInv(w') && |w'.handlers| == |w.handlers| && w'.handlers[h].refs == w.handlers[h].refs
            && w'.clock == w.clock && w'.config == w.config && w'.app == w.app
            && HomeView(w', h) == Drive(HomeView(w, h), k, w.config.remoteCost, w.clock, replies)
    decreases |replies|
  {
    if replies != [] {
      var s := Move(h, replies[0]);
      assert AtHome(w.handlers[h], |w.ledgers|);
      MoveStaysHome(w, h, replies[0]);
      SteppedClaim(w, h, replies[0]);
      StepInv(w, s);
      DriveMoves(Do(w, s), h, replies[1..]);
      assert Moves(h, replies)[1..] == Moves(h, replies[1..]);
    }
  }

  // ---------- a first request ----------

  predicate Grants(c: Config, want: Amount) {
    Admits(Fresh(c.cap, c.ttl), want)
  }

  function FirstView(c: Config, tier: Tier, sla: real): View {
    View(Fresh(c.cap, c.ttl), Q.Idle(c.capacity), E.Seeded(c.settings),
         Handler(Refs(0, 0, 0, 0), tier, sla, None, None, Unknown, Arrived))
  }

  /** The view of a first handler that was granted `want`, in phase `p` and holding `active` slots. */
  function GrantedView(c: Config, tier: Tier, sla: real, want: Amount, now: real, p: Phase, active: nat): View
    requires active <= c.capacity
  {
    var r := Reservation(0, want, now, c.ttl);
    View(Grant(Fresh(c.cap, c.ttl), want, now), Q.Queue(c.capacity, active, c.capacity - active),
         E.Seeded(c.settings),
         Handler(Refs(0, 0, 0, 0), tier, sla, Some(Claim(0, r)), Some(if tier == Fast then ToLocal else ToRemote),
                 Unknown, p))
  }

  lemma DriveFour(v: View, home: nat, cost: real, now: real, rs: seq<BackendReply>, rest: seq<BackendReply>)
    requires |rs| == 4
    ensures Drive(v, home, cost, now, rs + rest)
         == Drive(Advance(Advance(Advance(Advance(v, home, cost, now, rs[0]), home, cost, now, rs[1]),
                                  home, cost, now, rs[2]), home, cost, now, rs[3]), home, cost, now, rest)
  {
    var all := rs + rest;
    var v1 := Advance(v, home, cost, now, rs[0]);
    var v2 := Advance(v1, home, cost, now, rs[1]);
    var v3 := Advance(v2, home, cost, now, rs[2]);
    assert all[1..][0] == rs[1] && all[1..][1..] == all[2..];
    assert all[2..][0] == rs[2] && all[2..][1..] == all[3..];
    assert all[3..][0] == rs[3] && all[3..][1..] == rest;
    assert Drive(v, home, cost, now, all) == Drive(v1, home, cost, now, all[1..]);
    assert Drive(v1, home, cost, now, all[1..]) == Drive(v2, home, cost, now, all[2..]);
    assert Drive(v2, home, cost, now, all[2..]) == Drive(v3, home, cost, now, all[3..]);
  }

  lemma GrantedIsActive(c: Config, want: Amount, now: real)
    ensures var l, r := Grant(Fresh(c.cap, c.ttl), want, now), Reservation(0, want, now, c.ttl);
            && l.active == [r] && Has(l.active, 0) && Lookup(l.active, 0) == r
            && l.status == [Pending] && l.spent == ZERO && l.cap == c.cap
  {
    assert Grant(Fresh(c.cap, c.ttl), want, now).active[0].id == 0;
  }

  const FOUR := [DONE, DONE, DONE, DONE]

  /** Asked for remote, and granted it, a first request reaches its backend. */
  lemma RemoteStarts(c: Config, now: real)
    requires c.remoteCost >= 0.0 && c.settings.remoteSeed > 0.0
    requires Grants(c, Amount(c.remoteCost, c.settings.remoteSeed))
    ensures var sla, want := c.settings.remoteSeed, Amount(c.remoteCost, c.settings.remoteSeed);
            var v1 := Advance(FirstView(c, Quality, sla), 0, c.remoteCost, now, DONE);
            var v2 := Advance(v1, 0, c.remoteCost, now, DONE);
            Advance(v2, 0, c.remoteCost, now, DONE) == GrantedView(c, Quality, sla, want, now, InRemote, 0)
  {
    var v1 := Advance(FirstView(c, Quality, c.settings.remoteSeed), 0, c.remoteCost, now, DONE);
    assert v1.handler.phase.stage == TryRemote;
  }

  /** A first request's arrival and moves. */
  function Alone(tier: Tier, sla: real, replies: seq<BackendReply>): seq<Step> {
    [Arrive(tier, sla)] + Moves(0, replies)
  }

  lemma SoloRun(c: Config, clock: real, tier: Tier, sla: real, replies: seq<BackendReply>)
    ensures var w := RunAll(Start(c, clock), Alone(tier, sla, replies));
            && WorldInv(w) && |w.handlers| == 1 && |w.ledgers| == 1
            && w.clock == clock && w.config == c && w.app == Refs(0, 0, 0, 0) && w.handlers[0].refs == w.app
            && HomeView(w, 0) == Drive(FirstView(c, tier, sla), 0, c.remoteCost, clock, replies)
  {
    var w0, s := Start(c, clock), Arrive(tier, sla);
    StartInv(c, clock);
    StepInv(w0, s);
    assert HomeView(Do(w0, s), 0) == FirstView(c, tier, sla);
    DriveMoves(Do(w0, s), 0, replies);
    OneStep(w0, s);
    RunAllConcat(w0, [s], Moves(0, replies));
  }
}
