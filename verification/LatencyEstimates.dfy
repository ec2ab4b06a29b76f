/**
 Latency estimation: the maximum of an exponential moving average and a sliding window.
 */
module LatencyEstimates {
  import opened Amounts

  datatype Backend = Local | Remote

  /** One backend's average and its window of recent observations, oldest first. */
  datatype Series = Series(ema: real, window: seq<real>)

  datatype Settings = Settings(alpha: real, size: nat, localSeed: real, remoteSeed: real)

  datatype Tracker = Tracker(settings: Settings, local: Series, remote: Series)

  function Last(xs: seq<real>, n: nat): seq<real> {
    if |xs| <= n then xs else xs[|xs| - n..]
  }

  /** Appending to a deque of bounded length. */
  function Push(window: seq<real>, x: real, size: nat): seq<real> {
    if size == 0 then []
    else if |window| < size then window + [x]
    else window[1 + |window| - size..] + [x]
  }

  /** A named product, so that the proofs can treat products of expressions as terms. */
  function Mul(x: real, y: real): real {
    x * y
  }

  function Mix(alpha: real, x: real, ema: real): real {
    Mul(alpha, x) + Mul(1.0 - alpha, ema)
  }

  function Observe(s: Series, alpha: real, size: nat, x: real): Series {
    Series(Mix(alpha, x, s.ema), Push(s.window, x, size))
  }

  function MaxOf(xs: seq<real>): (m: real)
    requires xs != []
    ensures exists i :: 0 <= i < |xs| && xs[i] == m
    ensures forall i :: 0 <= i < |xs| ==> xs[i] <= m
  {
    if |xs| == 1 then xs[0] else Max(xs[0], MaxOf(xs[1..]))
  }

  function Estimate(s: Series): real {
    if s.window == [] then s.ema else Max(s.ema, MaxOf(s.window))
  }

  // ---------- the tracker ----------

  function Seeded(settings: Settings): Tracker {
    Tracker(settings, Series(settings.localSeed, []), Series(settings.remoteSeed, []))
  }

  function SeriesOf(t: Tracker, b: Backend): Series {
    match b case Local => t.local case Remote => t.remote
  }

  function Record(t: Tracker, b: Backend, x: real): Tracker {
    var s := Observe(SeriesOf(t, b), t.settings.alpha, t.settings.size, x);
    match b case Local => t.(local := s) case Remote => t.(remote := s)
  }

  function EstimateOf(t: Tracker, b: Backend): real {
    Estimate(SeriesOf(t, b))
  }

  // ---------- the window ----------

  function ObserveAll(s: Series, alpha: real, size: nat, xs: seq<real>): Series
    decreases |xs|
  {
    if xs == [] then s else ObserveAll(Observe(s, alpha, size, xs[0]), alpha, size, xs[1..])
  }

  lemma PushIsLast(window: seq<real>, x: real, size: nat)
    requires |window| <= size
    ensures Push(window, x, size) == Last(window + [x], size)
  {}

  /** The window is always the last min(n, size) observations. */
  lemma {:induction false} WindowIsLast(s: Series, alpha: real, size: nat, xs: seq<real>)
    requires |s.window| <= size
    ensures ObserveAll(s, alpha, size, xs).window == Last(s.window + xs, size)
    decreases |xs|
  {
    if xs == [] {
      assert s.window + xs == s.window;
    } else {
      var s' := Observe(s, alpha, size, xs[0]);
      PushIsLast(s.window, xs[0], size);
      WindowIsLast(s', alpha, size, xs[1..]);
      LastOfLast(s.window + [xs[0]], xs[1..], size);
      assert s.window + [xs[0]] + xs[1..] == s.window + xs;
    }
  }

  lemma LastOfLast(xs: seq<real>, ys: seq<real>, size: nat)
    ensures Last(Last(xs, size) + ys, size) == Last(xs + ys, size)
  {}

  // ---------- the average ----------

  function Pow(x: real, n: nat): real {
    if n == 0 then 1.0 else Mul(x, Pow(x, n - 1))
  }

  /** The i-th of n observations enters the average with weight alpha * (1 - alpha)^(n - 1 - i). */
  function Weighted(alpha: real, xs: seq<real>): real {
    if xs == [] then 0.0
    else Mul(Mul(alpha, Pow(1.0 - alpha, |xs| - 1)), xs[0]) + Weighted(alpha, xs[1..])
  }

  /** The closed form: the old average decayed `|xs|` times, plus the weighted observations. */
  function Closed(alpha: real, xs: seq<real>, ema: real): real {
    Mul(Pow(1.0 - alpha, |xs|), ema) + Weighted(alpha, xs)
  }

  lemma Distribute(p: real, a: real, b: real, x: real, e: real)
    ensures Mul(p, Mul(a, x) + Mul(b, e)) == Mul(Mul(a, p), x) + Mul(Mul(b, p), e)
  {
    assert p * (a * x) == a * p * x;
    assert p * (b * e) == b * p * e;
  }

  lemma ClosedStep(alpha: real, xs: seq<real>, ema: real)
    requires xs != []
    ensures Closed(alpha, xs[1..], Mix(alpha, xs[0], ema)) == Closed(alpha, xs, ema)
  {
    Distribute(Pow(1.0 - alpha, |xs| - 1), alpha, 1.0 - alpha, xs[0], ema);
  }

  /** The moving average has the closed form. */
  lemma {:induction false} ClosedForm(s: Series, alpha: real, size: nat, xs: seq<real>)
    ensures ObserveAll(s, alpha, size, xs).ema == Closed(alpha, xs, s.ema)
    decreases |xs|
  {
    if xs != [] {
      ClosedForm(Observe(s, alpha, size, xs[0]), alpha, size, xs[1..]);
      ClosedStep(alpha, xs, s.ema);
    }
  }

  ghost predicate AllAtMost(xs: seq<real>, m: real) {
    forall i :: 0 <= i < |xs| ==> xs[i] <= m
  }

  lemma Scale(p: real, x: real, y: real)
    requires p >= 0.0 && x <= y
    ensures Mul(p, x) <= Mul(p, y)
  {}

  lemma Product(x: real, y: real)
    requires x >= 0.0 && y >= 0.0
    ensures Mul(x, y) >= 0.0
    ensures x > 0.0 && y > 0.0 ==> Mul(x, y) > 0.0
  {}

  /** `gap` shrunk `n` times by the factor 1 - alpha: gap times (1 - alpha)^n. */
  function Decay(alpha: real, n: nat, gap: real): real
    decreases n
  {
    if n == 0 then gap else Decay(alpha, n - 1, Mul(1.0 - alpha, gap))
  }

  lemma MulAssociates(p: real, q: real, x: real)
    ensures Mul(p, Mul(q, x)) == Mul(Mul(q, p), x)
  {
    assert p * (q * x) == q * p * x;
  }

  lemma {:induction false} DecayIsPower(alpha: real, n: nat, gap: real)
    ensures Decay(alpha, n, gap) == Mul(Pow(1.0 - alpha, n), gap)
    decreases n
  {
    if n > 0 {
      DecayIsPower(alpha, n - 1, Mul(1.0 - alpha, gap));
      MulAssociates(Pow(1.0 - alpha, n - 1), 1.0 - alpha, gap);
    }
  }

  lemma {:induction false} DecayMonotone(alpha: real, n: nat, g: real, h: real)
    requires alpha <= 1.0 && 0.0 <= g <= h
    ensures 0.0 <= Decay(alpha, n, g) <= Decay(alpha, n, h)
    decreases n
  {
    if n > 0 {
      Product(1.0 - alpha, g);
      Scale(1.0 - alpha, g, h);
      DecayMonotone(alpha, n - 1, Mul(1.0 - alpha, g), Mul(1.0 - alpha, h));
    }
  }

  function Gap(e: real, m: real): real {
    Max(0.0, e - m)
  }

  /** One observation of at most `m` closes the gap to `m` by the factor 1 - alpha. */
  lemma GapShrinks(alpha: real, x: real, e: real, m: real)
    requires 0.0 <= alpha <= 1.0 && x <= m
    ensures Gap(Mix(alpha, x, e), m) <= Mul(1.0 - alpha, Gap(e, m))
  {
    MixBound(alpha, 1.0 - alpha, x, e, m, Gap(e, m));
  }

  lemma MixBound(a: real, b: real, x: real, e: real, m: real, gap: real)
    requires a >= 0.0 && b >= 0.0 && a + b == 1.0 && x <= m && e <= m + gap && gap >= 0.0
    ensures Mul(a, x) + Mul(b, e) <= m + Mul(b, gap) && Mul(b, gap) >= 0.0
  {
    Scale(a, x, m);
    Scale(b, e, m + gap);
    Spread(a, b, m, gap);
    Product(b, gap);
  }

  lemma Spread(a: real, b: real, m: real, g: real)
    requires a + b == 1.0
    ensures Mul(a, m) + Mul(b, m + g) == m + Mul(b, g)
  {
    assert a * m + b * m == (a + b) * m;
    assert b * (m + g) == b * m + b * g;
  }

  lemma {:induction false} AverageDecays(s: Series, alpha: real, size: nat, xs: seq<real>, m: real)
    requires 0.0 <= alpha <= 1.0 && AllAtMost(xs, m)
    ensures ObserveAll(s, alpha, size, xs).ema <= m + Decay(alpha, |xs|, Gap(s.ema, m))
    decreases |xs|
  {
    if xs != [] {
      var s' := Observe(s, alpha, size, xs[0]);
      GapShrinks(alpha, xs[0], s.ema, m);
      DecayMonotone(alpha, |xs| - 1, Gap(s'.ema, m), Mul(1.0 - alpha, Gap(s.ema, m)));
      AverageDecays(s', alpha, size, xs[1..], m);
    }
  }

  // ---------- spikes ----------

  /** Every one of the last `n` observations is at most their maximum. */
  lemma RecentCounts(xs: seq<real>, n: nat, i: nat)
    requires i < |xs| <= i + n
    ensures Last(xs, n) != [] && xs[i] <= MaxOf(Last(xs, n))
  {
    var recent := Last(xs, n);
    assert recent[i - (|xs| - |recent|)] == xs[i];
  }

  /** A spike holds the estimate up for the next size - 1 records. */
  lemma SpikeHolds(s: Series, alpha: real, size: nat, spike: real, xs: seq<real>)
    requires |s.window| <= size && |xs| < size
    ensures Estimate(ObserveAll(Observe(s, alpha, size, spike), alpha, size, xs)) >= spike
  {
    var all := [spike] + xs;
    assert all[0] == spike && all[1..] == xs;
    WindowIsLast(s, alpha, size, all);
    RecentCounts(s.window + all, size, |s.window|);
  }

  lemma LastAtMost(ws: seq<real>, xs: seq<real>, n: nat, m: real)
    requires n <= |xs| && AllAtMost(xs, m)
    ensures Last(ws + xs, n) != [] ==> MaxOf(Last(ws + xs, n)) <= m
  {
    assert Last(ws + xs, n) == xs[|xs| - n..];
  }

  /** After size or more further records, all at most `m`, only the decaying average remembers it. */
  lemma SpikeDecays(s: Series, alpha: real, size: nat, spike: real, xs: seq<real>, m: real)
    requires |s.window| <= size <= |xs| && 0.0 <= alpha <= 1.0 && AllAtMost(xs, m)
    ensures var after := Observe(s, alpha, size, spike);
            Estimate(ObserveAll(after, alpha, size, xs))
            <= m + Mul(Pow(1.0 - alpha, |xs|), Max(0.0, after.ema - m))
  {
    var after := Observe(s, alpha, size, spike);
    PushIsLast(s.window, spike, size);
    WindowIsLast(after, alpha, size, xs);
    LastAtMost(after.window, xs, size, m);
    AverageDecays(after, alpha, size, xs, m);
    DecayMonotone(alpha, |xs|, Gap(after.ema, m), Gap(after.ema, m));
    DecayIsPower(alpha, |xs|, Gap(after.ema, m));
  }

  /** `k` records, all of `m`. */
  function Steady(k: nat, m: real): seq<real> {
    seq(k, _ => m)
  }

  lemma MixSteady(alpha: real, m: real, gap: real)
    ensures Mix(alpha, m, m + gap) == m + Mul(1.0 - alpha, gap)
  {
    Spread(alpha, 1.0 - alpha, m, gap);
  }

  /** Over records of `m` the average keeps exactly the decayed gap to it. */
  lemma {:induction false} SteadyAverage(s: Series, alpha: real, size: nat, k: nat, m: real)
    ensures ObserveAll(s, alpha, size, Steady(k, m)).ema == m + Decay(alpha, k, s.ema - m)
    decreases k
  {
    if k > 0 {
      var s' := Observe(s, alpha, size, m);
      MixSteady(alpha, m, s.ema - m);
      assert Steady(k, m)[1..] == Steady(k - 1, m);
      SteadyAverage(s', alpha, size, k - 1, m);
    }
  }

  /** The bound is reached: over records of `m` the estimate keeps exactly that share of the spike. */
  lemma SpikeDecayReached(s: Series, alpha: real, size: nat, spike: real, k: nat, m: real)
    requires |s.window| <= size <= k && 0.0 <= alpha <= 1.0
    requires Observe(s, alpha, size, spike).ema >= m
    ensures var after := Observe(s, alpha, size, spike);
            Estimate(ObserveAll(after, alpha, size, Steady(k, m))) == m + Mul(Pow(1.0 - alpha, k), after.ema - m)
  {
    var after := Observe(s, alpha, size, spike);
    PushIsLast(s.window, spike, size);
    WindowIsLast(after, alpha, size, Steady(k, m));
    LastAtMost(after.window, Steady(k, m), size, m);
    SteadyAverage(after, alpha, size, k, m);
    DecayMonotone(alpha, k, after.ema - m, after.ema - m);
    DecayIsPower(alpha, k, after.ema - m);
  }

  lemma {:induction false} PowPositive(x: real, n: nat)
    requires x >= 0.0
    ensures x > 0.0 ==> Pow(x, n) > 0.0
    ensures x == 0.0 && n > 0 ==> Pow(x, n) == 0.0
  {
    if n > 0 {
      PowPositive(x, n - 1);
      if x > 0.0 { Product(x, Pow(x, n - 1)); }
    }
  }

  /** Whatever `k` records of at most `m` follow the spike, the estimate is back at `m` or below. */
  ghost predicate Relaxes(after: Series, alpha: real, size: nat, k: nat, m: real) {
    forall xs :: |xs| == k && AllAtMost(xs, m) ==> Estimate(ObserveAll(after, alpha, size, xs)) <= m
  }

  /**
   When the estimate relaxes.  After a full window of records of at most `m`, one window or any
   number of them, it is sure to be at `m` or below if and only if the average does not smooth or
   the spike had left it at `m` or below.
   */
  lemma RelaxesExactly(s: Series, alpha: real, size: nat, spike: real, k: nat, m: real)
    requires |s.window| <= size <= k && k > 0 && 0.0 <= alpha <= 1.0
    ensures var after := Observe(s, alpha, size, spike);
            Relaxes(after, alpha, size, k, m) <==> alpha == 1.0 || after.ema <= m
  {
    var after := Observe(s, alpha, size, spike);
    PowPositive(1.0 - alpha, k);
    if alpha == 1.0 || after.ema <= m {
      forall xs | |xs| == k && AllAtMost(xs, m) ensures Estimate(ObserveAll(after, alpha, size, xs)) <= m {
        SpikeDecays(s, alpha, size, spike, xs, m);
      }
    } else {
      var xs := Steady(k, m);
      SpikeDecayReached(s, alpha, size, spike, k, m);
      Product(Pow(1.0 - alpha, k), after.ema - m);
      assert AllAtMost(xs, m) && Estimate(ObserveAll(after, alpha, size, xs)) > m;
    }
  }

  // ---------- reads in the middle of a record ----------

  lemma MixBetween(alpha: real, x: real, e: real)
    requires 0.0 <= alpha <= 1.0
    ensures x >= e ==> e <= Mix(alpha, x, e) <= x
    ensures x <= e ==> x <= Mix(alpha, x, e) <= e
  {
    Parts(alpha, x);
    Parts(alpha, e);
    if x >= e {
      Scale(alpha, e, x);
      Scale(1.0 - alpha, e, x);
    } else {
      Scale(alpha, x, e);
      Scale(1.0 - alpha, x, e);
    }
  }

  lemma Parts(alpha: real, x: real)
    ensures Mul(alpha, x) + Mul(1.0 - alpha, x) == x
  {}

  lemma PushedMax(window: seq<real>, x: real, size: nat)
    ensures Push(window, x, size) != [] ==> MaxOf(Push(window, x, size)) >= x
    ensures Push(window, x, size) != [] && window != [] ==>
              MaxOf(Push(window, x, size)) <= Max(x, MaxOf(window))
    ensures Push(window, x, size) != [] && window == [] ==> MaxOf(Push(window, x, size)) == x
  {
    var pushed := Push(window, x, size);
    if pushed != [] {
      assert pushed[|pushed| - 1] == x;
      forall i | 0 <= i < |pushed| - 1 ensures pushed[i] in window {
        assert pushed[i] == if |window| < size then window[i] else window[i + 1 + |window| - size];
      }
    }
  }

  /**
   A lock-free read between the two writes of a record sees the new average over the old window.
   What it gets is at worst stale: it lies between the estimates before and after the record.
   */
  lemma TornReadBetween(s: Series, alpha: real, size: nat, x: real)
    requires 0.0 <= alpha <= 1.0
    ensures var before, after := Estimate(s), Estimate(Observe(s, alpha, size, x));
            var torn := Estimate(s.(ema := Mix(alpha, x, s.ema)));
            before <= torn <= after || after <= torn <= before
  {
    MixBetween(alpha, x, s.ema);
    PushedMax(s.window, x, size);
  }

  // ---------- positivity ----------

  datatype Use = Recorded(backend: Backend, latency: real) | WasReset

  function Reset(t: Tracker): Tracker {
    Seeded(t.settings)
  }

  function History(t: Tracker, us: seq<Use>): Tracker
    decreases |us|
  {
    if us == [] then t
    else match us[0]
      case Recorded(b, x) => History(Record(t, b, x), us[1..])
      case WasReset => History(Reset(t), us[1..])
  }

  ghost predicate NonNegativeUses(us: seq<Use>) {
    forall i :: 0 <= i < |us| ==> us[i].Recorded? ==> us[i].latency >= 0.0
  }

  ghost predicate PositiveUses(us: seq<Use>) {
    forall i :: 0 <= i < |us| ==> us[i].Recorded? ==> us[i].latency > 0.0
  }

  predicate PositiveAverages(t: Tracker) {
    && t.local.ema > 0.0 && t.remote.ema > 0.0
    && t.settings.localSeed > 0.0 && t.settings.remoteSeed > 0.0
  }

  lemma Blend(alpha: real, x: real, e: real)
    requires e > 0.0 && 0.0 <= alpha <= 1.0 && x >= 0.0 && (alpha < 1.0 || x > 0.0)
    ensures Mix(alpha, x, e) > 0.0
  {
    Product(alpha, x);
    Product(1.0 - alpha, e);
  }

  lemma ObserveKeepsPositive(s: Series, alpha: real, size: nat, x: real)
    requires s.ema > 0.0 && 0.0 <= alpha <= 1.0 && x >= 0.0 && (alpha < 1.0 || x > 0.0)
    ensures Observe(s, alpha, size, x).ema > 0.0
  {
    Blend(alpha, x, s.ema);
  }

  lemma {:induction false} AveragesStayPositive(t: Tracker, us: seq<Use>)
    requires PositiveAverages(t) && 0.0 <= t.settings.alpha <= 1.0
    requires NonNegativeUses(us) && (t.settings.alpha < 1.0 || PositiveUses(us))
    ensures PositiveAverages(History(t, us))
    decreases |us|
  {
    if us != [] {
      match us[0]
      case Recorded(b, x) =>
        ObserveKeepsPositive(SeriesOf(t, b), t.settings.alpha, t.settings.size, x);
        AveragesStayPositive(Record(t, b, x), us[1..]);
      case WasReset =>
        AveragesStayPositive(Reset(t), us[1..]);
    }
  }

  ghost predicate AlwaysPositive(settings: Settings) {
    forall us, b :: NonNegativeUses(us) ==> EstimateOf(History(Seeded(settings), us), b) > 0.0
  }

  /** Over positive observations every estimate stays positive, whatever the smoothing factor. */
  lemma PositiveUsesPositiveEstimates(settings: Settings, us: seq<Use>, b: Backend)
    requires settings.localSeed > 0.0 && settings.remoteSeed > 0.0 && 0.0 <= settings.alpha <= 1.0
    requires PositiveUses(us)
    ensures EstimateOf(History(Seeded(settings), us), b) > 0.0
  {
    AveragesStayPositive(Seeded(settings), us);
  }

  /**
   Over non-negative observations every estimate stays positive exactly when the smoothing
   factor is below 1: at 1 a single zero observation becomes the estimate.
   */
  lemma PositiveIffSmoothing(settings: Settings)
    requires settings.localSeed > 0.0 && settings.remoteSeed > 0.0 && 0.0 <= settings.alpha <= 1.0
    ensures AlwaysPositive(settings) <==> settings.alpha < 1.0
  {
    if settings.alpha < 1.0 {
      forall us, b | NonNegativeUses(us)
        ensures EstimateOf(History(Seeded(settings), us), b) > 0.0
      {
        AveragesStayPositive(Seeded(settings), us);
      }
    } else {
      var us := [Recorded(Local, 0.0)];
      var t := Record(Seeded(settings), Local, 0.0);
      assert History(t, us[1..]) == t;
      assert EstimateOf(History(Seeded(settings), us), Local) == 0.0;
    }
  }

  // ---------- what an estimate is made of ----------

  /** What has been observed of one backend since the last reset, in order. */
  function Observed(us: seq<Use>, b: Backend, before: seq<real>): seq<real>
    decreases |us|
  {
    if us == [] then before
    else match us[0]
      case Recorded(c, x) => Observed(us[1..], b, if c == b then before + [x] else before)
      case WasReset => Observed(us[1..], b, [])
  }

  lemma {:induction false} ObserveMore(s: Series, alpha: real, size: nat, xs: seq<real>, x: real)
    ensures ObserveAll(s, alpha, size, xs + [x]) == Observe(ObserveAll(s, alpha, size, xs), alpha, size, x)
    decreases |xs|
  {
    if xs == [] {
      assert xs + [x] == [x] && [x][1..] == [];
    } else {
      assert (xs + [x])[1..] == xs[1..] + [x];
      ObserveMore(Observe(s, alpha, size, xs[0]), alpha, size, xs[1..], x);
    }
  }

  function SeedOf(settings: Settings, b: Backend): Series {
    Series(if b == Remote then settings.remoteSeed else settings.localSeed, [])
  }

  /** Each backend's series is made of its own observations since the last reset, and of nothing else. */
  lemma {:induction false} HistorySplits(t: Tracker, us: seq<Use>, b: Backend, before: seq<real>)
    requires SeriesOf(t, b) == ObserveAll(SeedOf(t.settings, b), t.settings.alpha, t.settings.size, before)
    ensures SeriesOf(History(t, us), b)
         == ObserveAll(SeedOf(t.settings, b), t.settings.alpha, t.settings.size, Observed(us, b, before))
    decreases |us|
  {
    if us != [] {
      match us[0]
      case Recorded(c, x) =>
        ObserveMore(SeedOf(t.settings, b), t.settings.alpha, t.settings.size, before, x);
        HistorySplits(Record(t, c, x), us[1..], b, if c == b then before + [x] else before);
      case WasReset =>
        HistorySplits(Reset(t), us[1..], b, []);
    }
  }

  /** `e` is the largest of the average and the last `size` observations. */
  ghost predicate LargestOf(e: real, average: real, xs: seq<real>, size: nat) {
    && e >= average
    && (forall i :: 0 <= i < |xs| && |xs| - size <= i ==> e >= xs[i])
    && (e == average || exists i :: 0 <= i < |xs| && |xs| - size <= i && e == xs[i])
  }

  lemma MaxIsLargest(xs: seq<real>, size: nat, average: real)
    ensures var recent := Last(xs, size);
            LargestOf(if recent == [] then average else Max(average, MaxOf(recent)), average, xs, size)
  {
    var recent := Last(xs, size);
    var from := |xs| - |recent|;
    assert forall i :: from <= i < |xs| ==> recent[i - from] == xs[i];
    if recent != [] {
      var j :| 0 <= j < |recent| && recent[j] == MaxOf(recent);
      assert xs[from + j] == MaxOf(recent);
    }
  }

  /**
   The estimate, after any history: the largest of the average, in closed form over the backend's
   observations since the last reset, and of the last `size` of them.
   */
  lemma EstimateExact(settings: Settings, us: seq<Use>, b: Backend)
    ensures var xs := Observed(us, b, []);
            var seed := if b == Remote then settings.remoteSeed else settings.localSeed;
            LargestOf(EstimateOf(History(Seeded(settings), us), b), Closed(settings.alpha, xs, seed), xs, settings.size)
  {
    var xs := Observed(us, b, []);
    HistorySplits(Seeded(settings), us, b, []);
    ClosedForm(SeedOf(settings, b), settings.alpha, settings.size, xs);
    WindowIsLast(SeedOf(settings, b), settings.alpha, settings.size, xs);
    assert [] + xs == xs;
    MaxIsLargest(xs, settings.size, Closed(settings.alpha, xs, SeedOf(settings, b).ema));
  }
}
