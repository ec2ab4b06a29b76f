/**
 The latency tracker as the program keeps it: two dictionaries, of averages and of bounded
 windows, updated in place.
 */
module LatencyTrackers {
  import opened Amounts
  import E = LatencyEstimates

  class LatencyTracker {
    const alpha: real
    const windowSize: nat
    const localSeed: real
    const remoteSeed: real
    var ema: map<E.Backend, real>
    var windows: map<E.Backend, seq<real>>

    ghost predicate Valid()
      reads this
    {
      ema.Keys == windows.Keys == {E.Local, E.Remote}
    }

    ghost function Model(): E.Tracker
      reads this
      requires Valid()
    {
      E.Tracker(E.Settings(alpha, windowSize, localSeed, remoteSeed),
                  E.Series(ema[E.Local], windows[E.Local]), E.Series(ema[E.Remote], windows[E.Remote]))
    }

    constructor (alpha: real, windowSize: nat, localSeed: real, remoteSeed: real)
      ensures Valid() && Model() == E.Seeded(E.Settings(alpha, windowSize, localSeed, remoteSeed))
    {
      this.alpha, this.windowSize := alpha, windowSize;
      this.localSeed, this.remoteSeed := localSeed, remoteSeed;
      ema := map[E.Local := localSeed, E.Remote := remoteSeed];
      windows := map[E.Local := [], E.Remote := []];
    }

    method Record(backend: E.Backend, latencyMs: real)
      requires Valid()
      modifies this
      ensures Valid() && Model() == E.Record(old(Model()), backend, latencyMs)
    {
      ema := ema[backend := E.Mix(alpha, latencyMs, ema[backend])];
      windows := windows[backend := E.Push(windows[backend], latencyMs, windowSize)];
    }

    method GetEstimate(backend: E.Backend) returns (estimate: real)
      requires Valid()
      ensures estimate == E.EstimateOf(Model(), backend)
      ensures forall i :: 0 <= i < |windows[backend]| ==> windows[backend][i] <= estimate
    {
      estimate := ema[backend];
      if windows[backend] != [] {
        estimate := Max(estimate, E.MaxOf(windows[backend]));
      }
    }

    method Reset()
      requires Valid()
      modifies this
      ensures Valid() && Model() == E.Reset(old(Model()))
    {
      ema := map[E.Local := localSeed, E.Remote := remoteSeed];
      var todo := windows.Keys;
      while todo != {}
        invariant Valid() && todo <= windows.Keys
        invariant ema == map[E.Local := localSeed, E.Remote := remoteSeed]
        invariant forall b :: b in windows && b !in todo ==> windows[b] == []
        decreases todo
      {
        var b :| b in todo;
        windows := windows[b := []];
        todo := todo - {b};
      }
    }
  }
}
