/** The runtime sampler's gauges (runtime.go). `CaptureRuntimeMemStatsOnce`
    takes a memory-statistics snapshot and sets one gauge per statistic; four
    cumulative counters are reported as the difference from the previous
    capture, kept in package-level state. The snapshot and the goroutine count
    are parameters here instead of calls into the Go runtime. */
module RuntimeStats {
  import opened Wrappers
  import opened GoInts
  import opened Gauges

  /** The fields of the package-level `runtimeMetrics` struct. */
  datatype GaugeName =
    | Alloc | BuckHashSys | DebugGC | EnableGC | Frees | HeapAlloc | HeapIdle
    | HeapInuse | HeapObjects | HeapReleased | HeapSys | LastGC | Lookups
    | Mallocs | MCacheInuse | MCacheSys | MSpanInuse | MSpanSys | NextGC
    | NumGC | PauseTotalNs | StackInuse | StackSys | Sys | TotalAlloc
    | NumCgoCall | NumGoroutine

  /** The order in which `RegisterRuntimeMemStats` creates the gauges. */
  const AllGauges: seq<GaugeName> := [
    Alloc, BuckHashSys, DebugGC, EnableGC, Frees, HeapAlloc, HeapIdle,
    HeapInuse, HeapObjects, HeapReleased, HeapSys, LastGC, Lookups,
    Mallocs, MCacheInuse, MCacheSys, MSpanInuse, MSpanSys, NextGC,
    NumGC, PauseTotalNs, StackInuse, StackSys, Sys, TotalAlloc,
    NumCgoCall, NumGoroutine]

  lemma AllGaugesComplete(n: GaugeName)
    ensures n in AllGauges
  {
    match n
    case _ =>
  }

  /** The gauges a capture sets before it stores the new previous counters ... */
  const FirstUpdates: seq<GaugeName> := [
    Alloc, BuckHashSys, DebugGC, EnableGC, Frees, HeapAlloc, HeapIdle,
    HeapInuse, HeapObjects, HeapReleased, HeapSys, LastGC, Lookups,
    Mallocs, MCacheInuse, MCacheSys, MSpanInuse, MSpanSys, NextGC, NumGC]

  /** ... and the ones it sets afterwards. */
  const LaterUpdates: seq<GaugeName> := [
    PauseTotalNs, StackInuse, StackSys, Sys, TotalAlloc, NumGoroutine]

  /** The part of Go's `runtime.MemStats` that the sampler reads. */
  datatype MemStats = MemStats(
    alloc: uint64, buckHashSys: uint64, debugGC: bool, enableGC: bool,
    frees: uint64, heapAlloc: uint64, heapIdle: uint64, heapInuse: uint64,
    heapObjects: uint64, heapReleased: uint64, heapSys: uint64, lastGC: uint64,
    lookups: uint64, mallocs: uint64, mCacheInuse: uint64, mCacheSys: uint64,
    mSpanInuse: uint64, mSpanSys: uint64, nextGC: uint64, numGC: uint32,
    pauseTotalNs: uint64, stackInuse: uint64, stackSys: uint64, sys: uint64,
    totalAlloc: uint64)

  /** The package-level `frees`, `lookups`, `mallocs` and `numGC`. */
  datatype Counters = Counters(frees: uint64, lookups: uint64, mallocs: uint64, numGC: uint32)

  function CountersOf(s: MemStats): Counters {
    Counters(s.frees, s.lookups, s.mallocs, s.numGC)
  }

  /** The gauges that receive a difference against the previous capture. */
  predicate IsDelta(n: GaugeName) {
    n == Frees || n == Lookups || n == Mallocs || n == NumGC
  }

  /** The snapshot field behind each gauge fed verbatim from a `uint64`. */
  function Absolute(s: MemStats, n: GaugeName): Option<uint64> {
    match n
    case Alloc => Some(s.alloc)
    case BuckHashSys => Some(s.buckHashSys)
    case HeapAlloc => Some(s.heapAlloc)
    case HeapIdle => Some(s.heapIdle)
    case HeapInuse => Some(s.heapInuse)
    case HeapObjects => Some(s.heapObjects)
    case HeapReleased => Some(s.heapReleased)
    case HeapSys => Some(s.heapSys)
    case LastGC => Some(s.lastGC)
    case MCacheInuse => Some(s.mCacheInuse)
    case MCacheSys => Some(s.mCacheSys)
    case MSpanInuse => Some(s.mSpanInuse)
    case MSpanSys => Some(s.mSpanSys)
    case NextGC => Some(s.nextGC)
    case PauseTotalNs => Some(s.pauseTotalNs)
    case StackInuse => Some(s.stackInuse)
    case StackSys => Some(s.stackSys)
    case Sys => Some(s.sys)
    case TotalAlloc => Some(s.totalAlloc)
    case _ => None
  }

  /** What one capture stores into gauge `n`, or None when it leaves `n` alone. */
  function Reading(n: GaugeName, s: MemStats, prev: Counters, goroutines: int64): Option<int64> {
    match n
    case DebugGC => Some(if s.debugGC then 1 else 0)
    case EnableGC => Some(if s.enableGC then 1 else 0)
    case Frees => Some(Int64OfUint64(SubUint64(s.frees, prev.frees)))
    case Lookups => Some(Int64OfUint64(SubUint64(s.lookups, prev.lookups)))
    case Mallocs => Some(Int64OfUint64(SubUint64(s.mallocs, prev.mallocs)))
    case NumGC => Some(SubUint32(s.numGC, prev.numGC))
    case NumCgoCall => None
    case NumGoroutine => Some(goroutines)
    case _ => Some(Int64OfUint64(Absolute(s, n).value))
  }

  /** Every gauge except NumCgoCall is set; among the gauges outside MemStats
      only NumGoroutine changes, and it takes the goroutine count. */
  lemma CaptureCoverage(s: MemStats, prev: Counters, goroutines: int64)
    ensures Reading(NumCgoCall, s, prev, goroutines) == None
    ensures Reading(NumGoroutine, s, prev, goroutines) == Some(goroutines)
    ensures forall n :: Reading(n, s, prev, goroutines).Some? <==> n != NumCgoCall
    ensures forall n :: n in FirstUpdates || n in LaterUpdates <==> n != NumCgoCall
  {
    forall n ensures n in FirstUpdates || n in LaterUpdates <==> n != NumCgoCall {
      UpdatedNames(n);
    }
  }

  lemma UpdatedNames(n: GaugeName)
    ensures n in FirstUpdates || n in LaterUpdates <==> n != NumCgoCall
  {
    match n
    case Alloc => assert FirstUpdates[0] == Alloc;
    case BuckHashSys => assert FirstUpdates[1] == BuckHashSys;
    case DebugGC => assert FirstUpdates[2] == DebugGC;
    case EnableGC => assert FirstUpdates[3] == EnableGC;
    case Frees => assert FirstUpdates[4] == Frees;
    case HeapAlloc => assert FirstUpdates[5] == HeapAlloc;
    case HeapIdle => assert FirstUpdates[6] == HeapIdle;
    case HeapInuse => assert FirstUpdates[7] == HeapInuse;
    case HeapObjects => assert FirstUpdates[8] == HeapObjects;
    case HeapReleased => assert FirstUpdates[9] == HeapReleased;
    case HeapSys => assert FirstUpdates[10] == HeapSys;
    case LastGC => assert FirstUpdates[11] == LastGC;
    case Lookups => assert FirstUpdates[12] == Lookups;
    case Mallocs => assert FirstUpdates[13] == Mallocs;
    case MCacheInuse => assert FirstUpdates[14] == MCacheInuse;
    case MCacheSys => assert FirstUpdates[15] == MCacheSys;
    case MSpanInuse => assert FirstUpdates[16] == MSpanInuse;
    case MSpanSys => assert FirstUpdates[17] == MSpanSys;
    case NextGC => assert FirstUpdates[18] == NextGC;
    case NumGC => assert FirstUpdates[19] == NumGC;
    case PauseTotalNs => assert LaterUpdates[0] == PauseTotalNs;
    case StackInuse => assert LaterUpdates[1] == StackInuse;
    case StackSys => assert LaterUpdates[2] == StackSys;
    case Sys => assert LaterUpdates[3] == Sys;
    case TotalAlloc => assert LaterUpdates[4] == TotalAlloc;
    case NumCgoCall =>
    case NumGoroutine => assert LaterUpdates[5] == NumGoroutine;
  }

  /** DebugGC and EnableGC hold 1 when the snapshot's flag is set and 0 otherwise. */
  lemma FlagGauges(s: MemStats, prev: Counters, goroutines: int64)
    ensures Reading(DebugGC, s, prev, goroutines) == Some(1) <==> s.debugGC
    ensures Reading(DebugGC, s, prev, goroutines) == Some(0) <==> !s.debugGC
    ensures Reading(EnableGC, s, prev, goroutines) == Some(1) <==> s.enableGC
    ensures Reading(EnableGC, s, prev, goroutines) == Some(0) <==> !s.enableGC
  {
  }

  /** A gauge fed verbatim carries the snapshot's bits unchanged and does not
      depend on the previous counters. */
  lemma AbsoluteVerbatim(n: GaugeName, s: MemStats, prev: Counters, other: Counters, goroutines: int64)
    requires Absolute(s, n).Some?
    ensures Reading(n, s, prev, goroutines).Some?
    ensures Uint64OfInt64(Reading(n, s, prev, goroutines).value) == Absolute(s, n).value
    ensures Reading(n, s, prev, goroutines) == Reading(n, s, other, goroutines)
  {
    var x := Absolute(s, n).value;
    var r := Int64OfUint64(x);
    assert Reading(n, s, prev, goroutines) == Some(r);
    UnsignedRoundTrip(x);
  }

  lemma UnsignedRoundTrip(x: uint64)
    ensures Uint64OfInt64(Int64OfUint64(x)) == x
  {
  }

  /** A delta gauge, added to the previous counter with wrap-around, gives back
      the snapshot's counter: the delta is exactly the unsigned difference. */
  lemma DeltaRecoversSnapshot(s: MemStats, prev: Counters, goroutines: int64)
    ensures (prev.frees + Uint64OfInt64(Reading(Frees, s, prev, goroutines).value)) % TwoTo64 == s.frees
    ensures (prev.lookups + Uint64OfInt64(Reading(Lookups, s, prev, goroutines).value)) % TwoTo64 == s.lookups
    ensures (prev.mallocs + Uint64OfInt64(Reading(Mallocs, s, prev, goroutines).value)) % TwoTo64 == s.mallocs
    ensures (prev.numGC + Reading(NumGC, s, prev, goroutines).value) % TwoTo32 == s.numGC
    ensures 0 <= Reading(NumGC, s, prev, goroutines).value < TwoTo32
  {
    UnsignedRoundTrip(SubUint64(s.frees, prev.frees));
    UnsignedRoundTrip(SubUint64(s.lookups, prev.lookups));
    UnsignedRoundTrip(SubUint64(s.mallocs, prev.mallocs));
  }

  /** Capturing a snapshot against the counters of that same snapshot reports
      zero for every delta gauge. */
  lemma SameSnapshotZeroDeltas(s: MemStats, goroutines: int64)
    ensures forall n :: IsDelta(n) ==> Reading(n, s, CountersOf(s), goroutines) == Some(0)
  {
  }

  /** The package-level state of runtime.go: the gauges of `runtimeMetrics`,
      `nil` until registration, and the previous counters. */
  class RuntimeState {
    var gauges: map<GaugeName, Gauge>
    var prev: Counters

    /** Every gauge is present and no two names share one gauge. */
    ghost predicate Registered()
      reads this
    {
      && (forall n :: n in gauges)
      && (forall a, b :: a in gauges && b in gauges && a != b ==> gauges[a] != gauges[b])
    }

    /** The zero values of the package-level variables. */
    constructor ()
      ensures gauges == map[] && prev == Counters(0, 0, 0, 0)
    {
      gauges := map[];
      prev := Counters(0, 0, 0, 0);
    }

    /** `RegisterRuntimeMemStats`: every gauge replaced by a fresh gauge at 0;
        the previous counters are kept. */
    method Register()
      modifies this`gauges
      ensures Registered()
      ensures forall n :: fresh(gauges[n]) && gauges[n].value == 0
    {
      var g: map<GaugeName, Gauge> := map[];
      for i := 0 to |AllGauges|
        invariant forall n :: n in g <==> n in AllGauges[..i]
        invariant forall n :: n in g ==> fresh(g[n]) && g[n].value == 0
        invariant forall a, b :: a in g && b in g && a != b ==> g[a] != g[b]
      {
        var gauge := new Gauge();
        g := g[AllGauges[i] := gauge];
      }
      assert AllGauges[..|AllGauges|] == AllGauges;
      forall n ensures n in g {
        AllGaugesComplete(n);
      }
      gauges := g;
    }

    /** Set each gauge named in `names` to its reading against `p`. */
    method UpdateGauges(names: seq<GaugeName>, s: MemStats, p: Counters, goroutines: int64)
      requires Registered()
      requires forall i :: 0 <= i < |names| ==> Reading(names[i], s, p, goroutines).Some?
      modifies gauges.Values
      ensures forall n :: n in names ==> gauges[n].value == Reading(n, s, p, goroutines).value
      ensures forall n :: n !in names ==> gauges[n].value == old(gauges[n].value)
    {
      for i := 0 to |names|
        invariant forall n :: n in names[..i] ==> gauges[n].value == Reading(n, s, p, goroutines).value
        invariant forall n :: n !in names[..i] ==> gauges[n].value == old(gauges[n].value)
      {
        gauges[names[i]].Update(Reading(names[i], s, p, goroutines).value);
      }
      assert names[..|names|] == names;
    }

    /** `CaptureRuntimeMemStatsOnce` on snapshot `s` with `goroutines` running goroutines. */
    method Capture(s: MemStats, goroutines: int64)
      requires Registered()
      modifies this`prev, gauges.Values
      ensures gauges == old(gauges) && Registered()
      ensures forall n :: Reading(n, s, old(prev), goroutines).Some? ==>
        gauges[n].value == Reading(n, s, old(prev), goroutines).value
      ensures gauges[NumCgoCall].value == old(gauges[NumCgoCall].value)
      ensures prev == CountersOf(s)
    {
      var p := prev;
      CaptureCoverage(s, p, goroutines);
      UpdateGauges(FirstUpdates, s, p, goroutines);
      prev := CountersOf(s);
      UpdateGauges(LaterUpdates, s, p, goroutines);
    }
  }

  /** Two captures of the same snapshot: after the second, every delta gauge
      reads 0 and every other gauge holds what the first capture stored. */
  method CaptureTwice(state: RuntimeState, s: MemStats, goroutines: int64)
    requires state.Registered()
    modifies state, state.gauges.Values
    ensures state.Registered()
    ensures forall n :: IsDelta(n) ==> state.gauges[n].value == 0
    ensures forall n :: !IsDelta(n) && n != NumCgoCall ==>
      Reading(n, s, old(state.prev), goroutines) == Some(state.gauges[n].value)
    ensures state.gauges[NumCgoCall].value == old(state.gauges[NumCgoCall].value)
    ensures state.prev == CountersOf(s)
  {
    ghost var p := state.prev;
    state.Capture(s, goroutines);
    state.Capture(s, goroutines);
    SameSnapshotZeroDeltas(s, goroutines);
    CaptureCoverage(s, CountersOf(s), goroutines);
    forall n | !IsDelta(n)
      ensures Reading(n, s, p, goroutines) == Reading(n, s, CountersOf(s), goroutines)
    {
    }
  }
}
