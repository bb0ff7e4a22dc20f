/** The batching writer (influx.go). Producers call `Write`, which puts the
    payload on a bounded queue or drops it when the queue is full. A worker
    takes payloads off the queue, turns every metric into a point carrying the
    writer's common tags, and sends its open batch to the sink when a flush
    signal arrives (from its timer, or queued by itself once `count` passes the
    batch size) and once more, unconditionally, when the queue is closed.

    Go's `select` picks any ready case; here every case is an event method whose
    `requires` is the condition under which that case is ready, and a scheduler
    may call any enabled one. The model follows one worker of the pool. */
module Influx {
  import opened Wrappers
  import opened GoInts
  import opened Metrics
  import opened RuntimeMetrics

  /** Capacity of a worker's flush-signal channel. */
  const ForceChanLen: nat := 30

  /** Headroom of the ingestion queue beyond the batch size. */
  const QueueHeadroom: int64 := 100

  // ---------------------------------------------------------------------
  // Configuration: NewWriter
  // ---------------------------------------------------------------------

  /** The writer's configuration; `BatchCount` and `WorkerCount` are Go `int`s,
      64 bits wide. */
  datatype Config = Config(
    database: string,
    hostTag: string,
    labelTag: string,
    batchInterval: string,
    batchCount: int64,
    workerCount: int64,
    precision: string)

  /** Why `NewWriter` does not produce a writer. `ClientRejected` is returned
      as an error; the other three are panics. */
  datatype NewWriterFailure = ClientRejected | PrecisionPanic | CapacityPanic | IntervalPanic

  /** What `NewWriter` fixes for the writer and its workers. */
  datatype Settings = Settings(
    database: string,
    hostTag: string,
    labelTag: string,
    precision: string,
    interval: int,
    batchCount: int,
    capacity: nat,
    workers: nat)

  /** Number of workers started: the configured count, raised to 1 if it is smaller. */
  function WorkerCount(requested: int): (n: nat)
    ensures n >= 1
    ensures n >= requested
    ensures n == requested || n == 1
  {
    if requested < 1 then 1 else requested
  }

  /** The size asked of `make` for the ingestion queue: `BatchCount+100` in
      Go's 64-bit `int`, which wraps to a negative size near the top of the range. */
  function QueueSize(batchCount: int64): (n: int64)
    ensures batchCount < TwoTo63 - QueueHeadroom ==> n == batchCount + QueueHeadroom
    ensures batchCount >= TwoTo63 - QueueHeadroom ==> n < 0
  {
    AddInt64(batchCount, QueueHeadroom)
  }

  /** `NewWriter`: creating the HTTP client may fail (an error), then the
      precision must parse as a duration unit (a panic otherwise), the queue
      size must be one `make` accepts (it panics on a negative size and on one
      above the runtime's allocation limit), and the interval must parse (a
      panic otherwise). `clientOk` stands for the outcome of creating the HTTP
      client, `maxQueue` for the largest channel of `interface{}` the runtime
      allocates, and `parseDuration` for Go's `time.ParseDuration`. */
  function NewWriterSettings(cfg: Config, clientOk: bool, maxQueue: int, parseDuration: string -> Option<int>)
    : (r: Result<Settings, NewWriterFailure>)
    ensures r.Ok? <==>
      clientOk && parseDuration("1" + cfg.precision).Some? &&
      0 <= QueueSize(cfg.batchCount) <= maxQueue && parseDuration(cfg.batchInterval).Some?
    ensures !clientOk ==> r == Err(ClientRejected)
    ensures clientOk && parseDuration("1" + cfg.precision).None? ==> r == Err(PrecisionPanic)
    ensures (clientOk && parseDuration("1" + cfg.precision).Some? &&
             !(0 <= QueueSize(cfg.batchCount) <= maxQueue)) ==> r == Err(CapacityPanic)
    ensures (clientOk && parseDuration("1" + cfg.precision).Some? &&
             0 <= QueueSize(cfg.batchCount) <= maxQueue && parseDuration(cfg.batchInterval).None?)
      ==> r == Err(IntervalPanic)
    ensures r.Ok? ==>
      && r.value.capacity == QueueSize(cfg.batchCount) == cfg.batchCount + QueueHeadroom
      && r.value.workers == WorkerCount(cfg.workerCount)
      && r.value.interval == parseDuration(cfg.batchInterval).value
      && r.value.batchCount == cfg.batchCount
      && r.value.precision == cfg.precision
      && r.value.database == cfg.database
      && r.value.labelTag == cfg.labelTag && r.value.hostTag == cfg.hostTag
  {
    if !clientOk then Err(ClientRejected)
    else if parseDuration("1" + cfg.precision).None? then Err(PrecisionPanic)
    else if !(0 <= QueueSize(cfg.batchCount) <= maxQueue) then Err(CapacityPanic)
    else match parseDuration(cfg.batchInterval)
      case None => Err(IntervalPanic)
      case Some(interval) =>
        Ok(Settings(cfg.database, cfg.hostTag, cfg.labelTag, cfg.precision, interval,
                    cfg.batchCount, QueueSize(cfg.batchCount), WorkerCount(cfg.workerCount)))
  }

  /** The configuration test: a precision that does not parse panics; a valid
      precision with an empty interval panics; with interval "1s" the writer
      starts, with one worker and a queue of 100, since the batch count and
      worker count are left at 0. */
  lemma ConfigurationCases(maxQueue: int, parseDuration: string -> Option<int>)
    requires maxQueue >= 100
    requires parseDuration("1incorrect").None?
    requires parseDuration("1ms").Some?
    requires parseDuration("").None?
    requires parseDuration("1s").Some?
    ensures NewWriterSettings(Config("", "", "", "", 0, 0, "incorrect"), true, maxQueue, parseDuration) == Err(PrecisionPanic)
    ensures NewWriterSettings(Config("", "", "", "", 0, 0, "ms"), true, maxQueue, parseDuration) == Err(IntervalPanic)
    ensures var r := NewWriterSettings(Config("", "", "", "1s", 0, 0, "ms"), true, maxQueue, parseDuration);
      r.Ok? && r.value.workers == 1 && r.value.capacity == 100
  {
    assert "1" + "incorrect" == "1incorrect";
    assert "1" + "ms" == "1ms";
  }

  /** A batch count within 100 of the largest `int` makes `BatchCount+100`
      wrap to a negative queue size, so `make` panics even though every
      string in the configuration parses. */
  lemma QueueSizeWraps(maxQueue: int, parseDuration: string -> Option<int>)
    requires parseDuration("1ms").Some?
    requires parseDuration("1s").Some?
    ensures QueueSize(TwoTo63 - 50) < 0
    ensures NewWriterSettings(Config("", "", "", "1s", TwoTo63 - 50, 0, "ms"), true, maxQueue, parseDuration)
      == Err(CapacityPanic)
  {
    assert "1" + "ms" == "1ms";
  }

  // ---------------------------------------------------------------------
  // Payloads, points and batches
  // ---------------------------------------------------------------------

  /** What `Write` accepts: Go's `interface{}`, of which the worker
      recognises a `*Metric`, a `Metric` and a `[]Metric`. */
  datatype Payload =
    | Nil
    | MetricPointer(metric: Metric)
    | MetricValue(metric: Metric)
    | MetricSlice(metrics: seq<Metric>)
    | Unknown

  /** The metrics a payload carries, in the order the worker visits them. */
  function MetricsOf(p: Payload): seq<Metric> {
    match p
    case MetricPointer(m) => [m]
    case MetricValue(m) => [m]
    case MetricSlice(ms) => ms
    case _ => []
  }

  /** The value `processMessage` returns: how many metrics it visited. */
  function MetricCount(p: Payload): (n: nat)
    ensures p.MetricPointer? || p.MetricValue? ==> n == 1
    ensures p.MetricSlice? ==> n == |p.metrics|
    ensures p.Nil? || p.Unknown? ==> n == 0
  {
    |MetricsOf(p)|
  }

  /** How many metrics some payloads carry together. */
  function TotalMetrics(ps: seq<Payload>): nat
    decreases |ps|
  {
    if ps == [] then 0 else TotalMetrics(ps[..|ps| - 1]) + MetricCount(ps[|ps| - 1])
  }

  lemma TotalMetricsAppend(ps: seq<Payload>, p: Payload)
    ensures TotalMetrics(ps + [p]) == TotalMetrics(ps) + MetricCount(p)
  {
    assert (ps + [p])[..|ps|] == ps;
  }

  /** The tag maps of some metrics: what merging their tags may write to. */
  function MetricTags(ms: seq<Metric>): set<TagMap> {
    set i | 0 <= i < |ms| && ms[i].tags != null :: ms[i].tags
  }

  function PayloadTags(p: Payload): set<TagMap> {
    MetricTags(MetricsOf(p))
  }

  function QueueTags(q: seq<Payload>): set<TagMap> {
    if q == [] then {} else PayloadTags(q[0]) + QueueTags(q[1..])
  }

  /** A point as the sink library builds it; it keeps its own copy of the tags. */
  datatype Point = Point(
    measurement: string,
    tags: map<string, string>,
    fields: map<string, FieldValue>,
    time: int)

  /** A batch of points for one database and one timestamp precision. */
  datatype Batch = Batch(database: string, precision: string, points: seq<Point>)

  /** One call of the sink's `Write`, with its outcome. */
  datatype SinkCall = SinkCall(batch: Batch, failed: bool)

  /** `newBatch`: an empty batch for the writer's database and precision. */
  function NewBatch(database: string, precision: string): (b: Batch)
    ensures b.points == []
    ensures b.database == database && b.precision == precision
  {
    Batch(database, precision, [])
  }

  /** Every point handed to the sink, call after call. */
  function Delivered(calls: seq<SinkCall>): seq<Point>
    decreases |calls|
  {
    if calls == [] then [] else Delivered(calls[..|calls| - 1]) + calls[|calls| - 1].batch.points
  }

  lemma DeliveredAppend(calls: seq<SinkCall>, c: SinkCall)
    ensures Delivered(calls + [c]) == Delivered(calls) + c.batch.points
  {
    assert (calls + [c])[..|calls|] == calls;
  }

  // ---------------------------------------------------------------------
  // Tags
  // ---------------------------------------------------------------------

  /** The tags every worker attaches to every point. */
  function CommonTags(labelTag: string, hostTag: string): (t: map<string, string>)
    ensures t.Keys == {"label", "host"}
    ensures t["label"] == labelTag && t["host"] == hostTag
  {
    map["label" := labelTag, "host" := hostTag]
  }

  /** The tag map after `mergeTags` has written the common tags into it:
      every common key holds the common value, every other key of the
      metric's own map keeps its value. */
  function Merged(tags: map<string, string>, common: map<string, string>): (r: map<string, string>)
    ensures r.Keys == tags.Keys + common.Keys
    ensures forall k :: k in common ==> r[k] == common[k]
    ensures forall k :: k in tags && k !in common ==> r[k] == tags[k]
  {
    tags + common
  }

  /** Merging the common tags a second time changes nothing. */
  lemma MergedIdempotent(tags: map<string, string>, common: map<string, string>)
    ensures Merged(Merged(tags, common), common) == Merged(tags, common)
  {
  }

  /** `mergeTags`: with `nil` tags the common map itself is returned;
      otherwise the common tags are written into the metric's own map, which
      is returned. */
  method MergeTags(tags: TagMap?, commonTags: TagMap) returns (r: TagMap)
    modifies tags
    ensures tags == null ==> r == commonTags
    ensures tags != null ==> r == tags && tags.entries == Merged(old(tags.entries), old(commonTags.entries))
    ensures commonTags.entries == old(commonTags.entries)
  {
    if tags == null {
      return commonTags;
    }
    ghost var common := commonTags.entries;
    ghost var start := tags.entries;
    var keys := commonTags.entries.Keys;
    while keys != {}
      invariant keys <= common.Keys
      invariant commonTags.entries == common
      invariant tags.entries == start + map k | k in common.Keys - keys :: common[k]
      decreases keys
    {
      var k :| k in keys;
      tags.entries := tags.entries[k := commonTags.entries[k]];
      keys := keys - {k};
    }
    assert (map k | k in common.Keys - {} :: common[k]) == common;
    r := tags;
  }

  // ---------------------------------------------------------------------
  // Point assembly: newPoint, processMessage
  // ---------------------------------------------------------------------

  /** What the library's `NewPoint` yields for `m` built with tag map `tags`:
      the point, or nothing when `pointValid` rejects it. */
  function PointFrom(m: Metric, tags: map<string, string>, pointValid: Point -> bool): (added: seq<Point>)
    ensures |added| <= 1
    ensures pointValid(Point(m.measurement, tags, m.values, m.time)) <==> |added| == 1
    ensures |added| == 1 ==> added[0] == Point(m.measurement, tags, m.values, m.time)
  {
    var p := Point(m.measurement, tags, m.values, m.time);
    if pointValid(p) then [p] else []
  }

  /** The tags of `m`'s point when every tag map `t` holds `view[t]`. */
  function TagsWith(m: Metric, view: map<TagMap, map<string, string>>, common: map<string, string>): map<string, string>
    requires m.tags != null ==> m.tags in view
  {
    if m.tags == null then common else Merged(view[m.tags], common)
  }

  /** The points that visiting `ms` appends when every tag map `t` holds `view[t]`. */
  function PointsWith(ms: seq<Metric>, view: map<TagMap, map<string, string>>, common: map<string, string>,
                      pointValid: Point -> bool): seq<Point>
    requires MetricTags(ms) <= view.Keys
    decreases |ms|
  {
    if ms == [] then []
    else
      SliceStep(ms, |ms| - 1);
      assert ms[..|ms| - 1] == ms[..|ms| - 1][..|ms| - 1];
      var last := ms[|ms| - 1];
      PointsWith(ms[..|ms| - 1], view, common, pointValid) + PointFrom(last, TagsWith(last, view, common), pointValid)
  }

  /** The current contents of some tag maps. */
  ghost function Snapshot(ts: set<TagMap>): (view: map<TagMap, map<string, string>>)
    reads ts
    ensures view.Keys == ts
    ensures forall t :: t in ts ==> view[t] == t.entries
  {
    map t | t in ts :: t.entries
  }

  /** The points that visiting `ms` appends, given the tag maps as they are now. */
  ghost function ExpectedPoints(ms: seq<Metric>, common: map<string, string>, pointValid: Point -> bool): seq<Point>
    reads MetricTags(ms)
  {
    PointsWith(ms, Snapshot(MetricTags(ms)), common, pointValid)
  }

  /** The points that visiting every payload of `q` in order appends, when
      every tag map `t` holds `view[t]`. */
  function QueuePoints(q: seq<Payload>, view: map<TagMap, map<string, string>>, common: map<string, string>,
                       pointValid: Point -> bool): seq<Point>
    requires QueueTags(q) <= view.Keys
    decreases |q|
  {
    if q == [] then []
    else PointsWith(MetricsOf(q[0]), view, common, pointValid) + QueuePoints(q[1..], view, common, pointValid)
  }

  /** Every tag map of `ts` gives, once merged with `common`, what `view` gives. */
  ghost predicate MergesAgree(ts: set<TagMap>, view: map<TagMap, map<string, string>>, common: map<string, string>)
    reads ts
  {
    forall t :: t in ts ==> t in view && Merged(t.entries, common) == Merged(view[t], common)
  }

  /** Two views whose tag maps agree once merged give the same points: a tag map
      that an earlier payload already merged yields the tags it would have
      yielded unmerged. */
  lemma {:induction false} PointsWithMergedViews(ms: seq<Metric>, v1: map<TagMap, map<string, string>>,
                                                 v2: map<TagMap, map<string, string>>,
                                                 common: map<string, string>, pointValid: Point -> bool)
    requires MetricTags(ms) <= v1.Keys && MetricTags(ms) <= v2.Keys
    requires forall t :: t in MetricTags(ms) ==> Merged(v1[t], common) == Merged(v2[t], common)
    ensures PointsWith(ms, v1, common, pointValid) == PointsWith(ms, v2, common, pointValid)
    decreases |ms|
  {
    if ms != [] {
      SliceStep(ms, |ms| - 1);
      PointsWithMergedViews(ms[..|ms| - 1], v1, v2, common, pointValid);
      var last := ms[|ms| - 1];
      assert TagsWith(last, v1, common) == TagsWith(last, v2, common);
    }
  }

  /** `TotalMetrics` taken from the front: the first payload's metrics and then the rest. */
  lemma {:induction false} TotalMetricsFront(q: seq<Payload>)
    requires q != []
    ensures TotalMetrics(q) == MetricCount(q[0]) + TotalMetrics(q[1..])
    decreases |q|
  {
    var init := q[..|q| - 1];
    if |q| == 1 {
      assert init == [] && q[1..] == [];
    } else {
      TotalMetricsFront(init);
      assert init[0] == q[0];
      assert q[1..][..|q| - 2] == init[1..];
      assert q[1..][|q| - 2] == q[|q| - 1];
    }
  }

  /** A drained queue adds at most one point per metric it carries, and exactly
      one per metric when the library accepts every point. */
  lemma {:induction false} QueuePointsBound(q: seq<Payload>, view: map<TagMap, map<string, string>>,
                                            common: map<string, string>, pointValid: Point -> bool)
    requires QueueTags(q) <= view.Keys
    ensures |QueuePoints(q, view, common, pointValid)| <= TotalMetrics(q)
    ensures (forall p :: pointValid(p)) ==> |QueuePoints(q, view, common, pointValid)| == TotalMetrics(q)
    decreases |q|
  {
    if q != [] {
      TotalMetricsFront(q);
      PointsBound(MetricsOf(q[0]), view, common, pointValid);
      if forall p :: pointValid(p) {
        PointsAllAccepted(MetricsOf(q[0]), view, common, pointValid);
      }
      QueuePointsBound(q[1..], view, common, pointValid);
    }
  }

  /** At most one point per metric: a metric whose point the library rejects
      adds nothing. */
  lemma {:induction false} PointsBound(ms: seq<Metric>, view: map<TagMap, map<string, string>>,
                                       common: map<string, string>, pointValid: Point -> bool)
    requires MetricTags(ms) <= view.Keys
    ensures |PointsWith(ms, view, common, pointValid)| <= |ms|
    decreases |ms|
  {
    if ms != [] {
      SliceStep(ms, |ms| - 1);
      PointsBound(ms[..|ms| - 1], view, common, pointValid);
    }
  }

  /** When the library accepts every point, each metric gives exactly one. */
  lemma {:induction false} PointsAllAccepted(ms: seq<Metric>, view: map<TagMap, map<string, string>>,
                                             common: map<string, string>, pointValid: Point -> bool)
    requires MetricTags(ms) <= view.Keys
    requires forall p :: pointValid(p)
    ensures |PointsWith(ms, view, common, pointValid)| == |ms|
    decreases |ms|
  {
    if ms != [] {
      SliceStep(ms, |ms| - 1);
      PointsAllAccepted(ms[..|ms| - 1], view, common, pointValid);
    }
  }

  /** When the library rejects every point, no metric gives one. */
  lemma {:induction false} PointsNoneAccepted(ms: seq<Metric>, view: map<TagMap, map<string, string>>,
                                              common: map<string, string>, pointValid: Point -> bool)
    requires MetricTags(ms) <= view.Keys
    requires forall p :: !pointValid(p)
    ensures PointsWith(ms, view, common, pointValid) == []
    decreases |ms|
  {
    if ms != [] {
      SliceStep(ms, |ms| - 1);
      PointsNoneAccepted(ms[..|ms| - 1], view, common, pointValid);
    }
  }

  /** The k-th accepted point carries the merged tags of some metric of `ms`,
      and its measurement, fields and time: the points are the metrics' own,
      with the common tags. */
  lemma {:induction false} PointsComeFromMetrics(ms: seq<Metric>, view: map<TagMap, map<string, string>>,
                                                 common: map<string, string>, pointValid: Point -> bool, k: nat)
    requires MetricTags(ms) <= view.Keys
    requires k < |PointsWith(ms, view, common, pointValid)|
    ensures exists i :: (0 <= i < |ms| &&
      (ms[i].tags != null ==> ms[i].tags in view) &&
      PointsWith(ms, view, common, pointValid)[k] ==
        Point(ms[i].measurement, TagsWith(ms[i], view, common), ms[i].values, ms[i].time))
    decreases |ms|
  {
    SliceStep(ms, |ms| - 1);
    var init := ms[..|ms| - 1];
    var last := ms[|ms| - 1];
    var before := PointsWith(init, view, common, pointValid);
    if k < |before| {
      PointsComeFromMetrics(init, view, common, pointValid, k);
      var i :| 0 <= i < |init| && (init[i].tags != null ==> init[i].tags in view) &&
        before[k] == Point(init[i].measurement, TagsWith(init[i], view, common), init[i].values, init[i].time);
      assert init[i] == ms[i];
    } else {
      assert PointsWith(ms, view, common, pointValid)[k] == PointFrom(last, TagsWith(last, view, common), pointValid)[0];
    }
  }

  /** `newPoint`: merge the tags (in place), build the point, and hand it back
      for the batch unless the library rejects it. */
  method NewPoint(commonTags: TagMap, m: Metric, pointValid: Point -> bool) returns (added: seq<Point>)
    modifies m.tags
    ensures m.tags != null ==> m.tags.entries == Merged(old(m.tags.entries), old(commonTags.entries))
    ensures commonTags.entries == old(commonTags.entries)
    ensures added == PointFrom(m, if m.tags == null then commonTags.entries else m.tags.entries, pointValid)
  {
    var tags := MergeTags(m.tags, commonTags);
    var p := Point(m.measurement, tags.entries, m.values, m.time);
    if pointValid(p) {
      added := [p];
    } else {
      added := [];
    }
  }

  /** `processMessage`: visit the payload's metrics in order, appending their
      points to the batch, and return how many metrics were visited, whether
      or not their points were created. An unknown payload adds nothing. */
  method ProcessMessage(msg: Payload, batch: Batch, commonTags: TagMap, pointValid: Point -> bool)
    returns (ret: nat, batch': Batch)
    modifies PayloadTags(msg)
    ensures ret == MetricCount(msg)
    ensures batch'.database == batch.database && batch'.precision == batch.precision
    ensures batch'.points == batch.points + old(ExpectedPoints(MetricsOf(msg), commonTags.entries, pointValid))
    ensures commonTags.entries == old(commonTags.entries)
    ensures forall t :: t in PayloadTags(msg) ==> t.entries == Merged(old(t.entries), old(commonTags.entries))
  {
    var added: seq<Point>;
    ret, added := ProcessMetrics(MetricsOf(msg), commonTags, pointValid);
    batch' := batch.(points := batch.points + added);
  }

  /** The loop over the metrics of a payload: `ret++` per metric, and the
      point of each accepted metric appended in order. */
  method ProcessMetrics(ms: seq<Metric>, commonTags: TagMap, pointValid: Point -> bool)
    returns (ret: nat, added: seq<Point>)
    modifies MetricTags(ms)
    ensures ret == |ms|
    ensures added == old(ExpectedPoints(ms, commonTags.entries, pointValid))
    ensures commonTags.entries == old(commonTags.entries)
    ensures forall t :: t in MetricTags(ms) ==> t.entries == Merged(old(t.entries), old(commonTags.entries))
  {
    ghost var common := commonTags.entries;
    ghost var view := Snapshot(MetricTags(ms));
    ret, added := 0, [];
    for i := 0 to |ms|
      invariant ret == i
      invariant commonTags.entries == common
      invariant added == PointsWith(ms[..i], view, common, pointValid)
      invariant forall t :: t in MetricTags(ms) ==>
        t.entries == if t in MetricTags(ms[..i]) then Merged(view[t], common) else view[t]
    {
      SliceStep(ms, i);
      var m := ms[i];
      var point := NewPoint(commonTags, m, pointValid);
      if m.tags != null {
        MergedIdempotent(view[m.tags], common);
      }
      added := added + point;
      ret := ret + 1;
    }
    assert ms[..|ms|] == ms;
  }

  /** How one more metric extends the prefixes the loop over a slice keeps. */
  lemma SliceStep(ms: seq<Metric>, i: nat)
    requires i < |ms|
    ensures ms[..i + 1][..i] == ms[..i] && ms[..i + 1][i] == ms[i]
    ensures MetricTags(ms[..i + 1]) == MetricTags(ms[..i]) + (if ms[i].tags == null then {} else {ms[i].tags})
    ensures MetricTags(ms[..i + 1]) <= MetricTags(ms)
  {
    var pre, ext := ms[..i], ms[..i + 1];
    forall t | t in MetricTags(ext) ensures (t in MetricTags(pre) || t == ms[i].tags) && t in MetricTags(ms) {
      var j :| 0 <= j < |ext| && ext[j].tags != null && ext[j].tags == t;
      assert ext[j] == ms[j];
      if j < i { assert pre[j] == ext[j]; }
    }
    forall t | t in MetricTags(pre) ensures t in MetricTags(ext) {
      var j :| 0 <= j < |pre| && pre[j].tags != null && pre[j].tags == t;
      assert ext[j] == pre[j];
    }
    if ms[i].tags != null {
      assert ext[i] == ms[i];
    }
  }

  // ---------------------------------------------------------------------
  // The writer and one of its workers
  // ---------------------------------------------------------------------

  /** The ingestion queue shared by all workers, and the state of one worker:
      its open batch, `count`, the signals pending on its flush channel, the
      calls it made to the sink, and whether it has returned. */
  class Writer {
    const database: string
    const precision: string
    const batchCount: int
    const capacity: nat
    const labelTag: string
    const hostTag: string
    /** The worker's `tags` map: the common tags. */
    const commonTags: TagMap
    /** The sink library's acceptance check on a new point. */
    const pointValid: Point -> bool

    var queue: seq<Payload>
    var closed: bool
    var batch: Batch
    var count: nat
    var pending: nat
    var sent: seq<SinkCall>
    var stopped: bool

    /** Every payload the queue ever took, and those the worker took off it. */
    ghost var accepted: seq<Payload>
    ghost var dequeued: seq<Payload>
    /** Every point the worker ever added to one of its batches. */
    ghost var appended: seq<Point>

    ghost predicate Valid()
      reads this, commonTags
    {
      && |queue| <= capacity
      && pending <= ForceChanLen
      && commonTags.entries == CommonTags(labelTag, hostTag)
      && batch.database == database && batch.precision == precision
      && |batch.points| <= count
      && (forall i :: 0 <= i < |queue| ==> !queue[i].Nil?)
      && accepted == dequeued + queue
      && |appended| <= TotalMetrics(dequeued)
      && Delivered(sent) + (if stopped then [] else batch.points) == appended
      && (forall i :: 0 <= i < |sent| ==> sent[i].batch.database == database && sent[i].batch.precision == precision)
      && (stopped ==> closed && queue == [])
    }

    /** A writer made from the settings `NewWriter` computed, before any write. */
    constructor (s: Settings, pointValid: Point -> bool)
      ensures Valid() && fresh(commonTags)
      ensures database == s.database && precision == s.precision
      ensures batchCount == s.batchCount && capacity == s.capacity
      ensures labelTag == s.labelTag && hostTag == s.hostTag && this.pointValid == pointValid
      ensures queue == [] && !closed && !stopped
      ensures batch == NewBatch(database, precision) && count == 0 && pending == 0 && sent == []
      ensures accepted == [] && dequeued == [] && appended == []
    {
      database, precision := s.database, s.precision;
      batchCount, capacity := s.batchCount, s.capacity;
      labelTag, hostTag := s.labelTag, s.hostTag;
      this.pointValid := pointValid;
      commonTags := new TagMap(CommonTags(s.labelTag, s.hostTag));
      queue, closed, stopped := [], false, false;
      batch, count, pending, sent := NewBatch(s.database, s.precision), 0, 0, [];
      accepted, dequeued, appended := [], [], [];
    }

    /** `Write`: a `nil` payload is ignored; a payload that finds the queue
        full is dropped; any other goes to the tail of the queue. After
        `Close` the first two still return, but the send of any other payload
        is a send on a closed channel, which panics in Go. */
    method Write(p: Payload)
      requires Valid() && (!closed || p.Nil? || |queue| >= capacity)
      modifies this`queue, this`accepted
      ensures Valid()
      ensures p.Nil? ==> queue == old(queue)
      ensures !p.Nil? && |old(queue)| >= capacity ==> queue == old(queue)
      ensures !p.Nil? && |old(queue)| < capacity ==> queue == old(queue) + [p]
      ensures accepted == old(accepted) + (queue[|old(queue)|..])
    {
      if p.Nil? {
        return;
      }
      if |queue| >= capacity {
        return;
      }
      queue := queue + [p];
      accepted := accepted + [p];
    }

    /** `WriteSample`: write `p` only when the random draw fell below the
        sampling probability, which `sampled` says. */
    method WriteSample(p: Payload, sampled: bool)
      requires Valid() && (!closed || !sampled || p.Nil? || |queue| >= capacity)
      modifies this`queue, this`accepted
      ensures Valid()
      ensures !sampled || p.Nil? || |old(queue)| >= capacity ==> queue == old(queue)
      ensures sampled && !p.Nil? && |old(queue)| < capacity ==> queue == old(queue) + [p]
      ensures accepted == old(accepted) + (queue[|old(queue)|..])
    {
      if sampled {
        Write(p);
      }
    }

    /** The worker's timer fires: its signal goes on the flush channel when
        there is room; on a full channel the timer's send waits and this step
        changes nothing. */
    method Tick()
      requires Valid()
      modifies this`pending
      ensures Valid()
      ensures pending == if old(pending) < ForceChanLen then old(pending) + 1 else old(pending)
    {
      if pending < ForceChanLen {
        pending := pending + 1;
      }
    }

    /** The message case of the worker's `select`: take the head of the queue,
        add its points to the batch and its metric count to `count`, and, once
        `count` exceeds the batch size, queue a flush signal if the channel has
        room (otherwise drop it without waiting). */
    method ReceiveMessage()
      requires Valid() && |queue| > 0 && !stopped
      modifies this`queue, this`dequeued, this`count, this`batch, this`appended, this`pending
      modifies PayloadTags(queue[0])
      ensures Valid()
      ensures queue == old(queue)[1..] && dequeued == old(dequeued) + [old(queue)[0]]
      ensures count == old(count) + MetricCount(old(queue)[0])
      ensures batch.points == old(batch.points) + old(ExpectedPoints(MetricsOf(queue[0]), commonTags.entries, pointValid))
      ensures appended == old(appended) + old(ExpectedPoints(MetricsOf(queue[0]), commonTags.entries, pointValid))
      ensures pending == if count > batchCount && old(pending) < ForceChanLen then old(pending) + 1 else old(pending)
      ensures forall t :: t in old(PayloadTags(queue[0])) ==> t.entries == Merged(old(t.entries), CommonTags(labelTag, hostTag))
    {
      ghost var added := ExpectedPoints(MetricsOf(queue[0]), commonTags.entries, pointValid);
      PointsBound(MetricsOf(queue[0]), Snapshot(PayloadTags(queue[0])), commonTags.entries, pointValid);
      var m := Receive();
      var n, b := ProcessMessage(m, batch, commonTags, pointValid);
      Absorb(n, b, added);
      assert |appended| <= TotalMetrics(dequeued);
    }

    /** Taking the head of the queue. */
    method Receive() returns (m: Payload)
      requires Valid() && |queue| > 0
      modifies this`queue, this`dequeued
      ensures Valid()
      ensures m == old(queue)[0] && queue == old(queue)[1..] && dequeued == old(dequeued) + [m]
      ensures |appended| + MetricCount(m) <= TotalMetrics(dequeued)
    {
      TotalMetricsAppend(dequeued, queue[0]);
      m := queue[0];
      queue := queue[1..];
      dequeued := dequeued + [m];
    }

    /** `count += processMessage(...)`, the new batch in place, and the
        non-blocking flush signal once `count` exceeds the batch size. */
    method Absorb(n: nat, b: Batch, ghost added: seq<Point>)
      requires Valid() && !stopped
      requires b.database == database && b.precision == precision
      requires b.points == batch.points + added && |added| <= n
      requires |appended| + |added| <= TotalMetrics(dequeued)
      modifies this`count, this`batch, this`appended, this`pending
      ensures Valid()
      ensures count == old(count) + n && batch == b && appended == old(appended) + added
      ensures pending == if count > batchCount && old(pending) < ForceChanLen then old(pending) + 1 else old(pending)
    {
      ghost var delivered := Delivered(sent);
      ghost var open := batch.points;
      count := count + n;
      batch := b;
      appended := appended + added;
      assert delivered + batch.points == appended by {
        assert delivered + (open + added) == (delivered + open) + added;
      }
      if count > batchCount {
        if pending < ForceChanLen {
          pending := pending + 1;
        }
      }
    }

    /** The flush-signal case of the worker's `select`: with `count == 0`
        nothing happens besides consuming the signal; otherwise the batch goes
        to the sink once, and, whether or not the sink call failed, `count`
        returns to 0 and a new empty batch is opened. */
    method ReceiveFlush(sinkFails: bool)
      requires Valid() && pending > 0 && !stopped
      modifies this`pending, this`sent, this`count, this`batch
      ensures Valid()
      ensures pending == old(pending) - 1
      ensures old(count) == 0 ==> sent == old(sent) && batch == old(batch) && count == 0
      ensures old(count) > 0 ==>
        && sent == old(sent) + [SinkCall(old(batch), sinkFails)]
        && count == 0 && batch == NewBatch(database, precision)
    {
      pending := pending - 1;
      if count == 0 {
        return;
      }
      DeliveredAppend(sent, SinkCall(batch, sinkFails));
      sent := sent + [SinkCall(batch, sinkFails)];
      count := 0;
      batch := NewBatch(database, precision);
    }

    /** The closed-queue case of the worker's `select`, ready only once the
        queue is empty: the batch goes to the sink unconditionally, even when
        empty, and the worker returns. */
    method ReceiveClosed(sinkFails: bool)
      requires Valid() && closed && queue == [] && !stopped
      modifies this`sent, this`stopped
      ensures Valid()
      ensures sent == old(sent) + [SinkCall(batch, sinkFails)] && stopped
      ensures Delivered(sent) == appended
    {
      DeliveredAppend(sent, SinkCall(batch, sinkFails));
      sent := sent + [SinkCall(batch, sinkFails)];
      assert Delivered(sent) == Delivered(old(sent)) + batch.points;
      stopped := true;
    }

    /** `Close` followed by the worker's drain: the queue is closed, the worker
        takes every remaining payload (in this schedule before any flush
        signal), then makes its final sink call and returns. That call carries
        the batch that was open at `Close` followed by `drained`, the points of
        the queued payloads in queue order, so every point added before `Close`
        is delivered. */
    method Close(sinkFails: bool) returns (ghost drained: seq<Point>)
      requires Valid() && !closed && !stopped
      modifies this, QueueTags(queue)
      ensures Valid() && closed && stopped && queue == []
      ensures dequeued == old(dequeued) + old(queue)
      ensures drained == old(QueuePoints(queue, Snapshot(QueueTags(queue)), commonTags.entries, pointValid))
      ensures |sent| == |old(sent)| + 1 && sent[..|old(sent)|] == old(sent)
      ensures sent[|old(sent)|].batch.points == old(batch.points) + drained
      ensures appended == old(appended) + drained && Delivered(sent) == appended
      ensures Delivered(old(sent)) + old(batch.points) <= Delivered(sent)
      ensures old(queue) == [] ==> sent[|old(sent)|] == SinkCall(old(batch), sinkFails)
    {
      closed := true;
      drained := Drain();
      ReceiveClosed(sinkFails);
    }

    /** The message cases the worker runs after `Close`, until the queue is
        empty: the open batch grows by `drained`, the points of every drained
        payload in queue order, each computed from the tag maps as they were
        when the drain began. */
    method Drain() returns (ghost drained: seq<Point>)
      requires Valid() && closed && !stopped
      modifies this, QueueTags(queue)
      ensures Valid() && closed && !stopped && queue == []
      ensures dequeued == old(dequeued) + old(queue) && sent == old(sent)
      ensures drained == old(QueuePoints(queue, Snapshot(QueueTags(queue)), commonTags.entries, pointValid))
      ensures appended == old(appended) + drained && batch.points == old(batch.points) + drained
      ensures old(queue) == [] ==> batch == old(batch)
    {
      ghost var ts0 := QueueTags(queue);
      ghost var view0 := Snapshot(ts0);
      drained := QueuePoints(queue, view0, commonTags.entries, pointValid);
      assert queue == [] ==> drained == [];
      while queue != []
        invariant Valid() && closed && !stopped
        invariant QueueTags(queue) <= ts0
        invariant dequeued + queue == old(dequeued) + old(queue)
        invariant sent == old(sent)
        invariant commonTags.entries == old(commonTags.entries)
        invariant MergesAgree(ts0, view0, commonTags.entries)
        invariant appended + QueuePoints(queue, view0, commonTags.entries, pointValid) == old(appended) + drained
        invariant batch.points + QueuePoints(queue, view0, commonTags.entries, pointValid) == old(batch.points) + drained
        decreases |queue|
      {
        ghost var rest := QueuePoints(queue[1..], view0, commonTags.entries, pointValid);
        ghost var a, b := appended, batch.points;
        ghost var here := DrainStep(ts0, view0);
        Regrouped(a, here, rest, old(appended) + drained);
        Regrouped(b, here, rest, old(batch.points) + drained);
      }
      assert QueuePoints(queue, view0, commonTags.entries, pointValid) == [];
      assert batch.points + [] == batch.points && old(batch.points) + [] == old(batch.points);
    }

    /** One message case of the drain: the head payload adds its points as the
        tag maps at the start of the drain give them. */
    method DrainStep(ghost ts0: set<TagMap>, ghost view0: map<TagMap, map<string, string>>)
      returns (ghost here: seq<Point>)
      requires Valid() && |queue| > 0 && !stopped
      requires PayloadTags(queue[0]) <= ts0 && MergesAgree(ts0, view0, commonTags.entries)
      modifies this, PayloadTags(queue[0])
      ensures Valid()
      ensures queue == old(queue)[1..] && dequeued == old(dequeued) + [old(queue)[0]]
      ensures sent == old(sent) && closed == old(closed) && stopped == old(stopped)
      ensures accepted == old(accepted) && commonTags.entries == old(commonTags.entries)
      ensures here == PointsWith(MetricsOf(old(queue)[0]), view0, commonTags.entries, pointValid)
      ensures appended == old(appended) + here && batch.points == old(batch.points) + here
      ensures MergesAgree(ts0, view0, commonTags.entries)
    {
      ghost var p := queue[0];
      ghost var common := commonTags.entries;
      ghost var ms := MetricsOf(p);
      PointsWithMergedViews(ms, Snapshot(MetricTags(ms)), view0, common, pointValid);
      here := ExpectedPoints(ms, common, pointValid);
      ReceiveMessage();
      forall t | t in ts0
        ensures t in view0 && Merged(t.entries, common) == Merged(view0[t], common)
      {
        if t in PayloadTags(p) {
          MergedIdempotent(old(t.entries), common);
        }
      }
    }
  }

  /** Moving one payload's points from the pending part to the added part
      leaves their concatenation unchanged. */
  lemma Regrouped(a: seq<Point>, here: seq<Point>, rest: seq<Point>, total: seq<Point>)
    requires a + (here + rest) == total
    ensures (a + here) + rest == total
  {
  }

  /** A runtime metric has `nil` tags, so `mergeTags` hands back the common
      tag map itself, and its point carries exactly the common tags. */
  method RuntimeMetricTags(registry: seq<RegistryEntry>, now: int, commonTags: TagMap)
    returns (m: Metric, tags: TagMap)
    ensures m.measurement == "gopprof" && m.values == Collected(registry) && m.time == now
    ensures m.tags == null && tags == commonTags
    ensures forall view :: TagsWith(m, view, commonTags.entries) == commonTags.entries
  {
    var r := NewRuntimeMetric(registry, now);
    m := r.AsMetric();
    tags := MergeTags(m.tags, commonTags);
  }
}
