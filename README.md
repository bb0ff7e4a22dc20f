# go-influx batching writer, modelled in Dafny

This project models the core of `go-influx`: a writer that takes metrics from
producers and sends them to an InfluxDB sink in batches.

- **Ingestion queue.** `Write` puts a payload on a bounded queue of capacity
  `BatchCount+100`. It ignores a `nil` payload and drops a payload that finds
  the queue full.
- **Worker.** Each worker keeps an open batch and a `count`. Go's `select`
  drives it with three events:
  - a message: its metrics become points with the common tags, `count` grows
    by the number of metrics, and a flush signal is queued without blocking
    once `count > BatchCount`;
  - a flush signal, from the timer or from the worker itself: if `count > 0`,
    the batch is sent and a new empty batch is opened;
  - the closed queue: one final, unconditional send, after which the worker
    returns.
- **Point assembly.** `mergeTags` writes the common tags into the metric's own
  tag map, in place. A metric with `nil` tags gets the common map itself.
- **Runtime sampler.** The gauges it feeds and the metric it produces: a
  single-cell gauge; `CaptureRuntimeMemStatsOnce`, which sets gauges from a
  memory snapshot and takes differences against counters kept from the
  previous capture; and `newRuntimeMetric`, which reads a registry into a
  metric with `nil` tags.

Files, one module each: `influx.dfy` (influx.go), `runtime_metric.dfy`
(runtimeMetric.go), `gauge.dfy` (gauge.go), `runtime.dfy` (runtime.go),
`metrics.dfy` (metrics.go, as a record), `go_ints.dfy` (Go's fixed-width
integers), `wrappers.dfy` (Option and Result).

How things are represented:
- **Tag maps are objects** (class `Metrics.TagMap`). A Go map is a reference,
  so the in-place writes of `mergeTags` are visible to the producer and to any
  later payload that shares the map. `nil` is `null`.
- **Points are values.** The sink library copies the tags into the point.
- **One worker.** Class `Influx.Writer` holds the shared queue and the state of
  one worker: open batch, `count`, pending flush signals (at most 30), the log
  of sink calls with their outcome, and the closed and stopped flags.
- **Events are methods.** Each `select` case is a method whose `requires` is
  the condition under which Go could pick it. A scheduler may call any enabled
  method in any order.
- **Invariant.** `Writer.Valid()` holds after every event. It says:
  - the queue never exceeds its capacity and never holds `nil`;
  - FIFO: every accepted payload is either already taken or still queued, in
    order;
  - `|batch| <= count`, so `count == 0` means an empty batch;
  - the points handed to the sink, followed by the open batch, are exactly the
    points ever added, in order (none is lost or duplicated);
  - the worker never added more points than the metrics it took;
  - every sink call carries the writer's database and precision.

Four behaviours of the code that are easy to misread:
- on a key collision the **common tags win** and the metric's own map is
  changed (influx.go:198-200);
- `count` counts **metrics, not points** (influx.go:136, 163-170);
- the flush channel holds **30** signals (influx.go:12, 117);
- the final flush on close happens **even for an empty batch** (influx.go:130-134).

## Model

| member | source | states |
|---|---|---|
| `GoInts.Int64OfUint64` | runtime.go:62 | `int64(x)` of a uint64 keeps the bit pattern: the result is congruent to x modulo 2^64, is x below 2^63 and negative above |
| `GoInts.Uint64OfInt64` | runtime.go:75 | the inverse of the `int64` conversion at runtime.go:75: reading a gauge back as unsigned recovers the uint64 the capture stored, which is how `AbsoluteVerbatim` and `DeltaRecoversSnapshot` state their results |
| `GoInts.SubUint64` | runtime.go:75 | uint64 subtraction wraps: prev + result is the snapshot value modulo 2^64, and exact when there is no wrap |
| `GoInts.SubUint32` | runtime.go:90 | uint32 subtraction wraps modulo 2^32, and is exact when there is no wrap |
| `GoInts.AddInt64` | influx.go:61 | addition on Go's 64-bit `int` wraps: the result is congruent to the sum modulo 2^64, equals it inside the int64 range, and is negative when the sum passes the top |
| `Gauges.Gauge.constructor` | gauge.go:26-28 | `NewGauge` starts at 0 |
| `Gauges.Gauge.Update` | gauge.go:16-18 | after `Update(v)` the gauge holds v, whatever it held before |
| `Gauges.Gauge.Value` | gauge.go:21-23 | `Value` returns the stored value and modifies nothing |
| `Gauges.LastUpdateWins` | gauge.go:16-23 | of two updates the last one wins, and reading leaves it in place |
| `RuntimeMetrics.RuntimeMetric.Measurement` | runtimeMetric.go:11-13 | the measurement is always "gopprof" |
| `RuntimeMetrics.RuntimeMetric.Tags` | runtimeMetric.go:15-17 | returns the stored tags unchanged |
| `RuntimeMetrics.RuntimeMetric.Values` | runtimeMetric.go:19-21 | returns the stored values unchanged |
| `RuntimeMetrics.RuntimeMetric.Time` | runtimeMetric.go:23-25 | returns the stored time unchanged |
| `RuntimeMetrics.RuntimeMetric.AsMetric` | runtimeMetric.go:11-25 | seen through the Metric accessors, the metric is ("gopprof", its tags, its values, its time) |
| `RuntimeMetrics.Reported` | runtimeMetric.go:30-35 | a gauge contributes its `Value()`, a counter its `Count()`, any other kind nothing |
| `RuntimeMetrics.CollectedKeys` | runtimeMetric.go:29-36 | a name is in `values` exactly when some gauge or counter entry carries it; other kinds are omitted |
| `RuntimeMetrics.CollectedValue` | runtimeMetric.go:29-36 | a gauge or counter entry, when no later entry reuses its name, maps its name to its reported value |
| `RuntimeMetrics.NewRuntimeMetric` | runtimeMetric.go:26-42 | the loop over the registry yields exactly the collected values; tags are nil; time is the given instant |
| `RuntimeStats.CaptureCoverage` | runtime.go:62-121 | a capture sets every gauge except NumCgoCall; of the gauges outside MemStats only NumGoroutine changes, to the goroutine count |
| `RuntimeStats.FlagGauges` | runtime.go:64-73 | DebugGC and EnableGC read 1 exactly when the snapshot flag is set, and 0 exactly when it is not |
| `RuntimeStats.AbsoluteVerbatim` | runtime.go:62-63 | an absolute gauge (Alloc, HeapAlloc, Sys, TotalAlloc, ...) holds the snapshot's bits unchanged and does not depend on the previous counters |
| `RuntimeStats.DeltaRecoversSnapshot` | runtime.go:75-90 | Frees, Lookups and Mallocs hold the wrapped uint64 difference, read as int64; NumGC holds the wrapped uint32 difference, which is never negative |
| `RuntimeStats.SameSnapshotZeroDeltas` | runtime.go:110-113 | capturing against the counters of the same snapshot gives 0 for all four delta gauges |
| `RuntimeStats.RuntimeState.constructor` | runtime.go:8-47 | before registration there are no gauges and the previous counters are 0 |
| `RuntimeStats.RuntimeState.Register` | runtime.go:127-155 | every gauge is replaced by a fresh gauge at 0, no two names share one, and the previous counters are kept |
| `RuntimeStats.RuntimeState.UpdateGauges` | runtime.go:62-90 | the named gauges get their readings and every other gauge keeps its value |
| `RuntimeStats.RuntimeState.Capture` | runtime.go:57-122 | every gauge but NumCgoCall holds its reading against the old counters; NumCgoCall is unchanged; the stored counters become the snapshot's |
| `RuntimeStats.CaptureTwice` | runtime.go:57-122 | after two captures of one snapshot every delta gauge reads 0, every other gauge but NumCgoCall holds what the first capture stored, NumCgoCall is unchanged, and the counters are the snapshot's |
| `Influx.WorkerCount` | influx.go:66-68 | the worker count is at least 1, at least the configured count, and equals it or 1 |
| `Influx.QueueSize` | influx.go:61 | the queue size `BatchCount+100` is the plain sum below the top of the int range and wraps to a negative size within 100 of it |
| `Influx.NewWriterSettings` | influx.go:42-74 | succeeds exactly when the client is created, "1"+precision parses, the queue size is between 0 and the runtime's largest channel, and the interval parses; each failing check gives its own outcome, in source order: client error, precision panic, `make` panic, interval panic; queue capacity is BatchCount+100 and workers are max(1, WorkerCount) |
| `Influx.QueueSizeWraps` | influx.go:61 | a batch count of 2^63-50 makes the queue size wrap negative, so `NewWriter` panics although every string parses |
| `Influx.ConfigurationCases` | influx_test.go:9-27 | the configuration test: a bad precision panics, an empty interval panics, "ms" with "1s" starts one worker with a queue of 100 |
| `Influx.MetricCount` | influx.go:157-176 | `processMessage` returns 1 for a `*Metric` or `Metric`, the length for a `[]Metric`, and 0 otherwise |
| `Influx.NewBatch` | influx.go:187-193 | a new batch is empty and belongs to the writer's database and precision |
| `Influx.CommonTags` | influx.go:112-115 | the common tags are exactly `label` and `host`, holding the configured values |
| `Influx.Merged` | influx.go:198-201 | after merging, every common key holds the common value, every other key of the metric keeps its own value, and no other key appears |
| `Influx.MergedIdempotent` | influx.go:198-200 | merging the common tags into an already merged map changes nothing |
| `Influx.MergeTags` | influx.go:194-202 | nil tags give back the common map itself; otherwise the metric's own map is overwritten in place with the merge and returned; the common map keeps its value |
| `Influx.PointFrom` | influx.go:179-184 | a point is added exactly when the library accepts it, and it carries the metric's measurement, fields and time with the merged tags |
| `Influx.PointsBound` | influx.go:178-185 | a message adds at most one point per metric |
| `Influx.PointsAllAccepted` | influx.go:178-185 | when the library accepts every point, each metric adds exactly one |
| `Influx.PointsNoneAccepted` | influx.go:180-183 | when the library rejects every point, no point is added, although the metrics still count |
| `Influx.PointsComeFromMetrics` | influx.go:179 | every added point is some metric's measurement, fields and time with that metric's merged tags |
| `Influx.NewPoint` | influx.go:178-185 | the metric's tags are merged in place; the point built from the merged map is returned unless the library rejects it |
| `Influx.ProcessMessage` | influx.go:157-176 | returns the metric count; appends the points of the payload's metrics in order, as they were before merging; merges every tag map the payload reaches |
| `Influx.ProcessMetrics` | influx.go:167-171 | the loop's `ret++` counts every metric; each accepted point is appended in order, also when two metrics share a tag map |
| `Influx.Writer.constructor` | influx.go:56-125 | the writer starts with an empty queue of the configured capacity and the configured database, precision, batch size and tags (lines 56-65); its worker starts with an empty batch for that database and precision, the common tags, count 0, no pending flush signal and no sink call (lines 110-125) |
| `Influx.Writer.Write` | influx.go:91-106 | after `Close` only a nil payload or a full queue is allowed, as any other write panics; a nil payload leaves the queue unchanged; a full queue (length at least capacity) drops the payload; otherwise it is appended at the tail; the queue never exceeds capacity |
| `Influx.Writer.WriteSample` | influx.go:84-88 | writes only when the random draw fell below the probability, and then behaves as `Write` |
| `Influx.Writer.Tick` | influx.go:117-123 | a timer tick adds a pending flush signal when fewer than 30 are pending |
| `Influx.Writer.ReceiveMessage` | influx.go:129-142 | the head payload is taken; its points are appended in order; count grows by its metric count; a flush signal is queued only when count exceeds BatchCount and fewer than 30 are pending; the sink is not called |
| `Influx.Writer.Receive` | influx.go:129 | the head of the queue is removed, in FIFO order |
| `Influx.Writer.Absorb` | influx.go:136-142 | count grows by the metric count; the new signal is added only when count exceeds BatchCount and the channel has room |
| `Influx.Writer.ReceiveFlush` | influx.go:143-152 | with count 0 there is no sink call and batch and count stay; otherwise the batch is sent exactly once, count becomes 0 and a new empty batch is opened, whether or not the sink call failed |
| `Influx.Writer.ReceiveClosed` | influx.go:129-135 | enabled only once the queue is drained; sends the current batch unconditionally, even if empty; the worker stops with every added point delivered |
| `Influx.Writer.Close` | influx.go:77-81 | after close, the worker takes every remaining payload in order and makes exactly one more sink call, carrying the batch open at `Close` followed by the points of the queued payloads, in queue order; so every point added before `Close` is delivered, and with an empty queue the final call is the open batch itself |
| `Influx.Writer.Drain` | influx.go:127-142 | the worker takes the remaining payloads in order without a sink call, and its open batch grows by exactly the points of those payloads in queue order, each computed from the tag maps as they were when the drain began |
| `Influx.PointsWithMergedViews` | influx.go:194-200 | a tag map an earlier payload already merged gives the same point tags as before its merge, so later payloads sharing it add the same points |
| `Influx.QueuePointsBound` | influx.go:136-142 | the drained payloads add at most one point per metric they carry, and exactly one per metric when the library accepts every point |
| `Influx.RuntimeMetricTags` | influx.go:194-197 | a runtime metric has nil tags, so `mergeTags` returns the common map itself and its point carries exactly the common tags |

## Left out

- HTTP client and sink: `client.NewHTTPClient`, `client.Write` and `client.Close` are network I/O. Creating the client is a boolean outcome. The sink is a log of sink calls, each with a failure flag that changes nothing else.
- Closing the sink connection at the end of `Close` (influx.go:80) is not modelled.
- Inside the influxdb client library, `client.NewPoint` is a caller-supplied acceptance predicate `pointValid`. `NewBatchPoints` becomes `NewBatch`. Its failure on a bad precision cannot happen, because `NewWriterSettings` rejects such a precision first.
- Duration parsing: `time.ParseDuration` and `mustParseDuration` (util.go) become a caller-supplied function `parseDuration`. A panic is a failure result of `NewWriterSettings`.
- Concurrency: goroutines, `sync.WaitGroup`, several workers competing for one queue, and the timer's `time.Sleep` are not modelled. The model follows one worker. A timer tick is the event `Tick`.
- `Influx.Writer.Tick`: a tick that finds the channel full changes nothing. In Go the timer goroutine waits instead, and its send counts as a later `Tick`.
- The `default` branch of the `select` in `Write` (influx.go:102-104) can be reached only through a race between producers; a sequential model never reaches it.
- After `Close`, a `Write` of a nil payload or one that finds the queue full still returns (influx.go:92-98). Any other `Write` panics on the send (influx.go:101), and so does a second `Close`. These panics are not modelled: `Write` and `WriteSample` require the queue to be open unless the payload is nil or the queue is full, and `Close` requires an open queue.
- `make` panics on a channel above the runtime's allocation limit. In the model that limit is not a constant but the parameter `maxQueue` of `NewWriterSettings`.
- `count` (influx.go:125) is a Go `int` and could in principle wrap. Here it is an unbounded `nat`.
- `WriteSample`'s `rand.Float64` draw is the boolean `sampled`.
- A nil `*Metric` pointer makes the worker panic. It is not modelled: a pointer payload always carries a metric.
- `Influx.Writer.Close`: one schedule only, in which the worker takes every remaining payload before any pending flush signal. In Go the `select` may also run flushes during the drain. `Close` and `Drain` state the drained points against the queue as it was at `Close`.
- Runtime and registry: `runtime.ReadMemStats` and `runtime.NumGoroutine` are parameters of `Capture`. The `Registry` type and its `Register` and `Each` methods are not part of this model. The registry that `newRuntimeMetric` reads is a sequence of (name, instrument value) entries taken in visiting order. Registering the gauges by name (runtime.go:158-239) is not modelled.
- `RuntimeStats.RuntimeState.Capture`: capturing before registration panics in Go; here it is the precondition `Registered()`.
- `time.Now`, all logging and gauge.go's atomic loads and stores are not modelled; the semantics are sequential. Field values are integers, strings and booleans; floating point is not modelled.
- runtimeCollector.go only runs a ticker goroutine that calls `Write`. metrics.go is only the `Metric` interface, which becomes the `Metric` record.
