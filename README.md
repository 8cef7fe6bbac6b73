# Three-pillars telemetry demo: counter store, rate estimator and batch records

This project models the state-update and record-building logic of the demo
application `demo-app/demo_three_pillars.py`. The application simulates a workload
that processes packets and emits three kinds of signal that can be correlated: metrics,
traces and logs. Three parts are modelled:

- **The entity counter store** (module `Entities`). There are five sources
  (`source1`..`source5`) and two destinations (`dest1`, `dest2`). Each has a record of
  cumulative counters: a source holds packets, bytes and last, a destination packets
  and bytes. The two pull callbacks `src_gauge_cb` and `dst_gauge_cb` walk their list
  in order. Each entity gets a random packet increment, and a byte increment equal to
  that count times a random packet size. Sources also get their `last` timestamp
  refreshed. Each callback returns a flat list of labelled observations of the new
  cumulative values. The class `EntityStore` holds the two tables as maps, and its
  two methods are the in-place loops. The loops are proved to compute the function
  `Pull`, and the lemmas state about `Pull` what the callbacks promise.
- **The global totals and the rate estimator** (module `Totals`). The class
  `PacketTotals` holds `packets_in_total` and `packets_out_total`, bumped by
  `size // 512` per processed item, and the estimator's state `last_total` and
  `last_rate_calc`. `packet_rate_cb` clamps the elapsed time to at least 0.001 s,
  divides, and hands the current total and clock on to its next call.
- **One iteration of the main loop** (module `Batch`). A batch of `req_count`
  items (3 to 8) is processed under one root span. Each item raises both totals,
  adds its latency to the batch latency, and yields one log record. Every record is
  stamped with the trace id of the root span, formatted as 32 lowercase hex digits
  (module `TraceIdFormat`), or null when there is no trace id. The record's level is
  `"INFO"` exactly when the status is `"ok"`.

Random draws, clock readings, measured latencies and the root span's context are
parameters. Their ranges are the preconditions: `randint(50, 200)`, `randint(40, 160)`,
`randint(64, 1200)`, `randint(200, 4000)` and `randint(3, 8)`. Python floats are
modelled as `real`, and Python integers as `nat`/`int` (they are unbounded in Python too).
The rate estimator reads the wall clock `time.time()`, which can step backwards.
The model accepts any pair of clock readings, and a non-positive elapsed time falls
under the 0.001 s floor.

## Model

| member | source | states |
|---|---|---|
| `TraceIdFormat.FormatTraceId` | demo-app/demo_three_pillars.py:166-167 | the result is null exactly when there is no span context or its trace id is 0; otherwise it is an all-lowercase-hex string of at least 32 characters that reads back as the trace id, and exactly 32 characters for every 128-bit id |
| `TraceIdFormat.HexDigits` | demo-app/demo_three_pillars.py:167 | the unpadded hex spelling of the id is non-empty and uses only the lowercase digits 0-9a-f |
| `TraceIdFormat.ZeroPad` | demo-app/demo_three_pillars.py:167 | the `032` padding gives max(32, digits) characters: the digits at the right end, zeros before them |
| `TraceIdFormat.HexDigitsRoundTrip` | demo-app/demo_three_pillars.py:167 | reading the hex digits back gives the original number |
| `TraceIdFormat.LeadingZeros` | demo-app/demo_three_pillars.py:167 | zero padding on the left does not change the value the digits denote |
| `TraceIdFormat.HexDigitsLength` | demo-app/demo_three_pillars.py:167 | a number below 16^w needs at most w hex digits |
| `TraceIdFormat.Hex032` | demo-app/demo_three_pillars.py:167 | `format(n, "032x")` reads back as n, has at least 32 characters, all lowercase hex |
| `TraceIdFormat.Hex032Width` | demo-app/demo_three_pillars.py:167 | every id below 2^128 is written with exactly 32 characters |
| `TraceIdFormat.FormatTraceIdInjective` | demo-app/demo_three_pillars.py:167 | two non-zero trace ids with the same formatted string are equal |
| `Entities.EntityLists` | demo-app/demo_three_pillars.py:73-74 | the sources are exactly `["source1", ..., "source5"]` and the destinations exactly `["dest1", "dest2"]`, in that order |
| `Entities.NamesDistinct` | demo-app/demo_three_pillars.py:73-74 | no entity name is listed twice |
| `Entities.InitialTable` | demo-app/demo_three_pillars.py:75-76 | the starting table holds exactly the listed names, each with a record of its kind whose packets, bytes and (for a source) last are 0 |
| `Entities.BumpAdds` | demo-app/demo_three_pillars.py:85-87 | one entity's update (`Bump`; lines 98-99 for a destination) keeps its kind, adds the packet draw to packets and the draw times the packet size to bytes, and sets a source's last to now |
| `Entities.ReportShape` | demo-app/demo_three_pillars.py:88-90 | one entity's report (`Report`; lines 100-101 for a destination) is its packets, then its bytes, then for a source its last: 3 observations for a source, 2 for a destination |
| `Entities.LabelSet` | demo-app/demo_three_pillars.py:100-101 | the label dict (`Labels`; lines 88-90 for a source) has exactly the keys hostname, dst (src for a source) and metric, holding the host, the entity's name and the metric |
| `Entities.Pull` | demo-app/demo_three_pillars.py:78-102 | a pull keeps the table's key set |
| `Entities.PullAll` | demo-app/demo_three_pillars.py:73-102 | any sequence of pulls keeps the table's key set |
| `Entities.PullUpdates` | demo-app/demo_three_pillars.py:82-87 | a pull over distinct names bumps each listed entity once, with its own draw, and leaves every other entry unchanged |
| `Entities.PullReportsNewTable` | demo-app/demo_three_pillars.py:85-90 | the observations a pull returns are the report of the table AFTER the pull: new cumulative values, not deltas |
| `Entities.PullLayout` | demo-app/demo_three_pillars.py:88-101 | when every entity reports k values, the pull returns k per entity and the i-th block of k is entity i's report, in list order |
| `Entities.SourcePullTable` | demo-app/demo_three_pillars.py:83-87 | a source pull adds its packet draw to each source's packets and that draw times its packet size to its bytes, and sets last to now |
| `Entities.SourcePullObservations` | demo-app/demo_three_pillars.py:82-91 | a source pull returns exactly 3 observations per source, in list order: new packets, new bytes and last, each labelled with hostname, src and metric |
| `Entities.DestinationPullTable` | demo-app/demo_three_pillars.py:96-99 | a destination pull adds its packet draw to each destination's packets and that draw times its packet size to its bytes |
| `Entities.DestinationPullObservations` | demo-app/demo_three_pillars.py:95-102 | a destination pull returns exactly 2 observations per destination: new packets and new bytes, labelled with hostname, dst and metric |
| `Entities.PullIncrementBounds` | demo-app/demo_three_pillars.py:83-86 | with draws in range, each packets increment is in [lo, hi] and each bytes increment is between 64 and 1200 times that packets increment |
| `Entities.BumpGrows` | demo-app/demo_three_pillars.py:85-86 | one entity's update keeps its kind and never lowers packets or bytes |
| `Entities.PullMonotone` | demo-app/demo_three_pillars.py:85-86 | one pull keeps every entity's kind and never lowers its packets or bytes |
| `Entities.PullAllMonotone` | demo-app/demo_three_pillars.py:73-76 | across any sequence of pulls the kinds are unchanged and cumulative packets and bytes never decrease |
| `Entities.StoreTablesCovered` | demo-app/demo_three_pillars.py:73-76 | the store's two tables meet the preconditions of the pull lemmas: distinct names, each with a record of its kind |
| `Entities.EntityStore.constructor` | demo-app/demo_three_pillars.py:73-76 | the tables hold exactly the listed names, with every counter at 0 |
| `Entities.EntityStore.PullSources` | demo-app/demo_three_pillars.py:78-91 | the in-place loop computes `Pull` over the sources, keeps the store's invariant, and leaves the destination table unchanged |
| `Entities.EntityStore.PullDestinations` | demo-app/demo_three_pillars.py:93-102 | the in-place loop computes `Pull` over the destinations, keeps the store's invariant, and leaves the source table unchanged |
| `Totals.Elapsed` | demo-app/demo_three_pillars.py:63 | the divisor is at least 0.001 and at least the real elapsed time, and is one of the two |
| `Totals.Rate` | demo-app/demo_three_pillars.py:63-65 | rate times the clamped elapsed time equals the growth of the total (so an unchanged total gives 0); the rate is non-negative when the total has not decreased |
| `Totals.PacketIncrement` | demo-app/demo_three_pillars.py:162-163 | the increment is the floor of size/512, and at most 7 for a size in [200, 4000] |
| `Totals.PacketTotals.constructor` | demo-app/demo_three_pillars.py:43-58 | both totals and `last_total` start at 0, and `last_rate_calc` at the start-up clock |
| `Totals.PacketTotals.RecordItem` | demo-app/demo_three_pillars.py:162-163 | both totals go up by `size // 512`, so they stay equal |
| `Totals.PacketTotals.PacketRate` | demo-app/demo_three_pillars.py:60-68 | returns one host-labelled rate observation computed from the previous state, never negative; afterwards `last_total` is the current in+out total and `last_rate_calc` is now |
| `Totals.PacketTotals.PacketsInObservations` | demo-app/demo_three_pillars.py:47-48 | `packets_in_cb` returns one observation, labelled with the host only, of the inbound total; under the invariant it equals the outbound total |
| `Totals.PacketTotals.PacketsOutObservations` | demo-app/demo_three_pillars.py:50-51 | `packets_out_cb` returns one observation, labelled with the host only, of the outbound total; under the invariant it equals the inbound total |
| `Totals.ObservedTotalsAgree` | demo-app/demo_three_pillars.py:47-51 | each of the in and out callbacks returns a single host-labelled observation, and the two values are equal |
| `Totals.RateExamples` | demo-app/demo_three_pillars.py:60-68 | 100 packets at t=0 and 150 at t=5 give 10 per second; an immediate second call with no growth is clamped and gives 0 |
| `Batch.Level` | demo-app/demo_three_pillars.py:171 | the level is "INFO" exactly when status is "ok", and "ERROR" exactly otherwise |
| `Batch.RecordOfItem` | demo-app/demo_three_pillars.py:169-180 | the record dict (`MakeRecord`) carries the item's src, dst, size, latency and status unchanged, the host, the trace id and the fixed message; level is "INFO" exactly for "ok", and ts is the stamp followed by one "Z" |
| `Batch.BatchRecordsAt` | demo-app/demo_three_pillars.py:145-180 | a batch yields exactly one record per item, the i-th built from the i-th item |
| `Batch.BatchRecordsCorrelated` | demo-app/demo_three_pillars.py:166-180 | every record carries the root span's trace id (non-null when that id is non-zero) and its own item's src, dst, size, latency and status, with level "INFO" exactly for "ok" |
| `Batch.BatchIncrementBound` | demo-app/demo_three_pillars.py:148-163 | a batch of valid items adds at most 7 per item to each total |
| `Batch.ProcessBatch` | demo-app/demo_three_pillars.py:139-183 | one iteration raises both totals by the sum of `size // 512`, returns the batch's records, and sets `batch.size` to `req_count` and `batch.latency_ms` to the sum of the latencies |

## Left out

- OpenTelemetry SDK wiring is not modelled: the resource, the meter and tracer providers, instrument registration and the OTLP exporters (lines 28-40, 53-54, 70, 104-105, 110-114). These are calls into libraries outside this model.
- Span machinery is not modelled: opening and closing the `process_batch`, `ingest`, `transform` and `store` spans, and the current-span lookup. The root span's context is a parameter of `Batch.ProcessBatch`, and its attributes come back as the `RootSpan` value.
- `log_json` is not modelled: the JSON serialisation, the rotating file handler, the directory creation and the handler lock (lines 119-131). `Batch.ProcessBatch` returns the records it would pass to `log_json`, in order.
- `random.*`, `time.time()`, `time.sleep()` and `datetime.utcnow().isoformat()` are parameters or are dropped: draws, clocks, latencies and ISO timestamps are inputs.
- The infinite `while True` loop and its `time.sleep(5)` (lines 137, 185) are not modelled; only one iteration is. The start-up `print` (line 136) is I/O.
- The exporter's timer thread runs concurrently with the main loop; this concurrency is not modelled. Every operation is taken to run atomically.
- IEEE float behaviour is not modelled. The rate and the clock are `real`, and each latency is an integer input (of any sign, since the wall clock can step back during an item), not derived from `int((time.time() - t0) * 1000)`.
- Entities.Labels: label sets are modelled as maps, so the key order of the Python dictionaries is not captured.
- Entities.EntityStore.PullDestinations: `dst_gauge_cb` reads no clock, so the method is tied to `Pull` with a constant clock argument. This argument plays no part for destination records.
