/**
 * One iteration of the main loop: a root span "process_batch" holding
 * `req_count` simulated items. Each item raises both packet totals by
 * `size // 512`, adds its latency to the batch latency and produces one log
 * record stamped with the trace id of the enclosing root span. At the end the
 * root span gets the attributes `batch.size` and `batch.latency_ms`.
 *
 * The random draws of an item, its measured latency, the ISO-8601 clock
 * reading of its record and the root span's context are parameters.
 */
module Batch {
  import opened Wrappers
  import opened Observations
  import opened Totals
  import opened TraceIdFormat
  import Entities

  /** `random.randint(3, 8)` items per batch. */
  const MinRequests: nat := 3
  const MaxRequests: nat := 8
  /** `random.randint(200, 4000)` bytes per item. */
  const MinSize: nat := 200
  const MaxSize: nat := 4000
  const Message: string := "processed message"

  /**
   * The draws and the measured latency of one pass of the inner loop. The
   * latency is a difference of two wall-clock readings, so it can be negative.
   */
  datatype Item = Item(src: string, dst: string, size: nat, status: string, latencyMs: int)

  /** What the draws of one item can be: `random.choice` of the lists, a size in range, "ok" or "error". */
  predicate WellFormedItem(it: Item)
  {
    && it.src in Entities.Sources
    && it.dst in Entities.Destinations
    && MinSize <= it.size <= MaxSize
    && (it.status == "ok" || it.status == "error")
  }

  /** The dictionary handed to `log_json`, field by field. */
  datatype LogRecord = LogRecord(
    ts: string,
    level: string,
    hostname: string,
    src: string,
    dst: string,
    bytes: nat,
    latencyMs: int,
    status: string,
    traceId: Option<string>,
    msg: string)

  /** The attributes the root span "process_batch" carries when it closes. */
  datatype RootSpan = RootSpan(hostname: string, batchSize: nat, batchLatencyMs: int)

  /** `"INFO" if status == "ok" else "ERROR"` */
  function Level(status: string): (level: string)
    ensures level == "INFO" <==> status == "ok"
    ensures level == "ERROR" <==> status != "ok"
  {
    if status == "ok" then "INFO" else "ERROR"
  }

  /** The record of one item; stamp is `datetime.utcnow().isoformat()`. */
  function MakeRecord(stamp: string, it: Item, traceId: Option<string>): LogRecord
  {
    LogRecord(stamp + "Z", Level(it.status), Hostname, it.src, it.dst, it.size, it.latencyMs, it.status, traceId, Message)
  }

  /**
   * The record dict carries its item's fields unchanged, the host, the trace
   * id and the fixed message; its level is "INFO" exactly for status "ok", and
   * its ts is the stamp with a trailing "Z" (dropping the "Z" gives the stamp back).
   */
  lemma RecordOfItem(stamp: string, it: Item, traceId: Option<string>)
    ensures var r := MakeRecord(stamp, it, traceId);
      && |r.ts| == |stamp| + 1 && r.ts[..|stamp|] == stamp && r.ts[|stamp|] == 'Z'
      && (r.level == "INFO" <==> it.status == "ok") && (r.level == "ERROR" <==> it.status != "ok")
      && r.hostname == Hostname && r.msg == Message && r.traceId == traceId
      && r.src == it.src && r.dst == it.dst && r.bytes == it.size
      && r.latencyMs == it.latencyMs && r.status == it.status
  {
  }

  /** The records of a batch, in item order. */
  function BatchRecords(stamps: seq<string>, items: seq<Item>, traceId: Option<string>): seq<LogRecord>
    requires |stamps| == |items|
  {
    if items == [] then []
    else
      var last := MakeRecord(stamps[|stamps| - 1], items[|items| - 1], traceId);
      BatchRecords(stamps[..|stamps| - 1], items[..|items| - 1], traceId) + [last]
  }

  /** The sum of the items' latencies. */
  function BatchLatency(items: seq<Item>): int
  {
    if items == [] then 0 else BatchLatency(items[..|items| - 1]) + items[|items| - 1].latencyMs
  }

  /** The sum of what the items add to each packet total. */
  function BatchIncrement(items: seq<Item>): nat
  {
    if items == [] then 0 else BatchIncrement(items[..|items| - 1]) + PacketIncrement(items[|items| - 1].size)
  }

  /** There is one record per item, the i-th built from the i-th item with the batch's trace id. */
  lemma {:induction false} BatchRecordsAt(stamps: seq<string>, items: seq<Item>, traceId: Option<string>)
    requires |stamps| == |items|
    ensures |BatchRecords(stamps, items, traceId)| == |items|
    ensures forall i :: 0 <= i < |items| ==>
      BatchRecords(stamps, items, traceId)[i] == MakeRecord(stamps[i], items[i], traceId)
  {
    if items != [] {
      BatchRecordsAt(stamps[..|stamps| - 1], items[..|items| - 1], traceId);
    }
  }

  /** Each item of a batch adds at most 7 to each total. */
  lemma {:induction false} BatchIncrementBound(items: seq<Item>)
    requires forall i :: 0 <= i < |items| ==> WellFormedItem(items[i])
    ensures BatchIncrement(items) <= 7 * |items|
  {
    if items != [] {
      BatchIncrementBound(items[..|items| - 1]);
    }
  }

  /**
   * The records of a batch all carry the same trace_id, the formatted id of the
   * root span; each reports its own item, and its level is "INFO" exactly when
   * the item's status is "ok".
   */
  lemma {:induction false} BatchRecordsCorrelated(stamps: seq<string>, items: seq<Item>, context: Option<nat>)
    requires |stamps| == |items|
    ensures var records := BatchRecords(stamps, items, FormatTraceId(context));
      && |records| == |items|
      && (forall i :: 0 <= i < |records| ==> records[i].traceId == FormatTraceId(context))
      && (forall i :: 0 <= i < |records| ==>
            && records[i].src == items[i].src && records[i].dst == items[i].dst
            && records[i].bytes == items[i].size && records[i].latencyMs == items[i].latencyMs
            && records[i].status == items[i].status
            && (records[i].level == "INFO" <==> items[i].status == "ok"))
      && (context.Some? && context.value != 0 ==>
            forall i :: 0 <= i < |records| ==> records[i].traceId.Some?)
  {
    BatchRecordsAt(stamps, items, FormatTraceId(context));
  }

  /**
   * One iteration of the main loop over the given items (`req_count` is
   * |items|); context is the span context of the root span, whose trace id every
   * record carries. Returns the records passed to `log_json` and the root span's
   * attributes.
   */
  method ProcessBatch(totals: PacketTotals, items: seq<Item>, stamps: seq<string>, context: Option<nat>)
    returns (records: seq<LogRecord>, root: RootSpan)
    requires totals.Valid()
    requires MinRequests <= |items| <= MaxRequests
    requires forall i :: 0 <= i < |items| ==> WellFormedItem(items[i])
    requires |stamps| == |items|
    modifies totals`packetsIn, totals`packetsOut
    ensures totals.Valid()
    ensures totals.packetsIn == old(totals.packetsIn) + BatchIncrement(items)
    ensures totals.packetsOut == old(totals.packetsOut) + BatchIncrement(items)
    ensures records == BatchRecords(stamps, items, FormatTraceId(context))
    ensures root == RootSpan(Hostname, |items|, BatchLatency(items))
  {
    var batchLatencyMs := 0;
    records := [];
    var i := 0;
    while i < |items|
      invariant 0 <= i <= |items|
      invariant totals.Valid()
      invariant totals.packetsIn == old(totals.packetsIn) + BatchIncrement(items[..i])
      invariant totals.packetsOut == old(totals.packetsOut) + BatchIncrement(items[..i])
      invariant batchLatencyMs == BatchLatency(items[..i])
      invariant records == BatchRecords(stamps[..i], items[..i], FormatTraceId(context))
    {
      assert items[..i + 1][..i] == items[..i] && stamps[..i + 1][..i] == stamps[..i];
      var item := items[i];
      batchLatencyMs := batchLatencyMs + item.latencyMs;
      totals.RecordItem(item.size);
      var traceId := FormatTraceId(context);
      records := records + [MakeRecord(stamps[i], item, traceId)];
      i := i + 1;
    }
    assert items[..i] == items && stamps[..i] == stamps;
    root := RootSpan(Hostname, |items|, batchLatencyMs);
  }
}
