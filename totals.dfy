/**
 * The global packet totals, their two observation callbacks and the packet-rate
 * estimator `packet_rate_cb`. Clock readings (`time.time()`) are parameters of
 * type real, which stands for the float the program computes with.
 */
module Totals {
  import opened Observations

  /** The floor `max(0.001, ...)` puts under the elapsed time, in seconds. */
  const ElapsedFloor: real := 0.001

  /** The packet size a unit of `packets_in_total` stands for: `size // 512`. */
  const PacketUnit: nat := 512

  /** `max(0.001, now - last)`: never below the floor, never below the real elapsed time. */
  function Elapsed(now: real, last: real): (e: real)
    ensures e >= ElapsedFloor && e >= now - last
    ensures e == ElapsedFloor || e == now - last
  {
    if now - last > ElapsedFloor then now - last else ElapsedFloor
  }

  /**
   * `(current - last_total) / elapsed`: since the divisor is at least the floor,
   * the division is always defined; the rate is the packets added per second,
   * and it is never negative when the total has not gone down.
   */
  function Rate(current: int, previous: int, now: real, last: real): (rate: real)
    ensures rate * Elapsed(now, last) == (current - previous) as real
    ensures current >= previous ==> rate >= 0.0
  {
    (current - previous) as real / Elapsed(now, last)
  }

  /** `size // 512`, the amount one processed item adds to each total. */
  function PacketIncrement(size: nat): (k: nat)
    ensures k * PacketUnit <= size < (k + 1) * PacketUnit
    ensures 200 <= size <= 4000 ==> k <= 7
  {
    size / PacketUnit
  }

  /**
   * The module-level `packets_in_total`, `packets_out_total`, `last_total` and
   * `last_rate_calc`. Valid() is the invariant the program keeps: both totals
   * are raised together, so they are always equal, and the total the estimator
   * last saw is never above the current one.
   */
  class PacketTotals {
    var packetsIn: nat
    var packetsOut: nat
    var lastTotal: nat
    var lastRateCalc: real

    ghost predicate Valid()
      reads this
    {
      packetsIn == packetsOut && lastTotal <= packetsIn + packetsOut
    }

    /** Both totals and `last_total` start at 0; `last_rate_calc` is the clock at start-up. */
    constructor (startTime: real)
      ensures Valid()
      ensures packetsIn == 0 && packetsOut == 0 && lastTotal == 0 && lastRateCalc == startTime
    {
      packetsIn, packetsOut := 0, 0;
      lastTotal, lastRateCalc := 0, startTime;
    }

    /** `packets_in_cb`: one host-labelled observation of the inbound total, which under Valid() is also the outbound one. */
    function PacketsInObservations(): (obs: seq<Observation<int>>)
      reads this
      ensures |obs| == 1 && obs[0].attributes == HostLabels()
      ensures obs[0].value == packetsIn
      ensures Valid() ==> obs[0].value == packetsOut
    {
      [Observation(packetsIn, HostLabels())]
    }

    /** `packets_out_cb`: one host-labelled observation of the outbound total, which under Valid() is also the inbound one. */
    function PacketsOutObservations(): (obs: seq<Observation<int>>)
      reads this
      ensures |obs| == 1 && obs[0].attributes == HostLabels()
      ensures obs[0].value == packetsOut
      ensures Valid() ==> obs[0].value == packetsIn
    {
      [Observation(packetsOut, HostLabels())]
    }

    /** The two totals of one processed item of the given size (lines 162-163). */
    method RecordItem(size: nat)
      requires Valid()
      modifies this`packetsIn, this`packetsOut
      ensures Valid()
      ensures packetsIn == old(packetsIn) + PacketIncrement(size)
      ensures packetsOut == old(packetsOut) + PacketIncrement(size)
    {
      packetsIn := packetsIn + size / PacketUnit;
      packetsOut := packetsOut + size / PacketUnit;
    }

    /**
     * `packet_rate_cb` at clock reading now: reports the rate since the last call
     * and hands the current total and now on to the next call.
     */
    method PacketRate(now: real) returns (obs: seq<Observation<real>>)
      requires Valid()
      modifies this`lastTotal, this`lastRateCalc
      ensures Valid()
      ensures obs == [Observation(Rate(packetsIn + packetsOut, old(lastTotal), now, old(lastRateCalc)), HostLabels())]
      ensures obs[0].value >= 0.0
      ensures lastTotal == packetsIn + packetsOut && lastRateCalc == now
    {
      var elapsed := if now - lastRateCalc > ElapsedFloor then now - lastRateCalc else ElapsedFloor;
      var current := packetsIn + packetsOut;
      var rate := (current - lastTotal) as real / elapsed;
      lastTotal := current;
      lastRateCalc := now;
      obs := [Observation(rate, HostLabels())];
    }
  }

  /** The in and out counters always report the same value. */
  lemma ObservedTotalsAgree(t: PacketTotals)
    requires t.Valid()
    ensures |t.PacketsInObservations()| == 1 && |t.PacketsOutObservations()| == 1
    ensures t.PacketsInObservations()[0].value == t.PacketsOutObservations()[0].value
    ensures t.PacketsInObservations()[0].attributes == t.PacketsOutObservations()[0].attributes == HostLabels()
  {
  }

  /**
   * The worked case: 100 packets seen at time 0 and 150 at time 5 give 10 per
   * second; a second call at once, with nothing new, is clamped and gives 0.
   */
  lemma RateExamples()
    ensures Rate(150, 100, 5.0, 0.0) == 10.0
    ensures Elapsed(5.0, 5.0) == ElapsedFloor && Rate(150, 150, 5.0, 5.0) == 0.0
  {
  }
}
