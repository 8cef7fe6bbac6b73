/**
 * The per-entity counter store and its two pull callbacks, `src_gauge_cb` and
 * `dst_gauge_cb`. There are two fixed tables, one keyed by the source names and
 * one by the destination names. On every pull the callback walks its names in
 * list order, adds a random packet count and that count times a random packet
 * size to the entity's cumulative counters (sources also get their `last`
 * timestamp refreshed), and reports the NEW cumulative values as a flat list
 * of labelled observations.
 *
 * The random draws and the clock reading are parameters of the pulls. Pull is
 * the specification of one callback as a function; the methods of EntityStore
 * are the in-place loops of the program, proved to compute it.
 */
module Entities {
  import opened Observations

  /** `[f"source{i}" for i in range(1, 6)]` */
  const Sources: seq<string> := Names("source", 5)
  /** `[f"dest{i}" for i in range(1, 3)]` */
  const Destinations: seq<string> := Names("dest", 2)

  /** `random.randint(50, 200)` for a source's packet increment. */
  const SourcePacketsMin: nat := 50
  const SourcePacketsMax: nat := 200
  /** `random.randint(40, 160)` for a destination's packet increment. */
  const DestPacketsMin: nat := 40
  const DestPacketsMax: nat := 160
  /** `random.randint(64, 1200)` for the per-packet size, in bytes, of both kinds. */
  const PacketSizeMin: nat := 64
  const PacketSizeMax: nat := 1200

  /** One entity's record: sources carry packets, bytes and last; destinations packets and bytes. */
  datatype Counters =
    | SourceCounters(packets: nat, bytes: nat, last: int)
    | DestCounters(packets: nat, bytes: nat)

  /** The two random numbers one entity draws in one pull. */
  datatype Draw = Draw(packets: nat, packetSize: nat)

  /** A pull's outcome: the new table and the observations it returns. */
  datatype PullResult = PullResult(table: map<string, Counters>, observations: seq<Observation<int>>)

  /** One round of a callback: the draws for every entity, in list order, and the clock reading. */
  datatype Round = Round(draws: seq<Draw>, now: int)

  /**
   * prefix + "1", ..., prefix + str(count). Both entity lists have fewer than ten
   * members, so each number is a single decimal digit.
   */
  function Names(prefix: string, count: nat): (names: seq<string>)
    requires count <= 9
    ensures |names| == count
    ensures forall i :: 0 <= i < count ==> names[i] == prefix + [('1' as int + i) as char]
  {
    seq(count, i requires 0 <= i < count => prefix + [('1' as int + i) as char])
  }

  predicate DrawsInRange(draws: seq<Draw>, lo: nat, hi: nat)
  {
    forall i :: 0 <= i < |draws| ==>
      lo <= draws[i].packets <= hi && PacketSizeMin <= draws[i].packetSize <= PacketSizeMax
  }

  predicate Distinct(names: seq<string>)
  {
    forall i, j :: 0 <= i < j < |names| ==> names[i] != names[j]
  }

  /** The table holds exactly the listed names, each with a record of the given kind. */
  ghost predicate WellFormedTable(t: map<string, Counters>, names: seq<string>, sources: bool)
  {
    t.Keys == (set n | n in names) && forall n :: n in t ==> t[n].SourceCounters? == sources
  }

  /** The table every entity list starts with: all counters at 0. */
  function InitialTable(names: seq<string>, sources: bool): (t: map<string, Counters>)
    ensures WellFormedTable(t, names, sources)
    ensures forall n :: n in t ==> t[n].packets == 0 && t[n].bytes == 0 && (t[n].SourceCounters? ==> t[n].last == 0)
  {
    map n | n in names :: if sources then SourceCounters(0, 0, 0) else DestCounters(0, 0)
  }

  /** The number of observations one entity contributes to a pull. */
  function Arity(c: Counters): nat
  {
    if c.SourceCounters? then 3 else 2
  }

  /** One entity's update in a pull. */
  function Bump(c: Counters, d: Draw, now: int): Counters
  {
    match c
    case SourceCounters(p, b, _) => SourceCounters(p + d.packets, b + d.packets * d.packetSize, now)
    case DestCounters(p, b) => DestCounters(p + d.packets, b + d.packets * d.packetSize)
  }

  /** `{"hostname": "host1", "src"/"dst": name, "metric": metric}` */
  function Labels(c: Counters, name: string, metric: string): map<string, string>
  {
    var key := if c.SourceCounters? then "src" else "dst";
    map["hostname" := Hostname, key := name, "metric" := metric]
  }

  /** The observations of one entity: packets, bytes and, for a source, last. */
  function Report(name: string, c: Counters): seq<Observation<int>>
  {
    [Observation(c.packets, Labels(c, name, "packets")), Observation(c.bytes, Labels(c, name, "bytes"))]
    + (if c.SourceCounters? then [Observation(c.last, Labels(c, name, "last"))] else [])
  }

  /** The observations of every listed entity, in list order, read from table t. */
  function ReportAll(names: seq<string>, t: map<string, Counters>): seq<Observation<int>>
    requires forall n :: n in names ==> n in t
  {
    if names == [] then []
    else ReportAll(names[..|names| - 1], t) + Report(names[|names| - 1], t[names[|names| - 1]])
  }

  /**
   * One pull over `names`: entity by entity, in list order, bump its counters
   * with its own draw and append its report of the new values.
   */
  function Pull(names: seq<string>, t: map<string, Counters>, draws: seq<Draw>, now: int): (r: PullResult)
    requires |draws| == |names|
    requires forall n :: n in names ==> n in t
    ensures r.table.Keys == t.Keys
  {
    if names == [] then PullResult(t, [])
    else
      var prev := Pull(names[..|names| - 1], t, draws[..|draws| - 1], now);
      var name := names[|names| - 1];
      var c := Bump(prev.table[name], draws[|draws| - 1], now);
      PullResult(prev.table[name := c], prev.observations + Report(name, c))
  }

  /** A pull over the first i + 1 names extends the pull over the first i by one entity. */
  lemma PullStep(names: seq<string>, t: map<string, Counters>, draws: seq<Draw>, now: int, i: nat)
    requires |draws| == |names| && i < |names|
    requires forall n :: n in names ==> n in t
    ensures var prev := Pull(names[..i], t, draws[..i], now);
      var c := Bump(prev.table[names[i]], draws[i], now);
      Pull(names[..i + 1], t, draws[..i + 1], now) == PullResult(prev.table[names[i] := c], prev.observations + Report(names[i], c))
  {
    assert names[..i + 1][..i] == names[..i] && draws[..i + 1][..i] == draws[..i];
  }

  /** Appending an entity's observations one by one appends its report. */
  lemma ReportAppends(out: seq<Observation<int>>, name: string, c: Counters)
    ensures var packets := Observation(c.packets, Labels(c, name, "packets"));
      var bytes := Observation(c.bytes, Labels(c, name, "bytes"));
      && (c.SourceCounters? ==>
           out + [packets] + [bytes] + [Observation(c.last, Labels(c, name, "last"))] == out + Report(name, c))
      && (c.DestCounters? ==> out + [packets] + [bytes] == out + Report(name, c))
  {
  }

  /** The table after a sequence of pulls. */
  function PullAll(names: seq<string>, t: map<string, Counters>, rounds: seq<Round>): (r: map<string, Counters>)
    requires forall k :: 0 <= k < |rounds| ==> |rounds[k].draws| == |names|
    requires forall n :: n in names ==> n in t
    ensures r.Keys == t.Keys
  {
    if rounds == [] then t
    else
      var before := PullAll(names, t, rounds[..|rounds| - 1]);
      var last := rounds[|rounds| - 1];
      Pull(names, before, last.draws, last.now).table
  }

  /** No name is listed twice, so every entity gets exactly one draw per pull. */
  lemma NamesDistinct(prefix: string, count: nat)
    requires count <= 9
    ensures Distinct(Names(prefix, count))
  {
    var names := Names(prefix, count);
    forall i, j | 0 <= i < j < count ensures names[i] != names[j] {
      assert names[i][|prefix|] != names[j][|prefix|];
    }
  }

  /** The two entity lists are exactly the five sources and the two destinations. */
  lemma EntityLists()
    ensures Sources == ["source1", "source2", "source3", "source4", "source5"]
    ensures Destinations == ["dest1", "dest2"]
  {
    assert Sources[0] == "source1" && Sources[1] == "source2" && Sources[2] == "source3";
    assert Sources[3] == "source4" && Sources[4] == "source5";
    assert Destinations[0] == "dest1" && Destinations[1] == "dest2";
  }

  /**
   * One entity's update adds its packet draw to its packets and that draw times
   * the packet size to its bytes; a source's last becomes now.
   */
  lemma BumpAdds(c: Counters, d: Draw, now: int)
    ensures var r := Bump(c, d, now);
      && r.SourceCounters? == c.SourceCounters?
      && r.packets == c.packets + d.packets
      && r.bytes == c.bytes + d.packets * d.packetSize
      && (r.SourceCounters? ==> r.last == now)
  {
  }

  /**
   * The labels of an observation: exactly hostname, the entity key ("src" for a
   * source, "dst" for a destination) and metric, with the host, the entity's
   * name and the metric as their values.
   */
  lemma LabelSet(c: Counters, name: string, metric: string)
    ensures var key := if c.SourceCounters? then "src" else "dst";
      var l := Labels(c, name, metric);
      && l.Keys == {"hostname", key, "metric"}
      && l["hostname"] == Hostname && l[key] == name && l["metric"] == metric
  {
  }

  /**
   * An entity reports its packets, then its bytes and, for a source only, its
   * last, each labelled with the entity's name and the metric it carries.
   */
  lemma ReportShape(name: string, c: Counters)
    ensures var r := Report(name, c);
      && |r| == Arity(c)
      && r[0] == Observation(c.packets, Labels(c, name, "packets"))
      && r[1] == Observation(c.bytes, Labels(c, name, "bytes"))
      && (c.SourceCounters? ==> r[2] == Observation(c.last, Labels(c, name, "last")))
  {
  }

  /** Reading a table is unaffected by an update of a name that is not read. */
  lemma {:induction false} ReportAllFrame(names: seq<string>, t: map<string, Counters>, x: string, c: Counters)
    requires forall n :: n in names ==> n in t
    requires x !in names
    ensures ReportAll(names, t[x := c]) == ReportAll(names, t)
  {
    if names != [] {
      ReportAllFrame(names[..|names| - 1], t, x, c);
    }
  }

  /** The report contains k observations per entity when every entity has arity k. */
  lemma {:induction false} ReportAllLength(names: seq<string>, t: map<string, Counters>, k: nat)
    requires forall n :: n in names ==> n in t && Arity(t[n]) == k
    ensures |ReportAll(names, t)| == k * |names|
  {
    if names != [] {
      var init := names[..|names| - 1];
      ReportAllLength(init, t, k);
      assert |Report(names[|names| - 1], t[names[|names| - 1]])| == k;
      assert k * |names| == k * |init| + k;
    }
  }

  /** Entity i's block of the report sits at k * i and is that entity's report. */
  lemma {:induction false} ReportAllLayout(names: seq<string>, t: map<string, Counters>, k: nat, i: nat)
    requires forall n :: n in names ==> n in t && Arity(t[n]) == k
    requires i < |names|
    ensures |ReportAll(names, t)| == k * |names|
    ensures ReportAll(names, t)[k * i .. k * i + k] == Report(names[i], t[names[i]])
  {
    ReportAllLength(names, t, k);
    var init := names[..|names| - 1];
    ReportAllLength(init, t, k);
    if i < |names| - 1 {
      ReportAllLayout(init, t, k, i);
      assert ReportAll(names, t)[k * i .. k * i + k] == ReportAll(init, t)[k * i .. k * i + k];
    } else {
      assert ReportAll(names, t)[k * i .. k * i + k] == Report(names[i], t[names[i]]);
    }
  }

  /**
   * A pull bumps each listed entity exactly once, with its own draw, and leaves
   * every other entry of the table as it was.
   */
  lemma {:induction false} PullUpdates(names: seq<string>, t: map<string, Counters>, draws: seq<Draw>, now: int)
    requires |draws| == |names| && Distinct(names)
    requires forall n :: n in names ==> n in t
    ensures forall i :: 0 <= i < |names| ==>
      Pull(names, t, draws, now).table[names[i]] == Bump(t[names[i]], draws[i], now)
    ensures forall n :: n in t && n !in names ==> Pull(names, t, draws, now).table[n] == t[n]
  {
    if names != [] {
      var init, name := names[..|names| - 1], names[|names| - 1];
      var prev := Pull(init, t, draws[..|draws| - 1], now);
      PullUpdates(init, t, draws[..|draws| - 1], now);
      var r := Pull(names, t, draws, now);
      assert r.table == prev.table[name := Bump(prev.table[name], draws[|draws| - 1], now)];
      assert name !in init by {
        forall i | 0 <= i < |init| ensures init[i] != name { assert init[i] == names[i]; }
      }
      forall i | 0 <= i < |names| ensures r.table[names[i]] == Bump(t[names[i]], draws[i], now) {
        if i < |init| {
          assert init[i] == names[i] && draws[..|draws| - 1][i] == draws[i];
        }
      }
      forall n | n in t && n !in names ensures r.table[n] == t[n] {
        assert n !in init && n != name;
      }
    }
  }

  /** What a pull returns is the report of the table after the pull: new cumulative values, not deltas. */
  lemma {:induction false} PullReportsNewTable(names: seq<string>, t: map<string, Counters>, draws: seq<Draw>, now: int)
    requires |draws| == |names| && Distinct(names)
    requires forall n :: n in names ==> n in t
    ensures Pull(names, t, draws, now).observations == ReportAll(names, Pull(names, t, draws, now).table)
  {
    if names != [] {
      var init := names[..|names| - 1];
      var name := names[|names| - 1];
      var prev := Pull(init, t, draws[..|draws| - 1], now);
      PullReportsNewTable(init, t, draws[..|draws| - 1], now);
      var c := Bump(prev.table[name], draws[|draws| - 1], now);
      assert name !in init by {
        forall i | 0 <= i < |init| ensures init[i] != name { assert init[i] == names[i]; }
      }
      ReportAllFrame(init, prev.table, name, c);
    }
  }

  /**
   * Over entities that all report k observations, a pull returns k per entity,
   * and the i-th block of k is the i-th entity's report of its new values.
   */
  lemma PullLayout(names: seq<string>, t: map<string, Counters>, draws: seq<Draw>, now: int, k: nat, i: nat)
    requires |draws| == |names| && Distinct(names) && i < |names|
    requires forall n :: n in names ==> n in t && Arity(t[n]) == k
    ensures var r := Pull(names, t, draws, now);
      && |r.observations| == k * |names|
      && r.observations[k * i .. k * i + k] == Report(names[i], r.table[names[i]])
  {
    var r := Pull(names, t, draws, now);
    PullMonotone(names, t, draws, now);
    PullReportsNewTable(names, t, draws, now);
    ReportAllLayout(names, r.table, k, i);
  }

  /** Every listed name has a record in t, and it is a source's record when `sources` holds, else a destination's. */
  predicate Covers(t: map<string, Counters>, names: seq<string>, sources: bool)
  {
    forall n :: n in names ==> n in t && t[n].SourceCounters? == sources
  }

  /**
   * A source pull (over Sources, or any list of distinct source names): each
   * source keeps its kind, its packets go up by its packet draw, its bytes by
   * that draw times its packet size, and its last becomes now.
   */
  lemma SourcePullTable(names: seq<string>, t: map<string, Counters>, draws: seq<Draw>, now: int)
    requires Distinct(names) && Covers(t, names, true) && |draws| == |names|
    ensures var r := Pull(names, t, draws, now).table;
      forall i :: 0 <= i < |names| ==>
        && r[names[i]].SourceCounters? && r[names[i]].last == now
        && r[names[i]].packets == t[names[i]].packets + draws[i].packets
        && r[names[i]].bytes == t[names[i]].bytes + draws[i].packets * draws[i].packetSize
  {
    PullUpdates(names, t, draws, now);
  }

  /**
   * A source pull returns exactly three observations per source; the i-th block
   * of three reports the i-th source's new packets, bytes and last, labelled
   * with the source's name and the metric.
   */
  lemma SourcePullObservations(names: seq<string>, t: map<string, Counters>, draws: seq<Draw>, now: int, i: nat)
    requires Distinct(names) && Covers(t, names, true)
    requires |draws| == |names| && i < |names|
    ensures var r := Pull(names, t, draws, now);
      var name, after := names[i], r.table[names[i]];
      && |r.observations| == 3 * |names|
      && after.SourceCounters?
      && r.observations[3 * i] == Observation(after.packets, Labels(after, name, "packets"))
      && r.observations[3 * i + 1] == Observation(after.bytes, Labels(after, name, "bytes"))
      && r.observations[3 * i + 2] == Observation(after.last, Labels(after, name, "last"))
  {
    var r := Pull(names, t, draws, now);
    var name := names[i];
    PullUpdates(names, t, draws, now);
    var after := r.table[name];
    assert after == Bump(t[name], draws[i], now);
    assert after.SourceCounters?;
    PullLayout(names, t, draws, now, 3, i);
    var block := r.observations[3 * i .. 3 * i + 3];
    assert block == Report(name, after);
    assert r.observations[3 * i] == block[0] && r.observations[3 * i + 1] == block[1];
    assert r.observations[3 * i + 2] == block[2];
  }

  /**
   * A destination pull: each destination keeps its kind, its packets go up by
   * its packet draw and its bytes by that draw times its packet size.
   */
  lemma DestinationPullTable(names: seq<string>, t: map<string, Counters>, draws: seq<Draw>, now: int)
    requires Distinct(names) && Covers(t, names, false) && |draws| == |names|
    ensures var r := Pull(names, t, draws, now).table;
      forall i :: 0 <= i < |names| ==>
        && r[names[i]].DestCounters?
        && r[names[i]].packets == t[names[i]].packets + draws[i].packets
        && r[names[i]].bytes == t[names[i]].bytes + draws[i].packets * draws[i].packetSize
  {
    PullUpdates(names, t, draws, now);
  }

  /**
   * A destination pull returns exactly two observations per destination; the
   * i-th block of two reports the i-th destination's new packets and bytes.
   */
  lemma DestinationPullObservations(names: seq<string>, t: map<string, Counters>, draws: seq<Draw>, now: int, i: nat)
    requires Distinct(names) && Covers(t, names, false)
    requires |draws| == |names| && i < |names|
    ensures var r := Pull(names, t, draws, now);
      var name, after := names[i], r.table[names[i]];
      && |r.observations| == 2 * |names|
      && r.observations[2 * i] == Observation(after.packets, Labels(after, name, "packets"))
      && r.observations[2 * i + 1] == Observation(after.bytes, Labels(after, name, "bytes"))
  {
    var r := Pull(names, t, draws, now);
    PullLayout(names, t, draws, now, 2, i);
    var block := r.observations[2 * i .. 2 * i + 2];
    assert r.observations[2 * i] == block[0] && r.observations[2 * i + 1] == block[1];
  }

  /** The store's tables meet what the pull lemmas ask for. */
  lemma StoreTablesCovered(src: map<string, Counters>, dst: map<string, Counters>)
    requires WellFormedTable(src, Sources, true) && WellFormedTable(dst, Destinations, false)
    ensures Distinct(Sources) && Covers(src, Sources, true)
    ensures Distinct(Destinations) && Covers(dst, Destinations, false)
  {
    NamesDistinct("source", 5);
    NamesDistinct("dest", 2);
  }

  lemma ProductBounds(a: nat, b: nat, lo: nat, hi: nat)
    requires lo <= b <= hi
    ensures a * lo <= a * b <= a * hi
  {
  }

  /** Each draw in range makes each increment of a pull lie in its bounds. */
  lemma PullIncrementBounds(names: seq<string>, t: map<string, Counters>, draws: seq<Draw>, now: int, lo: nat, hi: nat, i: nat)
    requires Distinct(names) && |draws| == |names| && i < |names|
    requires forall n :: n in names ==> n in t
    requires DrawsInRange(draws, lo, hi)
    ensures var before, after := t[names[i]], Pull(names, t, draws, now).table[names[i]];
      && lo <= after.packets - before.packets <= hi
      && (after.packets - before.packets) * PacketSizeMin <= after.bytes - before.bytes
      && after.bytes - before.bytes <= (after.packets - before.packets) * PacketSizeMax
  {
    PullUpdates(names, t, draws, now);
    var d := draws[i];
    var before, after := t[names[i]], Pull(names, t, draws, now).table[names[i]];
    assert after == Bump(before, d, now);
    assert after.packets - before.packets == d.packets;
    assert after.bytes - before.bytes == d.packets * d.packetSize;
    ProductBounds(d.packets, d.packetSize, PacketSizeMin, PacketSizeMax);
  }

  /** A bump keeps the kind and never lowers packets or bytes. */
  lemma BumpGrows(c: Counters, d: Draw, now: int)
    ensures Bump(c, d, now).SourceCounters? == c.SourceCounters?
    ensures c.packets <= Bump(c, d, now).packets && c.bytes <= Bump(c, d, now).bytes
  {
    ProductBounds(d.packets, d.packetSize, 0, d.packetSize);
  }

  /** One pull keeps every entity's kind and never lowers its packets or bytes. */
  lemma {:induction false} PullMonotone(names: seq<string>, t: map<string, Counters>, draws: seq<Draw>, now: int)
    requires Distinct(names) && |draws| == |names|
    requires forall n :: n in names ==> n in t
    ensures var r := Pull(names, t, draws, now).table;
      forall n :: n in t ==>
        && r[n].SourceCounters? == t[n].SourceCounters?
        && t[n].packets <= r[n].packets && t[n].bytes <= r[n].bytes
  {
    var r := Pull(names, t, draws, now).table;
    PullUpdates(names, t, draws, now);
    forall n | n in t
      ensures r[n].SourceCounters? == t[n].SourceCounters?
      ensures t[n].packets <= r[n].packets && t[n].bytes <= r[n].bytes
    {
      if n in names {
        var i :| 0 <= i < |names| && names[i] == n;
        assert r[n] == Bump(t[n], draws[i], now);
        BumpGrows(t[n], draws[i], now);
      } else {
        assert r[n] == t[n];
      }
    }
  }

  /**
   * Across any sequence of pulls the key set and the kinds are unchanged and
   * the cumulative packets and bytes of every entity never decrease.
   */
  lemma {:induction false} PullAllMonotone(names: seq<string>, t: map<string, Counters>, rounds: seq<Round>)
    requires forall k :: 0 <= k < |rounds| ==> |rounds[k].draws| == |names|
    requires Distinct(names) && forall n :: n in names ==> n in t
    ensures var r := PullAll(names, t, rounds);
      forall n :: n in t ==>
        && r[n].SourceCounters? == t[n].SourceCounters?
        && t[n].packets <= r[n].packets && t[n].bytes <= r[n].bytes
  {
    if rounds != [] {
      var before := PullAll(names, t, rounds[..|rounds| - 1]);
      var last := rounds[|rounds| - 1];
      PullAllMonotone(names, t, rounds[..|rounds| - 1]);
      PullMonotone(names, before, last.draws, last.now);
    }
  }

  /**
   * The module-level `src_state` and `dst_state` dictionaries, updated in place by
   * the two pull callbacks.
   */
  class EntityStore {
    var srcState: map<string, Counters>
    var dstState: map<string, Counters>

    ghost predicate Valid()
      reads this
    {
      WellFormedTable(srcState, Sources, true) && WellFormedTable(dstState, Destinations, false)
    }

    constructor ()
      ensures Valid()
      ensures srcState == InitialTable(Sources, true) && dstState == InitialTable(Destinations, false)
    {
      srcState := InitialTable(Sources, true);
      dstState := InitialTable(Destinations, false);
    }

    /** `src_gauge_cb`: now is `int(time.time())`, draws[i] are the two draws of Sources[i]. */
    method PullSources(now: int, draws: seq<Draw>) returns (out: seq<Observation<int>>)
      requires Valid()
      requires |draws| == |Sources| && DrawsInRange(draws, SourcePacketsMin, SourcePacketsMax)
      modifies this`srcState
      ensures Valid()
      ensures PullResult(srcState, out) == Pull(Sources, old(srcState), draws, now)
      ensures dstState == old(dstState)
    {
      out := [];
      var i := 0;
      while i < |Sources|
        invariant 0 <= i <= |Sources|
        invariant PullResult(srcState, out) == Pull(Sources[..i], old(srcState), draws[..i], now)
        invariant forall n :: n in srcState ==> srcState[n].SourceCounters?
      {
        PullStep(Sources, old(srcState), draws, now, i);
        var s := Sources[i];
        var c := srcState[s];
        var addPk := draws[i].packets;
        var addBy := addPk * draws[i].packetSize;
        var updated := SourceCounters(c.packets + addPk, c.bytes + addBy, now);
        assert updated == Bump(c, draws[i], now);
        srcState := srcState[s := updated];
        ReportAppends(out, s, updated);
        out := out + [Observation(updated.packets, Labels(updated, s, "packets"))];
        out := out + [Observation(updated.bytes, Labels(updated, s, "bytes"))];
        out := out + [Observation(updated.last, Labels(updated, s, "last"))];
        i := i + 1;
      }
      assert Sources[..i] == Sources && draws[..i] == draws;
    }

    /**
     * `dst_gauge_cb`: draws[i] are the two draws of Destinations[i]. Destinations
     * keep no timestamp, so the clock argument of Pull plays no part.
     */
    method PullDestinations(draws: seq<Draw>) returns (out: seq<Observation<int>>)
      requires Valid()
      requires |draws| == |Destinations| && DrawsInRange(draws, DestPacketsMin, DestPacketsMax)
      modifies this`dstState
      ensures Valid()
      ensures PullResult(dstState, out) == Pull(Destinations, old(dstState), draws, 0)
      ensures srcState == old(srcState)
    {
      out := [];
      var i := 0;
      while i < |Destinations|
        invariant 0 <= i <= |Destinations|
        invariant PullResult(dstState, out) == Pull(Destinations[..i], old(dstState), draws[..i], 0)
        invariant forall n :: n in dstState ==> dstState[n].DestCounters?
      {
        PullStep(Destinations, old(dstState), draws, 0, i);
        var d := Destinations[i];
        var c := dstState[d];
        var addPk := draws[i].packets;
        var addBy := addPk * draws[i].packetSize;
        var updated := DestCounters(c.packets + addPk, c.bytes + addBy);
        assert updated == Bump(c, draws[i], 0);
        dstState := dstState[d := updated];
        ReportAppends(out, d, updated);
        out := out + [Observation(updated.packets, Labels(updated, d, "packets"))];
        out := out + [Observation(updated.bytes, Labels(updated, d, "bytes"))];
        i := i + 1;
      }
      assert Destinations[..i] == Destinations && draws[..i] == draws;
    }
  }
}
