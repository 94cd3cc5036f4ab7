/** The iperf3 push script: reading the metrics out of iperf3's JSON report, writing them
    as exposition lines for the Pushgateway together with the push URL, and the
    success/failure mapping of the iperf3 and ping runs. The JSON report is a `Json`
    value; the Python dict of metrics is a sequence of entries with distinct keys, kept in
    insertion order. The HTTP exchange, the clock and float formatting are parameters. */
module PushIperfMetrics {
  import opened PyText
  import opened Tools
  import opened Exposition
  import opened Patterns

  // ---------------------------------------------------------------------------
  // The JSON report and Python's reading of it

  /** A value `json.loads` produces. A float keeps its literal and whether its value is
      zero (which is all its truth value depends on); its numeric value is not modelled. */
  datatype Json =
    | Null
    | Bool(b: bool)
    | Int(i: int)
    | Float(literal: string, zero: bool)
    | Str(s: string)
    | Array(items: seq<Json>)
    | Object(members: seq<Member>)

  /** One `"name": value` pair of an object, in the order of the report. */
  datatype Member = Member(name: string, value: Json)

  const EmptyObject: Json := Object([])
  const EmptyArray: Json := Array([])

  /** The value an object's members give `name`: the last pair with that name, which is
      the one `json.loads` keeps. */
  function Lookup(members: seq<Member>, name: string): Option<Json>
  {
    if members == [] then None
    else if members[|members| - 1].name == name then Some(members[|members| - 1].value)
    else Lookup(members[..|members| - 1], name)
  }

  lemma {:induction false} LookupLast(members: seq<Member>, name: string)
    ensures Lookup(members, name).None? <==> forall k :: 0 <= k < |members| ==> members[k].name != name
    ensures Lookup(members, name).Some? ==>
      exists k :: 0 <= k < |members| && members[k] == Member(name, Lookup(members, name).value)
        && forall j :: k < j < |members| ==> members[j].name != name
  {
    if members != [] && members[|members| - 1].name != name {
      var init := members[..|members| - 1];
      LookupLast(init, name);
      if Lookup(init, name).Some? {
        var k :| 0 <= k < |init| && init[k] == Member(name, Lookup(init, name).value)
          && forall j :: k < j < |init| ==> init[j].name != name;
        assert members[k] == init[k];
      }
    }
  }

  /** `obj.get(name, default)` on a dict; callers only apply it to dicts, and any other
      value gives the default. */
  function GetOr(obj: Json, name: string, default: Json): Json
  {
    if !obj.Object? then default
    else
      var found := Lookup(obj.members, name);
      if found.Some? then found.value else default
  }

  /** `obj.get(name, default)` on any value: `None` stands for the AttributeError raised
      when `obj` is not a dict. */
  function Get(obj: Json, name: string, default: Json): (r: Option<Json>)
    ensures r.Some? <==> obj.Object?
  {
    if obj.Object? then Some(GetOr(obj, name, default)) else None
  }

  /** A `get` on a value that is missing because an earlier `get` raised. */
  function Then(obj: Option<Json>, name: string, default: Json): (r: Option<Json>)
    ensures r.Some? <==> obj.Some? && obj.value.Object?
  {
    if obj.None? then None else Get(obj.value, name, default)
  }

  /** Python's truth value of a JSON value. */
  predicate Truthy(v: Json)
  {
    match v
    case Null => false
    case Bool(b) => b
    case Int(i) => i != 0
    case Float(_, zero) => !zero
    case Str(s) => s != []
    case Array(items) => items != []
    case Object(members) => members != []
  }

  /** `isinstance(v, (int, float))`; a bool is an int in Python. */
  predicate IsNumber(v: Json)
  {
    v.Bool? || v.Int? || v.Float?
  }

  // ---------------------------------------------------------------------------
  // The metrics dict

  datatype Key =
    | ThroughputMbps | BytesSent | Retransmits | ThroughputRecvMbps | BytesReceived
    | JitterMs | LostPackets | LostPercent | CpuHostTotal | CpuRemoteTotal | LatencyAvgMs

  function KeyText(key: Key): string
  {
    match key
    case ThroughputMbps => "throughput_mbps"
    case BytesSent => "bytes_sent"
    case Retransmits => "retransmits"
    case ThroughputRecvMbps => "throughput_recv_mbps"
    case BytesReceived => "bytes_received"
    case JitterMs => "jitter_ms"
    case LostPackets => "lost_packets"
    case LostPercent => "lost_percent"
    case CpuHostTotal => "cpu_host_total"
    case CpuRemoteTotal => "cpu_remote_total"
    case LatencyAvgMs => "latency_avg_ms"
  }

  /** What a metric holds: a value copied out of the report, a throughput worked out as
      `bits_per_second / 1_000_000` (a float), or the average round-trip time `float()`
      read from ping's output. */
  datatype Metric = Leaf(json: Json) | Mbps(bitsPerSecond: Json) | AverageMs(text: string)

  datatype Entry = Entry(key: Key, value: Metric)

  /** A dict from keys to metrics, in insertion order. */
  type Metrics = seq<Entry>

  function Keys(metrics: Metrics): seq<Key>
  {
    if metrics == [] then [] else [metrics[0].key] + Keys(metrics[1..])
  }

  function Find(metrics: Metrics, key: Key): Option<Metric>
  {
    if metrics == [] then None
    else if metrics[0].key == key then Some(metrics[0].value)
    else Find(metrics[1..], key)
  }

  /** `metrics[key] = value`: a key already present keeps its place, a new key goes last. */
  function Put(metrics: Metrics, key: Key, value: Metric): Metrics
  {
    if metrics == [] then [Entry(key, value)]
    else if metrics[0].key == key then [Entry(key, value)] + metrics[1..]
    else [metrics[0]] + Put(metrics[1..], key, value)
  }

  predicate Distinct(keys: seq<Key>)
  {
    forall i, j :: 0 <= i < j < |keys| ==> keys[i] != keys[j]
  }

  lemma {:induction false} FindKeys(metrics: Metrics, key: Key)
    ensures Find(metrics, key).Some? <==> key in Keys(metrics)
  {
    if metrics != [] {
      FindKeys(metrics[1..], key);
    }
  }

  /** Assigning a key adds it at the end exactly when it is new, and changes the value
      found under it and under no other key. */
  lemma {:induction false} PutEffect(metrics: Metrics, key: Key, value: Metric)
    ensures Keys(Put(metrics, key, value)) == if key in Keys(metrics) then Keys(metrics) else Keys(metrics) + [key]
    ensures Find(Put(metrics, key, value), key) == Some(value)
    ensures forall other :: other != key ==> Find(Put(metrics, key, value), other) == Find(metrics, other)
  {
    if metrics != [] && metrics[0].key != key {
      PutEffect(metrics[1..], key, value);
    }
  }

  lemma PutDistinct(metrics: Metrics, key: Key, value: Metric)
    requires Distinct(Keys(metrics))
    ensures Distinct(Keys(Put(metrics, key, value)))
  {
    PutEffect(metrics, key, value);
  }

  // ---------------------------------------------------------------------------
  // parse_iperf_results

  /** The dict so far and whether an exception has been raised; once one has, the
      `except` clause returns the dict as it stands. */
  datatype Partial = Partial(metrics: Metrics, raised: bool)

  /** `metrics[key] = value` where working out the value may raise. */
  function Assign(p: Partial, key: Key, value: Option<Metric>): Partial
  {
    if p.raised then p
    else if value.None? then Partial(p.metrics, true)
    else Partial(Put(p.metrics, key, value.value), false)
  }

  function AsLeaf(v: Option<Json>): Option<Metric>
  {
    if v.None? then None else Some(Leaf(v.value))
  }

  /** `v / 1_000_000`, which raises TypeError unless `v` is a number. */
  function PerMillion(v: Option<Json>): Option<Metric>
  {
    if v.Some? && IsNumber(v.value) then Some(Mbps(v.value)) else None
  }

  /** The sender statistics. */
  function SenderStage(end: Json): Partial
  {
    var sent := Get(end, "sum_sent", EmptyObject);
    var p1 := Assign(Partial([], false), ThroughputMbps, PerMillion(Then(sent, "bits_per_second", Int(0))));
    var p2 := Assign(p1, BytesSent, AsLeaf(Then(sent, "bytes", Int(0))));
    Assign(p2, Retransmits, AsLeaf(Then(sent, "retransmits", Int(0))))
  }

  /** The receiver statistics. */
  function ReceiverStage(p: Partial, end: Json): Partial
  {
    if p.raised then p
    else
      var received := Get(end, "sum_received", EmptyObject);
      var p1 := Assign(p, ThroughputRecvMbps, PerMillion(Then(received, "bits_per_second", Int(0))));
      Assign(p1, BytesReceived, AsLeaf(Then(received, "bytes", Int(0))))
  }

  /** One pass of the stream loop: a stream with a non-empty `udp` section sets the three
      UDP metrics. */
  function StreamStep(p: Partial, stream: Json): Partial
  {
    if p.raised then p
    else
      var udp := Get(stream, "udp", EmptyObject);
      if udp.None? then Partial(p.metrics, true)
      else if !Truthy(udp.value) then p
      else UdpAssigns(p, udp.value)
  }

  /** The three UDP assignments; the first raises when `udp` is not a dict. */
  function UdpAssigns(p: Partial, udp: Json): Partial
  {
    var p1 := Assign(p, JitterMs, AsLeaf(Get(udp, "jitter_ms", Int(0))));
    var p2 := Assign(p1, LostPackets, AsLeaf(Then(Some(udp), "lost_packets", Int(0))));
    Assign(p2, LostPercent, AsLeaf(Then(Some(udp), "lost_percent", Int(0))))
  }

  function StreamLoop(p: Partial, streams: seq<Json>): Partial
  {
    if streams == [] then p
    else StreamStep(StreamLoop(p, streams[..|streams| - 1]), streams[|streams| - 1])
  }

  /** The stream statistics: nothing when `streams` is empty; iterating a value that is not
      a list raises (a dict or a string yields strings, which have no `get`; a number is
      not iterable). */
  function StreamsStage(p: Partial, end: Json): Partial
  {
    if p.raised then p
    else
      var streams := Get(end, "streams", EmptyArray);
      if streams.None? then Partial(p.metrics, true)
      else if !Truthy(streams.value) then p
      else if streams.value.Array? then StreamLoop(p, streams.value.items)
      else Partial(p.metrics, true)
  }

  /** The CPU statistics. */
  function CpuStage(p: Partial, end: Json): Partial
  {
    if p.raised then p
    else
      var cpu := Get(end, "cpu_utilization_percent", EmptyObject);
      var p1 := Assign(p, CpuHostTotal, AsLeaf(Then(cpu, "host_total", Int(0))));
      Assign(p1, CpuRemoteTotal, AsLeaf(Then(cpu, "remote_total", Int(0))))
  }

  /** The dict `parse_iperf_results` returns for a report. */
  function IperfMetrics(data: Json): Metrics
  {
    var end := Get(data, "end", EmptyObject);
    if end.None? then []
    else CpuStage(StreamsStage(ReceiverStage(SenderStage(end.value), end.value), end.value), end.value).metrics
  }

  /** Once raised, the rest of the loop leaves the dict alone. */
  lemma {:induction false} StreamLoopRaised(p: Partial, done: seq<Json>, rest: seq<Json>)
    requires StreamLoop(p, done).raised
    ensures StreamLoop(p, done + rest) == StreamLoop(p, done)
  {
    if rest != [] {
      var init := rest[..|rest| - 1];
      assert (done + rest)[..|done + rest| - 1] == done + init;
      assert (done + rest)[|done + rest| - 1] == rest[|rest| - 1];
      StreamLoopRaised(p, done, init);
    } else {
      assert done + rest == done;
    }
  }

  /** One pass of the loop over `streams`. */
  method ApplyStream(metrics: Metrics, stream: Json) returns (result: Metrics, raised: bool)
    ensures Partial(result, raised) == StreamStep(Partial(metrics, false), stream)
  {
    result, raised := metrics, false;
    var udp := Get(stream, "udp", EmptyObject);
    if udp.None? {
      return metrics, true;
    }
    if Truthy(udp.value) {
      var jitter := Get(udp.value, "jitter_ms", Int(0));
      if jitter.None? {
        return metrics, true;
      }
      result := Put(result, JitterMs, Leaf(jitter.value));
      result := Put(result, LostPackets, Leaf(GetOr(udp.value, "lost_packets", Int(0))));
      result := Put(result, LostPercent, Leaf(GetOr(udp.value, "lost_percent", Int(0))));
    }
  }

  /** The loop over `streams`, stopping at the first stream that raises. */
  method ApplyStreams(metrics: Metrics, streams: seq<Json>) returns (result: Metrics, raised: bool)
    ensures Partial(result, raised) == StreamLoop(Partial(metrics, false), streams)
  {
    result, raised := metrics, false;
    for i := 0 to |streams|
      invariant Partial(result, false) == StreamLoop(Partial(metrics, false), streams[..i])
    {
      assert streams[..i + 1][..i] == streams[..i];
      result, raised := ApplyStream(result, streams[i]);
      if raised {
        StreamLoopRaised(Partial(metrics, false), streams[..i + 1], streams[i + 1..]);
        assert streams[..i + 1] + streams[i + 1..] == streams;
        return;
      }
    }
    assert streams[..|streams|] == streams;
  }

  /** `parse_iperf_results(data)`: the metrics read up to the first exception. */
  method ParseIperfResults(data: Json) returns (metrics: Metrics)
    ensures metrics == IperfMetrics(data)
  {
    metrics := [];
    var end := Get(data, "end", EmptyObject);
    if end.None? {
      return;
    }
    var sentGot := Get(end.value, "sum_sent", EmptyObject);
    if sentGot.None? {
      return;
    }
    var sent := sentGot.value;
    var sentBits := Get(sent, "bits_per_second", Int(0));
    if sentBits.None? || !IsNumber(sentBits.value) {
      return;
    }
    metrics := Put(metrics, ThroughputMbps, Mbps(sentBits.value));
    metrics := Put(metrics, BytesSent, Leaf(GetOr(sent, "bytes", Int(0))));
    metrics := Put(metrics, Retransmits, Leaf(GetOr(sent, "retransmits", Int(0))));
    assert Partial(metrics, false) == SenderStage(end.value);

    var received := Get(end.value, "sum_received", EmptyObject).value;
    var receivedBits := Get(received, "bits_per_second", Int(0));
    if receivedBits.None? || !IsNumber(receivedBits.value) {
      return;
    }
    metrics := Put(metrics, ThroughputRecvMbps, Mbps(receivedBits.value));
    metrics := Put(metrics, BytesReceived, Leaf(GetOr(received, "bytes", Int(0))));
    ghost var afterReceiver := ReceiverStage(SenderStage(end.value), end.value);
    assert Partial(metrics, false) == afterReceiver;

    var streams := GetOr(end.value, "streams", EmptyArray);
    if Truthy(streams) {
      if !streams.Array? {
        return;
      }
      var raised;
      metrics, raised := ApplyStreams(metrics, streams.items);
      if raised {
        return;
      }
    }
    assert Partial(metrics, false) == StreamsStage(afterReceiver, end.value);

    var cpu := GetOr(end.value, "cpu_utilization_percent", EmptyObject);
    var host := Get(cpu, "host_total", Int(0));
    if host.None? {
      return;
    }
    metrics := Put(metrics, CpuHostTotal, Leaf(host.value));
    metrics := Put(metrics, CpuRemoteTotal, Leaf(GetOr(cpu, "remote_total", Int(0))));
  }

  // ---------------------------------------------------------------------------
  // What parse_iperf_results promises

  const SumKeys: seq<Key> := [ThroughputMbps, BytesSent, Retransmits, ThroughputRecvMbps, BytesReceived]
  const UdpKeys: seq<Key> := [JitterMs, LostPackets, LostPercent]
  const CpuKeys: seq<Key> := [CpuHostTotal, CpuRemoteTotal]

  /** The keys of a complete run, in the order they are first assigned; `udp` says whether
      some stream carried UDP statistics. */
  function StandardKeys(udp: bool): seq<Key>
  {
    SumKeys + (if udp then UdpKeys else []) + CpuKeys
  }

  /** A run that is on its way to assigning `keys`: it has assigned all of them when
      nothing has raised, and a prefix of them otherwise. */
  predicate Reach(p: Partial, keys: seq<Key>)
  {
    if p.raised then Keys(p.metrics) <= keys else Keys(p.metrics) == keys
  }

  lemma ReachAssign(p: Partial, keys: seq<Key>, key: Key, value: Option<Metric>)
    requires Reach(p, keys) && key !in keys
    ensures Reach(Assign(p, key, value), keys + [key])
  {
    if !p.raised && value.Some? {
      PutEffect(p.metrics, key, value.value);
    }
  }

  lemma ReachReassign(p: Partial, keys: seq<Key>, key: Key, value: Option<Metric>)
    requires Reach(p, keys) && !p.raised && key in keys
    ensures Reach(Assign(p, key, value), keys)
  {
    if value.Some? {
      PutEffect(p.metrics, key, value.value);
    }
  }

  lemma SenderReach(end: Json)
    ensures Reach(SenderStage(end), [ThroughputMbps, BytesSent, Retransmits])
  {
    var sent := Get(end, "sum_sent", EmptyObject);
    var p0 := Partial([], false);
    var p1 := Assign(p0, ThroughputMbps, PerMillion(Then(sent, "bits_per_second", Int(0))));
    var p2 := Assign(p1, BytesSent, AsLeaf(Then(sent, "bytes", Int(0))));
    ReachAssign(p0, [], ThroughputMbps, PerMillion(Then(sent, "bits_per_second", Int(0))));
    ReachAssign(p1, [ThroughputMbps], BytesSent, AsLeaf(Then(sent, "bytes", Int(0))));
    ReachAssign(p2, [ThroughputMbps, BytesSent], Retransmits, AsLeaf(Then(sent, "retransmits", Int(0))));
  }

  lemma ReceiverReach(p: Partial, end: Json)
    requires Reach(p, [ThroughputMbps, BytesSent, Retransmits])
    ensures Reach(ReceiverStage(p, end), SumKeys)
  {
    if !p.raised {
      var received := Get(end, "sum_received", EmptyObject);
      var p1 := Assign(p, ThroughputRecvMbps, PerMillion(Then(received, "bits_per_second", Int(0))));
      ReachAssign(p, [ThroughputMbps, BytesSent, Retransmits], ThroughputRecvMbps,
        PerMillion(Then(received, "bits_per_second", Int(0))));
      ReachAssign(p1, [ThroughputMbps, BytesSent, Retransmits, ThroughputRecvMbps], BytesReceived,
        AsLeaf(Then(received, "bytes", Int(0))));
    }
  }

  /** The stream loop leaves a run on its way to the keys with or without the UDP ones. */
  predicate ReachStreams(p: Partial)
  {
    Reach(p, SumKeys) || Reach(p, SumKeys + UdpKeys)
  }

  /** The first `udp` section takes the run from the sum keys to the UDP keys. */
  lemma UdpAssignsReach(p: Partial, udp: Json)
    requires Reach(p, SumKeys) && !p.raised
    ensures Reach(UdpAssigns(p, udp), SumKeys + UdpKeys)
  {
    ReachThree(p, SumKeys, AsLeaf(Get(udp, "jitter_ms", Int(0))),
      AsLeaf(Then(Some(udp), "lost_packets", Int(0))), AsLeaf(Then(Some(udp), "lost_percent", Int(0))));
  }

  /** Three assignments of the UDP keys on a run that has none of them. */
  lemma ReachThree(p: Partial, keys: seq<Key>, x: Option<Metric>, y: Option<Metric>, z: Option<Metric>)
    requires Reach(p, keys) && JitterMs !in keys && LostPackets !in keys && LostPercent !in keys
    ensures Reach(Assign(Assign(Assign(p, JitterMs, x), LostPackets, y), LostPercent, z), keys + UdpKeys)
  {
    var p1 := Assign(p, JitterMs, x);
    var p2 := Assign(p1, LostPackets, y);
    ReachAssign(p, keys, JitterMs, x);
    ReachAssign(p1, keys + [JitterMs], LostPackets, y);
    ReachAssign(p2, keys + [JitterMs] + [LostPackets], LostPercent, z);
    assert keys + [JitterMs] + [LostPackets] + [LostPercent] == keys + UdpKeys;
  }

  /** A later `udp` section keeps the keys where they are. */
  lemma UdpAssignsKeep(p: Partial, udp: Json)
    requires Reach(p, SumKeys + UdpKeys) && !p.raised
    ensures Reach(UdpAssigns(p, udp), SumKeys + UdpKeys)
  {
    var p1 := Assign(p, JitterMs, AsLeaf(Get(udp, "jitter_ms", Int(0))));
    var p2 := Assign(p1, LostPackets, AsLeaf(Then(Some(udp), "lost_packets", Int(0))));
    ReachReassign(p, SumKeys + UdpKeys, JitterMs, AsLeaf(Get(udp, "jitter_ms", Int(0))));
    if !p1.raised {
      ReachReassign(p1, SumKeys + UdpKeys, LostPackets, AsLeaf(Then(Some(udp), "lost_packets", Int(0))));
      ReachReassign(p2, SumKeys + UdpKeys, LostPercent, AsLeaf(Then(Some(udp), "lost_percent", Int(0))));
    }
  }

  lemma StreamStepReach(p: Partial, stream: Json)
    requires ReachStreams(p)
    ensures ReachStreams(StreamStep(p, stream))
  {
    var udp := Get(stream, "udp", EmptyObject);
    if !p.raised && udp.Some? && Truthy(udp.value) {
      if Reach(p, SumKeys) {
        UdpAssignsReach(p, udp.value);
      } else {
        UdpAssignsKeep(p, udp.value);
      }
    }
  }

  lemma {:induction false} StreamLoopReach(p: Partial, streams: seq<Json>)
    requires ReachStreams(p)
    ensures ReachStreams(StreamLoop(p, streams))
  {
    if streams != [] {
      StreamLoopReach(p, streams[..|streams| - 1]);
      StreamStepReach(StreamLoop(p, streams[..|streams| - 1]), streams[|streams| - 1]);
    }
  }

  lemma CpuReach(p: Partial, end: Json, keys: seq<Key>)
    requires Reach(p, keys) && CpuHostTotal !in keys && CpuRemoteTotal !in keys
    ensures Reach(CpuStage(p, end), keys + CpuKeys)
  {
    if !p.raised {
      var cpu := Get(end, "cpu_utilization_percent", EmptyObject);
      var p1 := Assign(p, CpuHostTotal, AsLeaf(Then(cpu, "host_total", Int(0))));
      ReachAssign(p, keys, CpuHostTotal, AsLeaf(Then(cpu, "host_total", Int(0))));
      ReachAssign(p1, keys + [CpuHostTotal], CpuRemoteTotal, AsLeaf(Then(cpu, "remote_total", Int(0))));
      assert keys + [CpuHostTotal] + [CpuRemoteTotal] == keys + CpuKeys;
    } else {
      assert keys <= keys + CpuKeys;
    }
  }

  lemma StreamsReach(p: Partial, end: Json)
    requires Reach(p, SumKeys)
    ensures ReachStreams(StreamsStage(p, end))
  {
    var items := Get(end, "streams", EmptyArray);
    if !p.raised && items.Some? && Truthy(items.value) && items.value.Array? {
      StreamLoopReach(p, items.value.items);
    }
  }

  lemma StagesReach(end: Json)
    ensures ReachStreams(StreamsStage(ReceiverStage(SenderStage(end), end), end))
  {
    SenderReach(end);
    ReceiverReach(SenderStage(end), end);
    StreamsReach(ReceiverStage(SenderStage(end), end), end);
  }

  /** Whatever the report holds, the dict's keys come in the fixed order, cut short where
      an exception was raised. */
  lemma ParsedKeysInOrder(data: Json)
    ensures Keys(IperfMetrics(data)) <= StandardKeys(false)
      || Keys(IperfMetrics(data)) <= StandardKeys(true)
  {
    var end := Get(data, "end", EmptyObject);
    if end.Some? {
      EndKeysInOrder(end.value);
    }
  }

  lemma EndKeysInOrder(end: Json)
    ensures var final := CpuStage(StreamsStage(ReceiverStage(SenderStage(end), end), end), end);
      Keys(final.metrics) <= StandardKeys(false) || Keys(final.metrics) <= StandardKeys(true)
  {
    StagesReach(end);
    CpuKeysInOrder(StreamsStage(ReceiverStage(SenderStage(end), end), end), end);
  }

  lemma CpuKeysInOrder(p: Partial, end: Json)
    requires ReachStreams(p)
    ensures Keys(CpuStage(p, end).metrics) <= StandardKeys(false)
      || Keys(CpuStage(p, end).metrics) <= StandardKeys(true)
  {
    if Reach(p, SumKeys) {
      CpuReach(p, end, SumKeys);
      assert SumKeys + CpuKeys == StandardKeys(false);
    } else {
      CpuReach(p, end, SumKeys + UdpKeys);
      assert SumKeys + UdpKeys + CpuKeys == StandardKeys(true);
    }
  }

  // A report as iperf3 writes it: every section a dict, the throughputs numbers, and
  // every stream a dict whose `udp` section, when present, is a dict.

  predicate StreamShaped(stream: Json)
  {
    stream.Object? && var udp := GetOr(stream, "udp", EmptyObject); !Truthy(udp) || udp.Object?
  }

  predicate StreamsShaped(streams: seq<Json>)
  {
    forall i :: 0 <= i < |streams| ==> StreamShaped(streams[i])
  }

  predicate SumShaped(sum: Json)
  {
    sum.Object? && IsNumber(GetOr(sum, "bits_per_second", Int(0)))
  }

  predicate EndShaped(end: Json)
  {
    end.Object?
    && SumShaped(GetOr(end, "sum_sent", EmptyObject))
    && SumShaped(GetOr(end, "sum_received", EmptyObject))
    && (var streams := GetOr(end, "streams", EmptyArray);
        !Truthy(streams) || (streams.Array? && StreamsShaped(streams.items)))
    && GetOr(end, "cpu_utilization_percent", EmptyObject).Object?
  }

  predicate WellFormed(data: Json)
  {
    data.Object? && EndShaped(GetOr(data, "end", EmptyObject))
  }

  /** The streams the loop visits. */
  function Streams(end: Json): seq<Json>
  {
    var streams := GetOr(end, "streams", EmptyArray);
    if Truthy(streams) && streams.Array? then streams.items else []
  }

  /** The `udp` section of the last stream that has a non-empty one. */
  function LastUdp(streams: seq<Json>): Option<Json>
  {
    if streams == [] then None
    else
      var udp := GetOr(streams[|streams| - 1], "udp", EmptyObject);
      if Truthy(udp) then Some(udp) else LastUdp(streams[..|streams| - 1])
  }

  /** `end.get(name, {})` on a well-formed `end`. */
  function Section(end: Json, name: string): Json
  {
    GetOr(end, name, EmptyObject)
  }

  function SumEntries(sent: Json, received: Json): Metrics
  {
    [ Entry(ThroughputMbps, Mbps(GetOr(sent, "bits_per_second", Int(0)))),
      Entry(BytesSent, Leaf(GetOr(sent, "bytes", Int(0)))),
      Entry(Retransmits, Leaf(GetOr(sent, "retransmits", Int(0)))),
      Entry(ThroughputRecvMbps, Mbps(GetOr(received, "bits_per_second", Int(0)))),
      Entry(BytesReceived, Leaf(GetOr(received, "bytes", Int(0)))) ]
  }

  function UdpEntries(udp: Option<Json>): Metrics
  {
    if udp.None? then []
    else
      [ Entry(JitterMs, Leaf(GetOr(udp.value, "jitter_ms", Int(0)))),
        Entry(LostPackets, Leaf(GetOr(udp.value, "lost_packets", Int(0)))),
        Entry(LostPercent, Leaf(GetOr(udp.value, "lost_percent", Int(0)))) ]
  }

  function CpuEntries(cpu: Json): Metrics
  {
    [ Entry(CpuHostTotal, Leaf(GetOr(cpu, "host_total", Int(0)))),
      Entry(CpuRemoteTotal, Leaf(GetOr(cpu, "remote_total", Int(0)))) ]
  }

  /** The dict a well-formed report should give, written out whole rather than assignment
      by assignment: the sender and receiver fields, the UDP fields of the last stream that
      has any, and the CPU fields, each with 0 for a missing field. */
  function ExpectedMetrics(end: Json): Metrics
  {
    SumEntries(Section(end, "sum_sent"), Section(end, "sum_received"))
      + UdpEntries(LastUdp(Streams(end)))
      + CpuEntries(Section(end, "cpu_utilization_percent"))
  }

  lemma {:induction false} KeysAppend(m: Metrics, e: Entry)
    ensures Keys(m + [e]) == Keys(m) + [e.key]
  {
    if m != [] {
      assert (m + [e])[1..] == m[1..] + [e];
      KeysAppend(m[1..], e);
    }
  }

  lemma {:induction false} KeysIndex(m: Metrics)
    ensures |Keys(m)| == |m|
    ensures forall i :: 0 <= i < |m| ==> Keys(m)[i] == m[i].key
  {
    if m != [] {
      KeysIndex(m[1..]);
    }
  }

  /** Assigning a new key appends it. */
  lemma {:induction false} PutNew(m: Metrics, key: Key, value: Metric)
    requires key !in Keys(m)
    ensures Put(m, key, value) == m + [Entry(key, value)]
  {
    if m != [] {
      PutNew(m[1..], key, value);
      assert [m[0]] + (m[1..] + [Entry(key, value)]) == m + [Entry(key, value)];
    }
  }

  /** Assigning a key already present replaces its entry in place. */
  lemma {:induction false} PutOver(front: Metrics, key: Key, previous: Metric, back: Metrics, value: Metric)
    requires key !in Keys(front)
    ensures Put(front + [Entry(key, previous)] + back, key, value) == front + [Entry(key, value)] + back
  {
    if front == [] {
      assert [Entry(key, previous)] + back == [] + [Entry(key, previous)] + back;
      assert ([Entry(key, previous)] + back)[1..] == back;
    } else {
      var m := front + [Entry(key, previous)] + back;
      assert m[1..] == front[1..] + [Entry(key, previous)] + back;
      PutOver(front[1..], key, previous, back, value);
      assert front + [Entry(key, value)] + back == [front[0]] + (front[1..] + [Entry(key, value)] + back);
    }
  }

  /** On a dict the three UDP assignments are three `Put`s of the section's values. */
  lemma UdpAssignsPuts(m: Metrics, udp: Json)
    requires udp.Object?
    ensures var e := UdpEntries(Some(udp));
      UdpAssigns(Partial(m, false), udp)
        == Partial(Put(Put(Put(m, JitterMs, e[0].value), LostPackets, e[1].value), LostPercent, e[2].value), false)
  {
  }

  /** The first stream with a `udp` section adds the three UDP keys at the end. */
  lemma StreamStepFirst(m: Metrics, stream: Json)
    requires StreamShaped(stream) && Truthy(GetOr(stream, "udp", EmptyObject))
    requires JitterMs !in Keys(m) && LostPackets !in Keys(m) && LostPercent !in Keys(m)
    ensures StreamStep(Partial(m, false), stream)
      == Partial(m + UdpEntries(Some(GetOr(stream, "udp", EmptyObject))), false)
  {
    var e := UdpEntries(Some(GetOr(stream, "udp", EmptyObject)));
    UdpAssignsPuts(m, GetOr(stream, "udp", EmptyObject));
    PutsNew3(m, JitterMs, e[0].value, LostPackets, e[1].value, LostPercent, e[2].value);
  }

  /** A later stream with a `udp` section overwrites the three UDP values in place. */
  lemma StreamStepAgain(m: Metrics, earlier: Json, stream: Json)
    requires StreamShaped(stream) && Truthy(GetOr(stream, "udp", EmptyObject))
    requires JitterMs !in Keys(m) && LostPackets !in Keys(m) && LostPercent !in Keys(m)
    ensures StreamStep(Partial(m + UdpEntries(Some(earlier)), false), stream)
      == Partial(m + UdpEntries(Some(GetOr(stream, "udp", EmptyObject))), false)
  {
    var e := UdpEntries(Some(GetOr(stream, "udp", EmptyObject)));
    var d := UdpEntries(Some(earlier));
    UdpAssignsPuts(m + d, GetOr(stream, "udp", EmptyObject));
    UdpOver(m, d[0].value, d[1].value, d[2].value, e[0].value, e[1].value, e[2].value);
  }

  /** Two assignments of new keys append them in order. */
  lemma PutsNew2(m: Metrics, k1: Key, v1: Metric, k2: Key, v2: Metric)
    requires k1 !in Keys(m) && k2 !in Keys(m) && k1 != k2
    ensures Put(Put(m, k1, v1), k2, v2) == m + [Entry(k1, v1), Entry(k2, v2)]
  {
    PutNew(m, k1, v1);
    KeysAppend(m, Entry(k1, v1));
    PutNew(m + [Entry(k1, v1)], k2, v2);
    assert m + [Entry(k1, v1)] + [Entry(k2, v2)] == m + [Entry(k1, v1), Entry(k2, v2)];
  }

  /** Three assignments of new keys append them in order. */
  lemma PutsNew3(m: Metrics, k1: Key, v1: Metric, k2: Key, v2: Metric, k3: Key, v3: Metric)
    requires k1 !in Keys(m) && k2 !in Keys(m) && k3 !in Keys(m)
    requires k1 != k2 && k1 != k3 && k2 != k3
    ensures Put(Put(Put(m, k1, v1), k2, v2), k3, v3) == m + [Entry(k1, v1), Entry(k2, v2), Entry(k3, v3)]
  {
    PutsNew2(m, k1, v1, k2, v2);
    KeysAppend(m, Entry(k1, v1));
    KeysAppend(m + [Entry(k1, v1)], Entry(k2, v2));
    assert m + [Entry(k1, v1)] + [Entry(k2, v2)] == m + [Entry(k1, v1), Entry(k2, v2)];
    PutNew(m + [Entry(k1, v1), Entry(k2, v2)], k3, v3);
    assert m + [Entry(k1, v1), Entry(k2, v2)] + [Entry(k3, v3)]
      == m + [Entry(k1, v1), Entry(k2, v2), Entry(k3, v3)];
  }

  /** Putting the three UDP values over three earlier ones replaces them in place. */
  lemma {:induction false} UdpOver(m: Metrics, a: Metric, b: Metric, c: Metric, x: Metric, y: Metric, z: Metric)
    requires JitterMs !in Keys(m) && LostPackets !in Keys(m) && LostPercent !in Keys(m)
    ensures Put(Put(Put(m + [Entry(JitterMs, a), Entry(LostPackets, b), Entry(LostPercent, c)],
                        JitterMs, x), LostPackets, y), LostPercent, z)
      == m + [Entry(JitterMs, x), Entry(LostPackets, y), Entry(LostPercent, z)]
  {
    var d := [Entry(JitterMs, a), Entry(LostPackets, b), Entry(LostPercent, c)];
    var e := [Entry(JitterMs, x), Entry(LostPackets, y), Entry(LostPercent, z)];
    if m == [] {
      assert m + d == d && m + e == e;
      UdpOverWindow(a, b, c, x, y, z);
    } else {
      assert Keys(m) == [m[0].key] + Keys(m[1..]);
      assert (m + d)[1..] == m[1..] + d;
      var r1 := Put(m[1..] + d, JitterMs, x);
      var r2 := Put(r1, LostPackets, y);
      assert Put(m + d, JitterMs, x) == [m[0]] + r1;
      assert ([m[0]] + r1)[1..] == r1;
      assert Put([m[0]] + r1, LostPackets, y) == [m[0]] + r2;
      assert ([m[0]] + r2)[1..] == r2;
      UdpOver(m[1..], a, b, c, x, y, z);
      assert m + e == [m[0]] + (m[1..] + e);
    }
  }

  /** `UdpOver` on the three UDP entries alone. */
  lemma UdpOverWindow(a: Metric, b: Metric, c: Metric, x: Metric, y: Metric, z: Metric)
    ensures Put(Put(Put([Entry(JitterMs, a), Entry(LostPackets, b), Entry(LostPercent, c)],
                        JitterMs, x), LostPackets, y), LostPercent, z)
      == [Entry(JitterMs, x), Entry(LostPackets, y), Entry(LostPercent, z)]
  {
    var d := [Entry(JitterMs, a), Entry(LostPackets, b), Entry(LostPercent, c)];
    var jx, lb, pc := Entry(JitterMs, x), Entry(LostPackets, b), Entry(LostPercent, c);
    var ly, pz := Entry(LostPackets, y), Entry(LostPercent, z);
    assert Put(d, JitterMs, x) == [jx, lb, pc] by { assert d[1..] == [lb, pc]; }
    assert Put([lb, pc], LostPackets, y) == [ly, pc] by { assert [lb, pc][1..] == [pc]; }
    assert Put([jx, lb, pc], LostPackets, y) == [jx, ly, pc] by {
      assert [jx, lb, pc][1..] == [lb, pc];
    }
    assert Put([pc], LostPercent, z) == [pz] by { assert [pc][1..] == []; }
    assert Put([ly, pc], LostPercent, z) == [ly, pz] by { assert [ly, pc][1..] == [pc]; }
    assert Put([jx, ly, pc], LostPercent, z) == [jx, ly, pz] by {
      assert [jx, ly, pc][1..] == [ly, pc];
    }
  }

  /** Over well-formed streams the loop raises nothing and leaves the UDP fields of the
      last stream that has a `udp` section: the first such stream adds the three keys, later
      ones overwrite them in place. */
  lemma {:induction false} StreamLoopShaped(m: Metrics, streams: seq<Json>)
    requires JitterMs !in Keys(m) && LostPackets !in Keys(m) && LostPercent !in Keys(m)
    requires StreamsShaped(streams)
    ensures StreamLoop(Partial(m, false), streams) == Partial(m + UdpEntries(LastUdp(streams)), false)
  {
    if streams == [] {
      assert m + [] == m;
    } else {
      var init := streams[..|streams| - 1];
      var last := streams[|streams| - 1];
      assert StreamShaped(last);
      StreamLoopShaped(m, init);
      if Truthy(GetOr(last, "udp", EmptyObject)) {
        var before := LastUdp(init);
        if before.None? {
          assert m + UdpEntries(before) == m;
          StreamStepFirst(m, last);
        } else {
          StreamStepAgain(m, before.value, last);
        }
      }
    }
  }

  lemma StreamsStageShaped(m: Metrics, end: Json)
    requires EndShaped(end)
    requires JitterMs !in Keys(m) && LostPackets !in Keys(m) && LostPercent !in Keys(m)
    ensures StreamsStage(Partial(m, false), end) == Partial(m + UdpEntries(LastUdp(Streams(end))), false)
  {
    StreamLoopShaped(m, Streams(end));
    if Streams(end) == [] {
      assert m + [] == m;
    }
  }

  /** On a well-formed report nothing raises and the dict is exactly the expected one: every
      key of a complete run, each holding what the report gives it. */
  lemma ParseWellFormed(data: Json)
    requires WellFormed(data)
    ensures IperfMetrics(data) == ExpectedMetrics(GetOr(data, "end", EmptyObject))
  {
    var end := GetOr(data, "end", EmptyObject);
    assert Get(data, "end", EmptyObject) == Some(end);
    var sums := SumEntries(Section(end, "sum_sent"), Section(end, "sum_received"));
    var udp := UdpEntries(LastUdp(Streams(end)));
    StagesShaped(end);
    NoCpuKeys(Section(end, "sum_sent"), Section(end, "sum_received"), LastUdp(Streams(end)));
    CpuStageShaped(sums + udp, end);
  }

  /** The sender, receiver and stream stages of a well-formed report. */
  lemma StagesShaped(end: Json)
    requires EndShaped(end)
    ensures StreamsStage(ReceiverStage(SenderStage(end), end), end)
      == Partial(SumEntries(Section(end, "sum_sent"), Section(end, "sum_received"))
                 + UdpEntries(LastUdp(Streams(end))), false)
  {
    var sums := SumEntries(Section(end, "sum_sent"), Section(end, "sum_received"));
    SumStagesShaped(end);
    SumKeysShape(Section(end, "sum_sent"), Section(end, "sum_received"));
    StreamsStageShaped(sums, end);
  }

  /** The sum and UDP entries leave room for the CPU keys. */
  lemma NoCpuKeys(sent: Json, received: Json, udp: Option<Json>)
    ensures CpuHostTotal !in Keys(SumEntries(sent, received) + UdpEntries(udp))
    ensures CpuRemoteTotal !in Keys(SumEntries(sent, received) + UdpEntries(udp))
  {
    SumUdpKeys(sent, received, udp);
  }

  /** The keys of the sum and UDP entries. */
  lemma SumUdpKeys(sent: Json, received: Json, udp: Option<Json>)
    ensures Keys(SumEntries(sent, received) + UdpEntries(udp))
      == SumKeys + (if udp.Some? then UdpKeys else [])
  {
    SumKeysShape(sent, received);
    UdpKeysShape(udp);
    KeysConcat(SumEntries(sent, received), UdpEntries(udp));
  }

  /** The keys of a well-formed report come in the order of a complete run. */
  lemma ParseWellFormedKeys(data: Json)
    requires WellFormed(data)
    ensures Keys(IperfMetrics(data)) == StandardKeys(LastUdp(Streams(GetOr(data, "end", EmptyObject))).Some?)
  {
    var end := GetOr(data, "end", EmptyObject);
    var sums := SumEntries(Section(end, "sum_sent"), Section(end, "sum_received"));
    var udp := UdpEntries(LastUdp(Streams(end)));
    var cpu := CpuEntries(Section(end, "cpu_utilization_percent"));
    ParseWellFormed(data);
    SumKeysShape(Section(end, "sum_sent"), Section(end, "sum_received"));
    UdpKeysShape(LastUdp(Streams(end)));
    CpuKeysShape(Section(end, "cpu_utilization_percent"));
    KeysConcat(sums, udp);
    KeysConcat(sums + udp, cpu);
  }

  lemma {:induction false} KeysConcat(a: Metrics, b: Metrics)
    ensures Keys(a + b) == Keys(a) + Keys(b)
  {
    if a == [] {
      assert a + b == b;
    } else {
      assert (a + b)[1..] == a[1..] + b;
      KeysConcat(a[1..], b);
    }
  }

  lemma UdpKeysShape(udp: Option<Json>)
    ensures Keys(UdpEntries(udp)) == if udp.Some? then UdpKeys else []
  {
    KeysIndex(UdpEntries(udp));
  }

  lemma SumKeysShape(sent: Json, received: Json)
    ensures Keys(SumEntries(sent, received)) == SumKeys
  {
    KeysIndex(SumEntries(sent, received));
  }

  lemma CpuKeysShape(cpu: Json)
    ensures Keys(CpuEntries(cpu)) == CpuKeys
  {
    KeysIndex(CpuEntries(cpu));
  }

  /** The sender and receiver statistics of a well-formed report. */
  lemma SumStagesShaped(end: Json)
    requires EndShaped(end)
    ensures ReceiverStage(SenderStage(end), end)
      == Partial(SumEntries(Section(end, "sum_sent"), Section(end, "sum_received")), false)
  {
    var e := SumEntries(Section(end, "sum_sent"), Section(end, "sum_received"));
    SenderShaped(end);
    KeysIndex(e[..3]);
    ReceiverShaped(e[..3], end);
    assert e[..3] + [e[3], e[4]] == e;
  }

  lemma SenderShaped(end: Json)
    requires EndShaped(end)
    ensures SenderStage(end) == Partial(SumEntries(Section(end, "sum_sent"), Section(end, "sum_received"))[..3], false)
  {
    var e := SumEntries(Section(end, "sum_sent"), Section(end, "sum_received"));
    PutsNew3([], e[0].key, e[0].value, e[1].key, e[1].value, e[2].key, e[2].value);
    assert [] + [e[0], e[1], e[2]] == e[..3];
  }

  lemma ReceiverShaped(m: Metrics, end: Json)
    requires EndShaped(end)
    requires ThroughputRecvMbps !in Keys(m) && BytesReceived !in Keys(m)
    ensures var e := SumEntries(Section(end, "sum_sent"), Section(end, "sum_received"));
      ReceiverStage(Partial(m, false), end) == Partial(m + [e[3], e[4]], false)
  {
    var e := SumEntries(Section(end, "sum_sent"), Section(end, "sum_received"));
    PutsNew2(m, e[3].key, e[3].value, e[4].key, e[4].value);
  }

  /** The CPU statistics of a well-formed report. */
  lemma CpuStageShaped(m: Metrics, end: Json)
    requires EndShaped(end)
    requires CpuHostTotal !in Keys(m) && CpuRemoteTotal !in Keys(m)
    ensures CpuStage(Partial(m, false), end) == Partial(m + CpuEntries(Section(end, "cpu_utilization_percent")), false)
  {
    var e := CpuEntries(Section(end, "cpu_utilization_percent"));
    PutsNew2(m, e[0].key, e[0].value, e[1].key, e[1].value);
    assert [e[0], e[1]] == e;
  }

  // ---------------------------------------------------------------------------
  // push_to_prometheus

  const DefaultGateway: string := "http://localhost:9091"
  const DefaultJob: string := "iperf_test"

  /** Whether the push writes a metric: `isinstance(value, (int, float))`. A throughput and
      a latency are floats; a value copied from the report is written when it is a number. */
  predicate Numeric(value: Metric)
  {
    value.Leaf? ==> IsNumber(value.json)
  }

  /** How an f-string writes a value: a bool as `True`/`False`, an int in decimal, a float
      as Python's float repr, which `floatText` stands for; `None` for a value the push
      skips. */
  function ValueText(value: Metric, floatText: Metric -> string): (text: Option<string>)
    ensures text.Some? <==> Numeric(value)
  {
    match value
    case Leaf(json) =>
      if json.Bool? then Some(if json.b then "True" else "False")
      else if json.Int? then Some(IntText(json.i))
      else if json.Float? then Some(floatText(value))
      else None
    case _ => Some(floatText(value))
  }

  function TestLabels(vpnType: string, host: string): seq<Label>
  {
    [Label("vpn_type", vpnType), Label("target", host)]
  }

  function PromName(key: Key): string
  {
    "vpn_iperf_" + KeyText(key)
  }

  /** The line written for a numeric entry. */
  function EntryLine(entry: Entry, vpnType: string, host: string, floatText: Metric -> string): string
    requires Numeric(entry.value)
  {
    SampleText(PromName(entry.key), TestLabels(vpnType, host), ValueText(entry.value, floatText).value)
  }

  /** The lines the loop over `metrics.items()` writes. */
  function MetricLines(metrics: Metrics, vpnType: string, host: string, floatText: Metric -> string): seq<string>
  {
    if metrics == [] then []
    else
      var last := metrics[|metrics| - 1];
      MetricLines(metrics[..|metrics| - 1], vpnType, host, floatText)
        + (if Numeric(last.value) then [EntryLine(last, vpnType, host, floatText)] else [])
  }

  /** All lines of the push: the metrics, then the test's timestamp in milliseconds and its
      success flag. */
  function PushLines(metrics: Metrics, vpnType: string, host: string, nowMs: int,
                     floatText: Metric -> string): seq<string>
  {
    MetricLines(metrics, vpnType, host, floatText)
      + [ SampleText("vpn_iperf_test_timestamp", TestLabels(vpnType, host), IntText(nowMs)),
          SampleText("vpn_iperf_test_success", TestLabels(vpnType, host), "1") ]
  }

  /** The grouping URL: the host's dots become underscores. */
  function PushUrl(gateway: string, job: string, vpnType: string, host: string): string
  {
    gateway + "/metrics/job/" + job + "/vpn_type/" + vpnType + "/target/" + ReplaceChar(host, '.', '_')
  }

  /** How the POST ends: the gateway answers with a status (`urlopen` raises HTTPError, a
      URLError, for an error status), the gateway cannot be reached (URLError), or some
      other exception is raised, which the function does not catch. */
  datatype Delivery = Answered(status: int) | Unreachable(reason: string) | Broken(message: string)

  /** What `push_to_prometheus` gives back: True or False, or an exception that escapes. */
  datatype PushResult = Pushed(ok: bool) | Escaped(message: string)

  /** The entries the push writes, in order. */
  function NumericEntries(metrics: Metrics): seq<Entry>
  {
    if metrics == [] then []
    else
      var last := metrics[|metrics| - 1];
      NumericEntries(metrics[..|metrics| - 1]) + (if Numeric(last.value) then [last] else [])
  }

  lemma MetricLinesSnoc(metrics: Metrics, i: nat, vpnType: string, host: string, floatText: Metric -> string)
    requires i < |metrics|
    ensures MetricLines(metrics[..i + 1], vpnType, host, floatText)
      == MetricLines(metrics[..i], vpnType, host, floatText)
        + (if Numeric(metrics[i].value) then [EntryLine(metrics[i], vpnType, host, floatText)] else [])
  {
    assert metrics[..i + 1][..i] == metrics[..i];
  }

  /** `push_to_prometheus(metrics, vpn_type, host, job)`: the payload and URL it builds and
      what it returns for the gateway's response. */
  method PushToPrometheus(metrics: Metrics, vpnType: string, host: string, job: string,
                          gateway: string, nowMs: int, floatText: Metric -> string,
                          delivery: Delivery)
    returns (payload: string, url: string, result: PushResult)
    ensures payload == JoinLines(PushLines(metrics, vpnType, host, nowMs, floatText))
    ensures url == PushUrl(gateway, job, vpnType, host)
    ensures result == Pushed(true) <==> delivery == Answered(200)
    ensures result.Escaped? <==> delivery.Broken?
  {
    var lines: seq<string> := [];
    var labels := TestLabels(vpnType, host);
    for i := 0 to |metrics|
      invariant lines == MetricLines(metrics[..i], vpnType, host, floatText)
    {
      MetricLinesSnoc(metrics, i, vpnType, host, floatText);
      var text := ValueText(metrics[i].value, floatText);
      if text.Some? {
        var promName := "vpn_iperf_" + KeyText(metrics[i].key);
        lines := lines + [SampleText(promName, labels, text.value)];
      }
    }
    assert metrics[..|metrics|] == metrics;
    lines := lines + [SampleText("vpn_iperf_test_timestamp", labels, IntText(nowMs))];
    lines := lines + [SampleText("vpn_iperf_test_success", labels, "1")];
    assert lines == PushLines(metrics, vpnType, host, nowMs, floatText);
    payload := Join(lines, '\n') + "\n";
    url := gateway + "/metrics/job/" + job + "/vpn_type/" + vpnType + "/target/" + ReplaceChar(host, '.', '_');
    match delivery
    case Answered(status) =>
      result := Pushed(status == 200);
    case Unreachable(_) =>
      result := Pushed(false);
    case Broken(message) =>
      result := Escaped(message);
  }

  /** The push writes one line per numeric entry, in the dict's order, and skips the rest. */
  lemma {:induction false} MetricLinesNumeric(metrics: Metrics, vpnType: string, host: string,
                                              floatText: Metric -> string)
    ensures |MetricLines(metrics, vpnType, host, floatText)| == |NumericEntries(metrics)|
    ensures forall k :: 0 <= k < |NumericEntries(metrics)| ==>
      Numeric(NumericEntries(metrics)[k].value)
      && MetricLines(metrics, vpnType, host, floatText)[k]
        == EntryLine(NumericEntries(metrics)[k], vpnType, host, floatText)
  {
    if metrics != [] {
      MetricLinesNumeric(metrics[..|metrics| - 1], vpnType, host, floatText);
    }
  }

  lemma {:induction false} NumericEntriesMembers(metrics: Metrics)
    ensures forall e :: e in NumericEntries(metrics) <==> e in metrics && Numeric(e.value)
  {
    if metrics != [] {
      var init := metrics[..|metrics| - 1];
      NumericEntriesMembers(init);
      assert metrics == init + [metrics[|metrics| - 1]];
    }
  }

  lemma KeyNamesAreWords1()
    ensures Word(KeyText(ThroughputMbps)) && Word(KeyText(BytesSent)) && Word(KeyText(Retransmits))
  {
  }

  lemma KeyNamesAreWords2()
    ensures Word(KeyText(ThroughputRecvMbps)) && Word(KeyText(BytesReceived)) && Word(KeyText(JitterMs))
  {
  }

  lemma KeyNamesAreWords3()
    ensures Word(KeyText(LostPackets)) && Word(KeyText(LostPercent)) && Word(KeyText(CpuHostTotal))
  {
  }

  lemma KeyNamesAreWords4()
    ensures Word(KeyText(CpuRemoteTotal)) && Word(KeyText(LatencyAvgMs))
  {
  }

  lemma PromNameIsWord(key: Key)
    ensures Word(PromName(key))
  {
    KeyNamesAreWords1();
    KeyNamesAreWords2();
    KeyNamesAreWords3();
    KeyNamesAreWords4();
    assert Word("vpn_iperf_");
    WordConcat("vpn_iperf_", KeyText(key));
  }

  lemma TestNamesAreWords()
    ensures Word("vpn_iperf_test_timestamp") && Word("vpn_iperf_test_success")
  {
  }

  /** The texts a value is written as hold no line break and no space, given that the
      float repr does not. */
  lemma ValueTextPlain(value: Metric, floatText: Metric -> string)
    requires Numeric(value)
    requires forall m :: ' ' !in floatText(m) && '\n' !in floatText(m)
    ensures ' ' !in ValueText(value, floatText).value && '\n' !in ValueText(value, floatText).value
  {
    if value.Leaf? && value.json.Int? {
      IntTextChars(value.json.i);
    }
  }

  /** Each line of the push reads back as the metric's name and its value. */
  lemma EntryLineRead(entry: Entry, vpnType: string, host: string, floatText: Metric -> string)
    requires Numeric(entry.value)
    requires forall m :: ' ' !in floatText(m) && '\n' !in floatText(m)
    ensures NameOf(EntryLine(entry, vpnType, host, floatText)) == PromName(entry.key)
    ensures ValueOf(EntryLine(entry, vpnType, host, floatText)) == ValueText(entry.value, floatText).value
  {
    PromNameIsWord(entry.key);
    WordPlain(PromName(entry.key));
    ValueTextPlain(entry.value, floatText);
    SampleTextName(PromName(entry.key), TestLabels(vpnType, host), ValueText(entry.value, floatText).value);
    SampleTextValue(PromName(entry.key), TestLabels(vpnType, host), ValueText(entry.value, floatText).value);
  }

  lemma EntryLineOneLine(entry: Entry, vpnType: string, host: string, floatText: Metric -> string)
    requires Numeric(entry.value)
    requires '\n' !in vpnType && '\n' !in host
    requires forall m :: ' ' !in floatText(m) && '\n' !in floatText(m)
    ensures '\n' !in EntryLine(entry, vpnType, host, floatText)
  {
    PromNameIsWord(entry.key);
    WordPlain(PromName(entry.key));
    ValueTextPlain(entry.value, floatText);
    SampleTextNoNewline(PromName(entry.key), TestLabels(vpnType, host), ValueText(entry.value, floatText).value);
  }

  /** The closing lines: the timestamp and the success flag. */
  lemma TimestampLineRead(vpnType: string, host: string, nowMs: int)
    requires '\n' !in vpnType && '\n' !in host
    ensures var stamp := SampleText("vpn_iperf_test_timestamp", TestLabels(vpnType, host), IntText(nowMs));
      NameOf(stamp) == "vpn_iperf_test_timestamp" && ValueOf(stamp) == IntText(nowMs) && '\n' !in stamp
  {
    TestNamesAreWords();
    IntTextChars(nowMs);
    TestLabelsOneLine(vpnType, host);
    PlainSampleRead("vpn_iperf_test_timestamp", TestLabels(vpnType, host), IntText(nowMs));
  }

  lemma SuccessLineRead(vpnType: string, host: string)
    requires '\n' !in vpnType && '\n' !in host
    ensures var success := SampleText("vpn_iperf_test_success", TestLabels(vpnType, host), "1");
      NameOf(success) == "vpn_iperf_test_success" && ValueOf(success) == "1" && '\n' !in success
  {
    TestNamesAreWords();
    TestLabelsOneLine(vpnType, host);
    PlainSampleRead("vpn_iperf_test_success", TestLabels(vpnType, host), "1");
  }

  lemma TestLabelsOneLine(vpnType: string, host: string)
    requires '\n' !in vpnType && '\n' !in host
    ensures OneLineLabels(TestLabels(vpnType, host))
  {
  }

  /** A sample with a one-word name and a value without spaces or line breaks reads back
      as that name and value, on one line. */
  lemma PlainSampleRead(name: string, labels: seq<Label>, value: string)
    requires Word(name) && ' ' !in value && '\n' !in value && OneLineLabels(labels)
    ensures NameOf(SampleText(name, labels, value)) == name
    ensures ValueOf(SampleText(name, labels, value)) == value
    ensures '\n' !in SampleText(name, labels, value)
  {
    WordPlain(name);
    SampleTextName(name, labels, value);
    SampleTextValue(name, labels, value);
    SampleTextNoNewline(name, labels, value);
  }

  /** The payload splits back into its lines: one per numeric entry reading back as that
      entry's name and value, then the timestamp and the success flag, and the empty text
      after the final line break. */
  lemma PayloadLines(metrics: Metrics, vpnType: string, host: string, nowMs: int,
                     floatText: Metric -> string)
    requires '\n' !in vpnType && '\n' !in host
    requires forall m :: ' ' !in floatText(m) && '\n' !in floatText(m)
    ensures var lines := PushLines(metrics, vpnType, host, nowMs, floatText);
      var numeric := NumericEntries(metrics);
      Split(JoinLines(lines), '\n') == lines + [""]
      && |lines| == |numeric| + 2
      && (forall k :: 0 <= k < |numeric| ==>
            NameOf(lines[k]) == PromName(numeric[k].key)
            && ValueText(numeric[k].value, floatText) == Some(ValueOf(lines[k])))
      && NameOf(lines[|numeric|]) == "vpn_iperf_test_timestamp" && ValueOf(lines[|numeric|]) == IntText(nowMs)
      && NameOf(lines[|numeric| + 1]) == "vpn_iperf_test_success" && ValueOf(lines[|numeric| + 1]) == "1"
  {
    var lines := PushLines(metrics, vpnType, host, nowMs, floatText);
    var numeric := NumericEntries(metrics);
    MetricLinesNumeric(metrics, vpnType, host, floatText);
    TimestampLineRead(vpnType, host, nowMs);
    SuccessLineRead(vpnType, host);
    forall k | 0 <= k < |numeric|
      ensures NameOf(lines[k]) == PromName(numeric[k].key)
      ensures ValueText(numeric[k].value, floatText) == Some(ValueOf(lines[k]))
      ensures '\n' !in lines[k]
    {
      EntryLineRead(numeric[k], vpnType, host, floatText);
      EntryLineOneLine(numeric[k], vpnType, host, floatText);
    }
    assert forall l :: l in lines ==> '\n' !in l;
    JoinLinesSplit(lines);
  }

  /** The URL's last segment is the host with every dot turned into an underscore, so it
      holds no dot. */
  lemma PushUrlTarget(gateway: string, job: string, vpnType: string, host: string)
    ensures var url := PushUrl(gateway, job, vpnType, host);
      var prefix := gateway + "/metrics/job/" + job + "/vpn_type/" + vpnType + "/target/";
      |url| == |prefix| + |host| && url[..|prefix|] == prefix
      && '.' !in url[|prefix|..]
      && forall i :: 0 <= i < |host| ==> url[|prefix| + i] == (if host[i] == '.' then '_' else host[i])
  {
    var prefix := gateway + "/metrics/job/" + job + "/vpn_type/" + vpnType + "/target/";
    assert PushUrl(gateway, job, vpnType, host)[|prefix|..] == ReplaceChar(host, '.', '_');
  }

  // ---------------------------------------------------------------------------
  // run_iperf_test and run_latency_test

  /** What `json.loads` makes of iperf3's output: a value, a JSONDecodeError (with its
      message), or another exception. */
  datatype Decoding = Decoded(json: Json) | NotJson(message: string) | DecodeRaised(message: string)

  /** The dict `run_iperf_test` returns, without its elapsed time. */
  datatype IperfRun = Succeeded(data: Json) | Failed(error: string)

  /** `run_iperf_test(host, port, duration)`, given how the iperf3 run ended and how its
      output decodes. */
  function RunIperfTest(run: Outcome, decode: string -> Decoding): (result: IperfRun)
    ensures result.Succeeded? <==> run.Exited? && run.code == 0 && decode(run.stdout).Decoded?
    ensures result.Succeeded? ==> result.data == decode(run.stdout).json
  {
    match run
    case Exited(code, stdout, stderr) =>
      if code != 0 then Failed(stderr)
      else
        (match decode(stdout)
         case Decoded(json) => Succeeded(json)
         case NotJson(message) => Failed("JSON parse error: " + message)
         case DecodeRaised(message) => Failed(message))
    case TimedOut => Failed("Timeout")
    case NotFound(message) => Failed(message)
    case Raised(message) => Failed(message)
  }

  /** The error of a failed test: iperf3's stderr, the decoder's message after
      "JSON parse error: ", "Timeout", or the exception's message. */
  lemma RunIperfTestFailures(run: Outcome, decode: string -> Decoding)
    ensures run.Exited? && run.code != 0 ==> RunIperfTest(run, decode) == Failed(run.stderr)
    ensures run.Exited? && run.code == 0 && decode(run.stdout).NotJson? ==>
      RunIperfTest(run, decode) == Failed("JSON parse error: " + decode(run.stdout).message)
    ensures run.Exited? && run.code == 0 && decode(run.stdout).DecodeRaised? ==>
      RunIperfTest(run, decode) == Failed(decode(run.stdout).message)
    ensures run.TimedOut? ==> RunIperfTest(run, decode) == Failed("Timeout")
    ensures run.NotFound? || run.Raised? ==> RunIperfTest(run, decode) == Failed(run.message)
  {
  }

  /** What `run_latency_test` returns: the average round-trip time, or the sentinel -1
      for any failure. */
  datatype Latency = Average(text: string) | NoLatency

  function DotCount(text: string): nat
  {
    if text == [] then 0 else (if text[0] == '.' then 1 else 0) + DotCount(text[1..])
  }

  function HasDigit(text: string): bool
  {
    text != [] && (IsDigit(text[0]) || HasDigit(text[1..]))
  }

  /** Whether `float()` accepts a text made of digits and dots: one dot at most and at
      least one digit. */
  predicate FloatParses(text: string)
  {
    DotCount(text) <= 1 && HasDigit(text)
  }

  /** `run_latency_test(host)`, given how the ping run ended. */
  function RunLatencyTest(run: Outcome): (latency: Latency)
    ensures latency.Average? ==>
      latency.text != [] && DotCount(latency.text) <= 1 && HasDigit(latency.text)
      && forall k :: 0 <= k < |latency.text| ==> IsDigit(latency.text[k]) || latency.text[k] == '.'
  {
    if run.Exited? && run.code == 0 then
      var found := RttAverage(run.stdout);
      if found.Some? && FloatParses(found.value) then
        RttAverageIsLeftmost(run.stdout);
        Average(found.value)
      else NoLatency
    else NoLatency
  }

  /** A latency is measured exactly when ping exits with 0, its summary line matches and
      the average is a number, and it is then the average the leftmost match captures. */
  lemma RunLatencyTestMeasures(run: Outcome)
    ensures RunLatencyTest(run).Average? <==>
      run.Exited? && run.code == 0 && RttAverage(run.stdout).Some? && FloatParses(RttAverage(run.stdout).value)
    ensures RunLatencyTest(run).Average? ==> Some(RunLatencyTest(run).text) == RttAverage(run.stdout)
  {
  }

  /** `if latency >= 0: metrics["latency_avg_ms"] = latency`. */
  function WithLatency(metrics: Metrics, latency: Latency): (result: Metrics)
    ensures Keys(result)
      == if latency.Average? && LatencyAvgMs !in Keys(metrics) then Keys(metrics) + [LatencyAvgMs] else Keys(metrics)
    ensures Find(result, LatencyAvgMs)
      == if latency.Average? then Some(AverageMs(latency.text)) else Find(metrics, LatencyAvgMs)
    ensures forall key :: key != LatencyAvgMs ==> Find(result, key) == Find(metrics, key)
  {
    if latency.Average? then
      PutEffect(metrics, LatencyAvgMs, AverageMs(latency.text));
      Put(metrics, LatencyAvgMs, AverageMs(latency.text))
    else metrics
  }

  /** The parse never sets the latency. */
  lemma ParsedWithoutLatency(data: Json)
    ensures LatencyAvgMs !in Keys(IperfMetrics(data))
  {
    ParsedKeysInOrder(data);
    assert LatencyAvgMs !in StandardKeys(false) && LatencyAvgMs !in StandardKeys(true);
  }

  /** On a dict without a latency, a measured latency goes last and becomes the last metric
      line of the push; otherwise the dict is unchanged. */
  lemma LatencyPushedLast(metrics: Metrics, latency: Latency, vpnType: string, host: string,
                          floatText: Metric -> string)
    requires LatencyAvgMs !in Keys(metrics)
    ensures WithLatency(metrics, latency)
      == metrics + (if latency.Average? then [Entry(LatencyAvgMs, AverageMs(latency.text))] else [])
    ensures MetricLines(WithLatency(metrics, latency), vpnType, host, floatText)
      == MetricLines(metrics, vpnType, host, floatText)
        + (if latency.Average?
           then [SampleText(PromName(LatencyAvgMs), TestLabels(vpnType, host), floatText(AverageMs(latency.text)))]
           else [])
  {
    if latency.Average? {
      var entry := Entry(LatencyAvgMs, AverageMs(latency.text));
      PutNew(metrics, LatencyAvgMs, AverageMs(latency.text));
      assert (metrics + [entry])[..|metrics|] == metrics;
    } else {
      assert metrics + [] == metrics;
    }
  }
}
