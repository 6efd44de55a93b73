/** The Zabbix sender (plugins/zabbix/zabbix.go): one poll cycle builds a flat list of records,
    one per service for its instance count and one per counter, and sends them in one packet
    framed by the Zabbix header and an eight-byte length. The JSON encoding of a packet is a
    parameter, the clock is a parameter, and the TCP exchange and the endless loop around a
    cycle are not modelled: a cycle ends with the bytes that would be written. */
module Zabbix {
  import opened Wrappers
  import opened Strconv
  import opened KeyOrder
  import opened Records
  import Server
  import Text

  newtype byte = x: int | 0 <= x < 256

  // ---------------------------------------------------------------------------------------
  // Records and packets

  /** One value reported to Zabbix. */
  datatype Metric = Metric(host: string, key: string, value: string, clock: int)

  /** What is sent: the request name, the records and the packet's own clock. */
  datatype Packet = Packet(request: string, data: seq<Metric>, clock: int)

  /** newMetric: the clock is the first optional argument when there is one, the current time
      otherwise. */
  function NewMetric(host: string, key: string, value: string, clock: seq<int>, now: int): (m: Metric)
    ensures m.host == host && m.key == key && m.value == value
    ensures |clock| > 0 ==> m.clock == clock[0]
    ensures |clock| == 0 ==> m.clock == now
  {
    Metric(host, key, value, if |clock| > 0 then clock[0] else now)
  }

  /** newPacket: always a "sender data" request; the clock is chosen as for a metric. */
  function NewPacket(data: seq<Metric>, clock: seq<int>, now: int): (p: Packet)
    ensures p.request == "sender data" && p.data == data
    ensures |clock| > 0 ==> p.clock == clock[0]
    ensures |clock| == 0 ==> p.clock == now
  {
    Packet("sender data", data, if |clock| > 0 then clock[0] else now)
  }

  // ---------------------------------------------------------------------------------------
  // The frame

  /** getHeader: the bytes of "ZBXD" followed by the protocol version 1. */
  function Header(): (h: seq<byte>)
    ensures |h| == 5
    ensures h[0] as int == 'Z' as int && h[1] as int == 'B' as int && h[2] as int == 'X' as int && h[3] as int == 'D' as int
    ensures h[4] == 1
  {
    [90, 66, 88, 68, 1]
  }

  function Pow256(k: nat): (p: nat)
    ensures p > 0
  {
    if k == 0 then 1 else 256 * Pow256(k - 1)
  }

  /** The `k` low bytes of `m`, least significant first. */
  function LittleEndian(m: nat, k: nat): (r: seq<byte>)
    ensures |r| == k
  {
    if k == 0 then [] else [(m % 256) as byte] + LittleEndian(m / 256, k - 1)
  }

  /** The number whose little-endian bytes are `b`. */
  function FromLittleEndian(b: seq<byte>): nat {
    if b == [] then 0 else b[0] as nat + 256 * FromLittleEndian(b[1..])
  }

  const Uint32Range: nat := 0x1_0000_0000

  /** packet.len for a payload of `n` bytes: the length truncated to 32 bits in four
      little-endian bytes, then four zero bytes. */
  function LengthField(n: nat): (r: seq<byte>)
    ensures |r| == 8 && r[4..] == [0, 0, 0, 0]
  {
    LittleEndian(n % Uint32Range, 4) + [0, 0, 0, 0]
  }

  /** packet.len of a packet, with `encode` standing for its JSON encoding. */
  function PacketLen(p: Packet, encode: Packet -> seq<byte>): (r: seq<byte>)
    ensures r == LengthField(|encode(p)|)
  {
    LengthField(|encode(p)|)
  }

  /** The buffer that is written for a payload: header, length field, payload. */
  function Frame(payload: seq<byte>): seq<byte> {
    Header() + LengthField(|payload|) + payload
  }

  /** The reading a receiver makes of a buffer: the payload when the header, the zero high
      length bytes and the length all match, nothing otherwise. */
  function ParseFrame(b: seq<byte>): (r: Option<seq<byte>>)
    ensures r.Some? ==> |b| == 13 + |r.value| && b[13..] == r.value
  {
    if |b| < 13 || b[..5] != Header() || b[9..13] != [0, 0, 0, 0] || FromLittleEndian(b[5..9]) != |b| - 13 then None
    else Some(b[13..])
  }

  /** The buffer assembly of send: the header, then the length field, then the payload,
      appended one after another. */
  method SendBuffer(p: Packet, encode: Packet -> seq<byte>) returns (buffer: seq<byte>)
    ensures buffer == Frame(encode(p))
    ensures |buffer| == 13 + |encode(p)|
  {
    var dataPacket := encode(p);
    buffer := Header() + PacketLen(p, encode);
    buffer := buffer + dataPacket;
  }

  // ---------------------------------------------------------------------------------------
  // Properties of the frame

  lemma {:induction false} FromToLittleEndian(m: nat, k: nat)
    requires m < Pow256(k)
    ensures FromLittleEndian(LittleEndian(m, k)) == m
  {
    if k > 0 {
      FromToLittleEndian(m / 256, k - 1);
      assert LittleEndian(m, k)[1..] == LittleEndian(m / 256, k - 1);
    }
  }

  lemma ByteDigits(low: nat, high: nat)
    requires low < 256
    ensures (low + 256 * high) % 256 == low && (low + 256 * high) / 256 == high
  {
  }

  lemma {:induction false} ToFromLittleEndian(b: seq<byte>)
    ensures LittleEndian(FromLittleEndian(b), |b|) == b
  {
    if b != [] {
      ToFromLittleEndian(b[1..]);
      ByteDigits(b[0] as nat, FromLittleEndian(b[1..]));
      assert b == [b[0]] + b[1..];
    }
  }

  lemma FourBytes()
    ensures Pow256(4) == Uint32Range
  {
  }

  /** The length field holds the payload length modulo 2^32, and nothing else: the decoded
      four low bytes give back the length, and any four bytes followed by zeros are the
      length field of what they decode to. */
  lemma LengthFieldRoundTrip(n: nat, b: seq<byte>)
    requires |b| == 4
    ensures FromLittleEndian(LengthField(n)[..4]) == n % Uint32Range
    ensures LengthField(FromLittleEndian(b)) == b + [0, 0, 0, 0]
  {
    FourBytes();
    assert LengthField(n)[..4] == LittleEndian(n % Uint32Range, 4);
    FromToLittleEndian(n % Uint32Range, 4);
    FromLittleEndianBound(b);
    ToFromLittleEndian(b);
    assert FromLittleEndian(b) % Uint32Range == FromLittleEndian(b);
  }

  lemma {:induction false} FromLittleEndianBound(b: seq<byte>)
    ensures FromLittleEndian(b) < Pow256(|b|)
  {
    if b != [] {
      FromLittleEndianBound(b[1..]);
    }
  }

  /** The frame is 13 bytes longer than its payload: the header in bytes 0..4, the length in
      bytes 5..8, zeros in bytes 9..12, then the payload. */
  lemma FrameLayout(payload: seq<byte>)
    ensures var f := Frame(payload);
      |f| == 13 + |payload| && f[..5] == Header() && FromLittleEndian(f[5..9]) == |payload| % Uint32Range
      && f[9..13] == [0, 0, 0, 0] && f[13..] == payload
  {
    var f := Frame(payload);
    var l := LengthField(|payload|);
    assert f[5..9] == l[..4];
    assert f[9..13] == l[4..];
    LengthFieldRoundTrip(|payload|, l[..4]);
  }

  /** A payload shorter than 2^32 bytes is read back from its frame. */
  lemma FrameRoundTrip(payload: seq<byte>)
    requires |payload| < Uint32Range
    ensures ParseFrame(Frame(payload)) == Some(payload)
  {
    FrameLayout(payload);
  }

  /** Every buffer that reads as a payload is that payload's frame. */
  lemma ParseFrameInverse(b: seq<byte>)
    requires ParseFrame(b).Some?
    ensures Frame(ParseFrame(b).value) == b
  {
    var payload := b[13..];
    LengthFieldRoundTrip(0, b[5..9]);
    assert FromLittleEndian(b[5..9]) == |payload|;
    assert LengthField(|payload|) == b[5..13];
    assert b == b[..5] + b[5..13] + b[13..];
  }

  // ---------------------------------------------------------------------------------------
  // One poll cycle

  /** The counter records of the keys `ks`, in that order, under "<service>.<key>". */
  function CounterRecords(serviceID: string, counters: map<string, int>, ks: seq<string>, now: int): (r: seq<Metric>)
    requires forall k :: k in ks ==> k in counters
    ensures |r| == |ks|
  {
    if ks == [] then []
    else
      var k := ks[|ks| - 1];
      CounterRecords(serviceID, counters, ks[..|ks| - 1], now)
      + [NewMetric("ccentral", serviceID + "." + k, Itoa(counters[k]), [], now)]
  }

  lemma CounterRecordsPrefix(serviceID: string, counters: map<string, int>, ks: seq<string>, j: int, now: int)
    requires forall k :: k in ks ==> k in counters
    requires 0 <= j < |ks|
    ensures CounterRecords(serviceID, counters, ks[..j + 1], now)
         == CounterRecords(serviceID, counters, ks[..j], now) + [NewMetric("ccentral", serviceID + "." + ks[j], Itoa(counters[ks[j]]), [], now)]
  {
    assert ks[..j + 1][..j] == ks[..j];
  }

  /** The counter records of all of `counters`, in key order. */
  function AllCounterRecords(serviceID: string, counters: map<string, int>, now: int): seq<Metric> {
    SortedKeysMembers(counters.Keys);
    CounterRecords(serviceID, counters, SortedKeys(counters.Keys), now)
  }

  /** The records of one service whose instances were read: its instance count, then its
      counters in key order. */
  function ServiceRecords(serviceID: string, instances: map<string, Sample>, now: int): seq<Metric> {
    [NewMetric("ccentral", serviceID + ".instances", Itoa(|instances|), [], now)]
    + AllCounterRecords(serviceID, CountersOver(map[], InstanceSamples(instances)), now)
  }

  /** What one service adds to a cycle: its records, or none when its instance list cannot be
      read. */
  function Contribution(api: Server.ReadApi, serviceID: string, now: int): seq<Metric> {
    match api.instanceList(serviceID)
    case Err(_) => []
    case Ok(instances) => ServiceRecords(serviceID, instances, now)
  }

  /** The records of `services` in order. */
  function ServicesRecords(api: Server.ReadApi, services: seq<string>, now: int): seq<Metric> {
    if services == [] then []
    else ServicesRecords(api, services[..|services| - 1], now) + Contribution(api, services[|services| - 1], now)
  }

  /** The records of one cycle: none when the service list cannot be read. */
  function CycleRecords(api: Server.ReadApi, now: int): seq<Metric> {
    match api.serviceList
    case Err(_) => []
    case Ok(services) => ServicesRecords(api, services, now)
  }

  /** The bytes one cycle sends: nothing when disabled, otherwise one frame holding all of the
      cycle's records in a packet stamped `now`. */
  function Cycle(enabled: bool, api: Server.ReadApi, now: int, encode: Packet -> seq<byte>): Option<seq<byte>> {
    if enabled then Some(Frame(encode(NewPacket(CycleRecords(api, now), [], now)))) else None
  }

  /** The counter records, appended in key order. */
  method AppendCounterRecords(metrics: seq<Metric>, serviceID: string, counters: map<string, int>, now: int)
    returns (metrics': seq<Metric>)
    ensures metrics' == metrics + AllCounterRecords(serviceID, counters, now)
  {
    var ks := SortedKeys(counters.Keys);
    SortedKeysMembers(counters.Keys);
    metrics' := metrics;
    ghost var added: seq<Metric> := [];
    assert ks[..|ks|] == ks;
    for j := 0 to |ks|
      invariant added == CounterRecords(serviceID, counters, ks[..j], now)
      invariant metrics' == metrics + added
    {
      var key := ks[j];
      assert key in counters;
      var m := NewMetric("ccentral", serviceID + "." + key, Itoa(counters[key]), [], now);
      CounterRecordsPrefix(serviceID, counters, ks, j, now);
      AppendAssociates(metrics, added, m);
      metrics' := metrics' + [m];
      added := added + [m];
    }
  }

  lemma AppendAssociates<T>(a: seq<T>, b: seq<T>, x: T)
    ensures (a + b) + [x] == a + (b + [x])
  {
  }

  lemma ConcatAssociates<T>(a: seq<T>, b: seq<T>, c: seq<T>)
    ensures (a + b) + c == a + (b + c)
  {
  }

  /** The records of one service whose instances were read: the instance-count record, then
      the counters folded over its instances. */
  method AppendServiceRecords(metrics: seq<Metric>, serviceID: string, instances: map<string, Sample>, now: int)
    returns (metrics': seq<Metric>)
    ensures metrics' == metrics + ServiceRecords(serviceID, instances, now)
  {
    var count := |instances|;
    var key := serviceID + ".instances";
    metrics' := metrics + [NewMetric("ccentral", key, Itoa(count), [], now)];
    var counters := CollectCounters(instances);
    metrics' := AppendCounterRecords(metrics', serviceID, counters, now);
  }

  /** The record-building body of pollLoop: every service whose instances can be read, in
      turn. */
  method CollectRecords(api: Server.ReadApi, now: int) returns (metrics: seq<Metric>)
    ensures metrics == CycleRecords(api, now)
  {
    metrics := [];
    if api.serviceList.Err? {
      return;
    }
    var services := api.serviceList.value;
    assert services[..|services|] == services;
    for i := 0 to |services|
      invariant metrics == ServicesRecords(api, services[..i], now)
    {
      ServicesRecordsPrefix(api, services, i, now);
      var instances := api.instanceList(services[i]);
      if instances.Ok? {
        metrics := AppendServiceRecords(metrics, services[i], instances.value, now);
      }
    }
  }

  /** One pass of pollLoop: when enabled, the records are built and sent in one packet. */
  method PollCycle(enabled: bool, api: Server.ReadApi, now: int, encode: Packet -> seq<byte>) returns (sent: Option<seq<byte>>)
    ensures sent == Cycle(enabled, api, now, encode)
  {
    if !enabled {
      return None;
    }
    var metrics := CollectRecords(api, now);
    var packet := NewPacket(metrics, [], now);
    var buffer := SendBuffer(packet, encode);
    return Some(buffer);
  }

  // ---------------------------------------------------------------------------------------
  // Properties of a cycle

  lemma ServicesRecordsSnoc(api: Server.ReadApi, services: seq<string>, serviceID: string, now: int)
    ensures ServicesRecords(api, services + [serviceID], now) == ServicesRecords(api, services, now) + Contribution(api, serviceID, now)
  {
    assert (services + [serviceID])[..|services|] == services;
  }

  lemma ServicesRecordsPrefix(api: Server.ReadApi, services: seq<string>, i: int, now: int)
    requires 0 <= i < |services|
    ensures ServicesRecords(api, services[..i + 1], now) == ServicesRecords(api, services[..i], now) + Contribution(api, services[i], now)
  {
    assert services[..i + 1][..i] == services[..i];
  }

  lemma SplitLast<T>(a: seq<T>, b: seq<T>)
    requires b != []
    ensures b == b[..|b| - 1] + [b[|b| - 1]] && a + b == (a + b[..|b| - 1]) + [b[|b| - 1]]
  {
  }

  lemma {:induction false} ServicesRecordsAppend(api: Server.ReadApi, a: seq<string>, b: seq<string>, now: int)
    ensures ServicesRecords(api, a + b, now) == ServicesRecords(api, a, now) + ServicesRecords(api, b, now)
    decreases |b|
  {
    if b == [] {
      assert a + b == a;
      assert ServicesRecords(api, a, now) + [] == ServicesRecords(api, a, now);
    } else {
      var init, last := b[..|b| - 1], b[|b| - 1];
      SplitLast(a, b);
      ServicesRecordsAppend(api, a, init, now);
      ServicesRecordsSnoc(api, a + init, last, now);
      ServicesRecordsSnoc(api, init, last, now);
      ConcatAssociates(ServicesRecords(api, a, now), ServicesRecords(api, init, now), Contribution(api, last, now));
    }
  }

  /** A service whose instance list cannot be read contributes nothing, and the services after
      it are still reported. */
  lemma FailedServiceSkipped(api: Server.ReadApi, before: seq<string>, serviceID: string, after: seq<string>, now: int)
    requires api.instanceList(serviceID).Err?
    ensures ServicesRecords(api, before + [serviceID] + after, now) == ServicesRecords(api, before, now) + ServicesRecords(api, after, now)
  {
    ServicesRecordsAppend(api, before + [serviceID], after, now);
    ServicesRecordsSnoc(api, before, serviceID, now);
    assert Contribution(api, serviceID, now) == [];
    assert ServicesRecords(api, before, now) + [] == ServicesRecords(api, before, now);
  }

  /** The j-th counter record names the j-th key unsanitised under the service, with the
      counter's value in decimal and the cycle's clock. */
  lemma {:induction false} CounterRecordAt(serviceID: string, counters: map<string, int>, ks: seq<string>, now: int, j: int)
    requires forall k :: k in ks ==> k in counters
    requires 0 <= j < |ks|
    ensures CounterRecords(serviceID, counters, ks, now)[j] == Metric("ccentral", serviceID + "." + ks[j], Itoa(counters[ks[j]]), now)
  {
    if j < |ks| - 1 {
      CounterRecordAt(serviceID, counters, ks[..|ks| - 1], now, j);
    }
  }

  /** A service's records: the first is its instance count under "<service>.instances"; then
      one per counter of the service, in key order: record j + 1 is the j-th key under
      "<service>.<key>" with its folded value. */
  lemma ServiceRecordsShape(serviceID: string, instances: map<string, Sample>, now: int, j: int)
    requires 0 <= j < |CountersOver(map[], InstanceSamples(instances))|
    ensures var r := ServiceRecords(serviceID, instances, now);
      var counters := CountersOver(map[], InstanceSamples(instances));
      var ks := SortedKeys(counters.Keys);
      |r| == 1 + |counters|
      && r[0] == Metric("ccentral", serviceID + ".instances", Itoa(|instances|), now)
      && ks[j] in counters && r[j + 1] == Metric("ccentral", serviceID + "." + ks[j], Itoa(counters[ks[j]]), now)
  {
    var counters := CountersOver(map[], InstanceSamples(instances));
    var ks := SortedKeys(counters.Keys);
    SortedKeysMembers(counters.Keys);
    CounterRecordAt(serviceID, counters, ks, now, j);
    var r := ServiceRecords(serviceID, instances, now);
    assert r == [Metric("ccentral", serviceID + ".instances", Itoa(|instances|), now)] + CounterRecords(serviceID, counters, ks, now);
  }

  /** Every counter of the service is reported. */
  lemma EveryCounterReported(serviceID: string, instances: map<string, Sample>, now: int, k: string)
    requires k in CountersOver(map[], InstanceSamples(instances))
    ensures var counters := CountersOver(map[], InstanceSamples(instances));
      Metric("ccentral", serviceID + "." + k, Itoa(counters[k]), now) in ServiceRecords(serviceID, instances, now)
  {
    var counters := CountersOver(map[], InstanceSamples(instances));
    var ks := SortedKeys(counters.Keys);
    SortedKeysMembers(counters.Keys);
    SortedKeysDistinct(counters.Keys);
    var j :| 0 <= j < |ks| && ks[j] == k;
    ServiceRecordsShape(serviceID, instances, now, j);
  }

  /** Histograms are not sent: every record of a service after its instance count names a
      counter key. */
  lemma CountersOnlyReported(serviceID: string, instances: map<string, Sample>, now: int, j: int)
    requires 1 <= j < |ServiceRecords(serviceID, instances, now)|
    ensures exists k :: (Text.HasPrefix(k, MetricPrefixCounter)
      && ServiceRecords(serviceID, instances, now)[j].key == serviceID + "." + k)
  {
    var counters := CountersOver(map[], InstanceSamples(instances));
    var ks := SortedKeys(counters.Keys);
    ServiceRecordsShape(serviceID, instances, now, j - 1);
    CountersOverPrefixed(InstanceSamples(instances), ks[j - 1]);
  }

  /** A disabled cycle sends nothing; an enabled one sends exactly one frame, whose payload is
      the encoding of a "sender data" packet with all of the cycle's records, even when there
      are none. */
  lemma CycleSends(enabled: bool, api: Server.ReadApi, now: int, encode: Packet -> seq<byte>)
    ensures !enabled ==> Cycle(enabled, api, now, encode) == None
    ensures enabled && |encode(NewPacket(CycleRecords(api, now), [], now))| < Uint32Range ==>
      Cycle(enabled, api, now, encode).Some?
      && ParseFrame(Cycle(enabled, api, now, encode).value) == Some(encode(Packet("sender data", CycleRecords(api, now), now)))
  {
    if enabled && |encode(NewPacket(CycleRecords(api, now), [], now))| < Uint32Range {
      FrameRoundTrip(encode(NewPacket(CycleRecords(api, now), [], now)));
    }
  }

  /** Without a service list the cycle's packet is empty. */
  lemma NoServiceListNoRecords(api: Server.ReadApi, now: int)
    requires api.serviceList.Err?
    ensures CycleRecords(api, now) == []
  {
  }
}
