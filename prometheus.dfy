/** The Prometheus exporter (plugins/prometheus/prometheus.go): for every service, a gauge with
    its instance count, a gauge per aggregated counter, and a five-line block per aggregated
    histogram, all stamped with the time in milliseconds. The text is specified by functions;
    GeneratePrometheusPayload builds it the way the source does, by appending to a buffer. */
module Prometheus {
  import opened Wrappers
  import opened Text
  import opened Strconv
  import opened KeyOrder
  import opened Records
  import Server

  /** The timestamp the exporter prints: Unix seconds times 1000, in 64-bit `int`. */
  function EpochMillis(unix: int): int {
    Wrap64(unix * 1000)
  }

  // ---------------------------------------------------------------------------------------
  // The exposition text

  /** A metric's TYPE line. */
  function TypeLine(svc: string, name: string): string {
    "# TYPE cc_" + svc + "_" + name + " gauge\n"
  }

  /** A metric's sample line: its value and the timestamp. */
  function SampleLine(svc: string, name: string, value: int, epoch: int): string {
    "cc_" + svc + "_" + name + " " + Itoa(value) + " " + Itoa(epoch) + "\n"
  }

  /** One percentile of a histogram, labelled with `tag`. */
  function PercentileLine(svc: string, name: string, tag: string, value: int, epoch: int): string {
    "cc_" + svc + "_" + name + "{percentile=\"" + tag + "\"} " + Itoa(value) + " " + Itoa(epoch) + "\n"
  }

  /** The instance-count gauge of a (cleaned) service name. */
  function InstanceGauge(svc: string, count: int, epoch: int): string {
    TypeLine(svc, "instances") + SampleLine(svc, "instances", count, epoch)
  }

  /** The gauge of one counter; the key is cleaned. */
  function CounterGauge(svc: string, key: string, value: int, epoch: int): string {
    TypeLine(svc, CleanValue(key)) + SampleLine(svc, CleanValue(key), value, epoch)
  }

  /** toMetricText: the TYPE line, then the 75th, 95th and 99th percentile and the median; the
      name comes from the point's own key, cleaned. */
  function MetricText(p: Point, svc: string, epoch: int): string {
    var k := CleanValue(p.key);
    TypeLine(svc, k)
    + PercentileLine(svc, k, "75", p.p75, epoch)
    + PercentileLine(svc, k, "95", p.p95, epoch)
    + PercentileLine(svc, k, "99", p.p99, epoch)
    + PercentileLine(svc, k, "median", p.median, epoch)
  }

  /** The counter gauges of the keys `ks`, in that order. */
  function CounterGauges(svc: string, counters: map<string, int>, ks: seq<string>, epoch: int): string
    requires forall k :: k in ks ==> k in counters
  {
    if ks == [] then ""
    else CounterGauges(svc, counters, ks[..|ks| - 1], epoch) + CounterGauge(svc, ks[|ks| - 1], counters[ks[|ks| - 1]], epoch)
  }

  /** The histogram blocks of the keys `ks`, in that order. */
  function HistogramTexts(svc: string, histograms: map<string, Point>, ks: seq<string>, epoch: int): string
    requires forall k :: k in ks ==> k in histograms
  {
    if ks == [] then ""
    else HistogramTexts(svc, histograms, ks[..|ks| - 1], epoch) + MetricText(histograms[ks[|ks| - 1]], svc, epoch)
  }

  /** The gauges of all counters, in key order. */
  function AllCounterGauges(svc: string, counters: map<string, int>, epoch: int): string {
    SortedKeysMembers(counters.Keys);
    CounterGauges(svc, counters, SortedKeys(counters.Keys), epoch)
  }

  /** The blocks of all histograms, in key order. */
  function AllHistogramTexts(svc: string, histograms: map<string, Point>, epoch: int): string {
    SortedKeysMembers(histograms.Keys);
    HistogramTexts(svc, histograms, SortedKeys(histograms.Keys), epoch)
  }

  lemma CounterGaugesSnoc(svc: string, counters: map<string, int>, ks: seq<string>, j: int, epoch: int)
    requires forall k :: k in ks ==> k in counters
    requires 0 <= j < |ks|
    ensures CounterGauges(svc, counters, ks[..j + 1], epoch)
         == CounterGauges(svc, counters, ks[..j], epoch) + CounterGauge(svc, ks[j], counters[ks[j]], epoch)
  {
    assert ks[..j + 1][..j] == ks[..j];
  }

  lemma HistogramTextsSnoc(svc: string, histograms: map<string, Point>, ks: seq<string>, j: int, epoch: int)
    requires forall k :: k in ks ==> k in histograms
    requires 0 <= j < |ks|
    ensures HistogramTexts(svc, histograms, ks[..j + 1], epoch)
         == HistogramTexts(svc, histograms, ks[..j], epoch) + MetricText(histograms[ks[j]], svc, epoch)
  {
    assert ks[..j + 1][..j] == ks[..j];
  }

  /** The counters of a service: every instance's sample folded in, from an empty map. */
  function ServiceCounters(instances: map<string, Sample>): map<string, int> {
    CountersOver(map[], InstanceSamples(instances))
  }

  /** The histograms of a service: every instance's sample folded in, from an empty map. */
  function ServiceHistograms(instances: map<string, Sample>): map<string, Point> {
    HistogramsOver(map[], InstanceSamples(instances))
  }

  /** One service's part of the payload: its instance gauge, then all its counter gauges, then
      all its histogram blocks. */
  function ServiceBlock(serviceID: string, instances: map<string, Sample>, epoch: int): string {
    var svc := CleanValue(serviceID);
    InstanceGauge(svc, |instances|, epoch)
    + AllCounterGauges(svc, ServiceCounters(instances), epoch)
    + AllHistogramTexts(svc, ServiceHistograms(instances), epoch)
  }

  /** The blocks of `services` in order, each rendered by `render` from the service's
      instances; the first instance-list error replaces the whole output. */
  function Blocks(api: Server.ReadApi, services: seq<string>, render: (string, map<string, Sample>) -> string): Result<string> {
    if services == [] then Ok("")
    else
      match Blocks(api, services[..|services| - 1], render)
      case Err(e) => Err(e)
      case Ok(prefix) =>
        match api.instanceList(services[|services| - 1])
        case Err(e) => Err(e)
        case Ok(instances) => Ok(prefix + render(services[|services| - 1], instances))
  }

  /** The exporter's whole answer: the service-list error, the first instance-list error, or
      the concatenated blocks. */
  function Payload(api: Server.ReadApi, unix: int): Result<string> {
    match api.serviceList
    case Err(e) => Err(e)
    case Ok(services) => Blocks(api, services, Renderer(unix))
  }

  /** The block of one service at the clock `unix`. */
  function Renderer(unix: int): (string, map<string, Sample>) -> string {
    (id, instances) => ServiceBlock(id, instances, EpochMillis(unix))
  }

  // ---------------------------------------------------------------------------------------
  // The renderer

  /** toMetricText, writing one line after another. */
  method ToMetricText(p: HistogramPoint, ghost value: Point, cleanServiceID: string, epoch: int) returns (text: string)
    requires p.Value() == value
    ensures text == MetricText(value, cleanServiceID, epoch)
  {
    var cleanKey := CleanValue(p.key);
    text := TypeLine(cleanServiceID, cleanKey);
    text := text + PercentileLine(cleanServiceID, cleanKey, "75", p.percentile75, epoch);
    text := text + PercentileLine(cleanServiceID, cleanKey, "95", p.percentile95, epoch);
    text := text + PercentileLine(cleanServiceID, cleanKey, "99", p.percentile99, epoch);
    text := text + PercentileLine(cleanServiceID, cleanKey, "median", p.percentileMed, epoch);
  }

  /** The loop over a service's instances: both folds applied to every sample in turn, from
      empty accumulators. */
  method CollectService(instances: map<string, Sample>) returns (counters: map<string, int>, histograms: map<string, HistogramPoint>)
    ensures counters == ServiceCounters(instances)
    ensures Distinct(histograms) && Snapshot(histograms) == ServiceHistograms(instances)
    ensures forall o :: o in histograms.Values ==> fresh(o)
  {
    var samples := InstanceSamples(instances);
    counters := map[];
    histograms := map[];
    for i := 0 to |samples|
      invariant counters == CountersOver(map[], samples[..i])
      invariant Distinct(histograms) && Snapshot(histograms) == HistogramsOver(map[], samples[..i])
      invariant forall o :: o in histograms.Values ==> fresh(o)
    {
      CountersOverPrefix(samples, i);
      HistogramsOverPrefix(samples, i);
      counters := CollectInstanceCounters(samples[i], counters);
      histograms := CollectHistograms(samples[i], histograms);
    }
    assert samples[..|samples|] == samples;
  }

  /** The counter gauges, appended in key order. */
  method WriteCounterGauges(cleanServiceID: string, counters: map<string, int>, epoch: int) returns (text: string)
    ensures text == AllCounterGauges(cleanServiceID, counters, epoch)
  {
    var ks := SortedKeys(counters.Keys);
    SortedKeysMembers(counters.Keys);
    text := "";
    for j := 0 to |ks|
      invariant text == CounterGauges(cleanServiceID, counters, ks[..j], epoch)
    {
      CounterGaugesSnoc(cleanServiceID, counters, ks, j, epoch);
      text := text + CounterGauge(cleanServiceID, ks[j], counters[ks[j]], epoch);
    }
    assert ks[..|ks|] == ks;
  }

  /** The histogram blocks, appended in key order; `snapshot` names the points' values. */
  method WriteHistogramTexts(cleanServiceID: string, histograms: map<string, HistogramPoint>, ghost snapshot: map<string, Point>,
                             epoch: int) returns (text: string)
    requires snapshot == Snapshot(histograms)
    ensures text == AllHistogramTexts(cleanServiceID, snapshot, epoch)
  {
    assert snapshot.Keys == histograms.Keys;
    var ks := SortedKeys(histograms.Keys);
    SortedKeysMembers(snapshot.Keys);
    assert ks[..|ks|] == ks;
    text := "";
    for j := 0 to |ks|
      invariant text == HistogramTexts(cleanServiceID, snapshot, ks[..j], epoch)
    {
      text := AppendHistogramText(text, cleanServiceID, histograms, snapshot, ks, j, epoch);
    }
  }

  /** One pass of WriteHistogramTexts' loop: the block of the j-th key is appended. */
  method AppendHistogramText(text: string, cleanServiceID: string, histograms: map<string, HistogramPoint>,
                             ghost snapshot: map<string, Point>, ks: seq<string>, j: int, epoch: int)
    returns (text': string)
    requires (forall k :: k in ks ==> k in snapshot) && 0 <= j < |ks|
    requires ks[j] in histograms && histograms[ks[j]].Value() == snapshot[ks[j]]
    requires text == HistogramTexts(cleanServiceID, snapshot, ks[..j], epoch)
    ensures text' == HistogramTexts(cleanServiceID, snapshot, ks[..j + 1], epoch)
  {
    HistogramTextsSnoc(cleanServiceID, snapshot, ks, j, epoch);
    var metric := ToMetricText(histograms[ks[j]], snapshot[ks[j]], cleanServiceID, epoch);
    text' := text + metric;
  }

  /** One service's block: the instance gauge, then the counters, then the histograms. */
  method WriteServiceBlock(serviceID: string, instances: map<string, Sample>, epoch: int) returns (block: string)
    ensures block == ServiceBlock(serviceID, instances, epoch)
  {
    var cleanServiceID := CleanValue(serviceID);
    block := InstanceGauge(cleanServiceID, |instances|, epoch);
    var counters, histograms := CollectService(instances);
    var counterText := WriteCounterGauges(cleanServiceID, counters, epoch);
    block := block + counterText;
    var histogramText := WriteHistogramTexts(cleanServiceID, histograms, Snapshot(histograms), epoch);
    block := block + histogramText;
  }

  /** GeneratePrometheusPayload: the service list, then each service's block in turn; any
      error returns no text at all. */
  method GeneratePrometheusPayload(api: Server.ReadApi, unix: int) returns (r: Result<string>)
    ensures r == Payload(api, unix)
  {
    var epoch := Wrap64(unix * 1000);
    var buffer := "";
    if api.serviceList.Err? {
      return Err(api.serviceList.error);
    }
    var services := api.serviceList.value;
    ghost var render := Renderer(unix);
    assert services[..|services|] == services;
    for i := 0 to |services|
      invariant Blocks(api, services[..i], render) == Ok(buffer)
    {
      var instances := api.instanceList(services[i]);
      if instances.Err? {
        BlocksSnoc(api, services, i, render, buffer);
        BlocksStopAtError(api, services, i + 1, render);
        return Err(instances.error);
      }
      var block := WriteServiceBlock(services[i], instances.value, epoch);
      RendererApplies(unix, services[i], instances.value);
      BlocksSnoc(api, services, i, render, buffer);
      buffer := buffer + block;
    }
    return Ok(buffer);
  }

  // ---------------------------------------------------------------------------------------
  // Properties

  lemma RendererApplies(unix: int, serviceID: string, instances: map<string, Sample>)
    ensures Renderer(unix)(serviceID, instances) == ServiceBlock(serviceID, instances, Wrap64(unix * 1000))
  {
  }

  /** One more service: its block appended, or its instance-list error. */
  lemma BlocksSnoc(api: Server.ReadApi, services: seq<string>, i: int, render: (string, map<string, Sample>) -> string, prefix: string)
    requires 0 <= i < |services| && Blocks(api, services[..i], render) == Ok(prefix)
    ensures Blocks(api, services[..i + 1], render) ==
      match api.instanceList(services[i])
      case Err(e) => Err(e)
      case Ok(instances) => Ok(prefix + render(services[i], instances))
  {
    assert services[..i + 1][..i] == services[..i];
  }

  /** Once a prefix of the services has failed, the whole output is that failure. */
  lemma {:induction false} BlocksStopAtError(api: Server.ReadApi, services: seq<string>, n: int,
                                             render: (string, map<string, Sample>) -> string)
    requires 0 <= n <= |services| && Blocks(api, services[..n], render).Err?
    ensures Blocks(api, services, render) == Blocks(api, services[..n], render)
    decreases |services| - n
  {
    if n < |services| {
      assert services[..n + 1][..n] == services[..n];
      BlocksStopAtError(api, services, n + 1, render);
    } else {
      assert services[..n] == services;
    }
  }

  /** Some service's instance list fails. */
  predicate AnyFails(api: Server.ReadApi, services: seq<string>) {
    exists i :: 0 <= i < |services| && api.instanceList(services[i]).Err?
  }

  /** The output fails exactly when some service's instance list fails, and then it is the
      error of the first such service. */
  lemma {:induction false} BlocksFailIff(api: Server.ReadApi, services: seq<string>, render: (string, map<string, Sample>) -> string)
    ensures Blocks(api, services, render).Err? <==> AnyFails(api, services)
    ensures Blocks(api, services, render).Err? ==>
      exists i :: 0 <= i < |services| && api.instanceList(services[i]).Err?
        && Blocks(api, services, render).error == api.instanceList(services[i]).error
        && !AnyFails(api, services[..i])
  {
    if services != [] {
      var init := services[..|services| - 1];
      var last := services[|services| - 1];
      BlocksFailIff(api, init, render);
      if AnyFails(api, init) {
        var i :| 0 <= i < |init| && api.instanceList(init[i]).Err?;
        assert services[i] == init[i];
        var j :| 0 <= j < |init| && api.instanceList(init[j]).Err?
          && Blocks(api, init, render).error == api.instanceList(init[j]).error
          && !AnyFails(api, init[..j]);
        assert init[..j] == services[..j];
        assert services[j] == init[j];
      } else if api.instanceList(last).Err? {
        assert services[..|init|] == init;
      } else {
        forall i | 0 <= i < |services|
          ensures api.instanceList(services[i]).Ok?
        {
          if i < |init| {
            assert services[i] == init[i];
          }
        }
      }
    }
  }

  /** The exporter fails exactly when the service list fails or some service's instance list
      does, with that error and no text. */
  lemma PayloadFailIff(api: Server.ReadApi, unix: int)
    ensures Payload(api, unix).Err? <==> api.serviceList.Err? || AnyFails(api, api.serviceList.value)
    ensures api.serviceList.Err? ==> Payload(api, unix) == Err(api.serviceList.error)
  {
    if api.serviceList.Ok? {
      BlocksFailIff(api, api.serviceList.value, Renderer(unix));
    }
  }

  /** The test clock of 100 seconds is printed as 100000. */
  lemma EpochOfTestClock()
    ensures EpochMillis(100) == 100000
  {
  }

  /** A service without instances still gets its instance gauge, with count 0, and nothing
      else. */
  lemma EmptyServiceBlock(serviceID: string, epoch: int)
    ensures ServiceBlock(serviceID, map[], epoch) == InstanceGauge(CleanValue(serviceID), 0, epoch)
  {
    assert InstanceSamples(map[]) == [];
    assert ServiceCounters(map[]) == map[];
    assert ServiceHistograms(map[]) == map[];
    assert SortedKeys({}) == [];
  }

  // ---------------------------------------------------------------------------------------
  // Line structure

  /** The number of line ends in a text. */
  function LineEnds(s: string): nat {
    if s == [] then 0 else LineEnds(s[..|s| - 1]) + (if s[|s| - 1] == '\n' then 1 else 0)
  }

  lemma {:induction false} LineEndsConcat(a: string, b: string)
    ensures LineEnds(a + b) == LineEnds(a) + LineEnds(b)
    decreases |b|
  {
    if b == [] {
      assert a + b == a;
    } else {
      assert (a + b)[..|a + b| - 1] == a + b[..|b| - 1];
      LineEndsConcat(a, b[..|b| - 1]);
    }
  }

  lemma {:induction false} NoLineEnds(s: string)
    requires forall i :: 0 <= i < |s| ==> s[i] != '\n'
    ensures LineEnds(s) == 0
  {
    if s != [] {
      NoLineEnds(s[..|s| - 1]);
    }
  }

  /** Text without a line end. */
  predicate NoEnds(s: string) {
    forall i :: 0 <= i < |s| ==> s[i] != '\n'
  }

  lemma NoEndsAppend(a: string, b: string)
    requires NoEnds(a) && NoEnds(b)
    ensures NoEnds(a + b)
  {
  }

  /** Text without a line end, then one line end, is one line. */
  lemma OneLine(s: string)
    requires NoEnds(s)
    ensures LineEnds(s + "\n") == 1
  {
    NoLineEnds(s);
    assert (s + "\n")[..|s|] == s;
  }

  lemma NoEndsInItoa(n: int)
    ensures NoEnds(Itoa(n))
  {
    forall i | 0 <= i < |Itoa(n)| ensures Itoa(n)[i] != '\n' {
      if n < 0 {
        assert Itoa(n) == "-" + NatDigits(-n);
        if i > 0 { assert Itoa(n)[i] == NatDigits(-n)[i - 1]; }
      }
    }
  }

  lemma NoEndsInCleanValue(key: string)
    ensures NoEnds(CleanValue(key))
  {
  }

  lemma TypeLineIsLine(svc: string, name: string)
    requires NoEnds(svc) && NoEnds(name)
    ensures LineEnds(TypeLine(svc, name)) == 1
  {
    var s := "# TYPE cc_" + svc + "_" + name + " gauge";
    NoEndsAppend("# TYPE cc_", svc);
    NoEndsAppend("# TYPE cc_" + svc, "_");
    NoEndsAppend("# TYPE cc_" + svc + "_", name);
    NoEndsAppend("# TYPE cc_" + svc + "_" + name, " gauge");
    OneLine(s);
    assert TypeLine(svc, name) == s + "\n";
  }

  lemma SampleLineIsLine(svc: string, name: string, value: int, epoch: int)
    requires NoEnds(svc) && NoEnds(name)
    ensures LineEnds(SampleLine(svc, name, value, epoch)) == 1
  {
    NoEndsInItoa(value);
    NoEndsInItoa(epoch);
    var s := "cc_" + svc + "_" + name + " " + Itoa(value) + " " + Itoa(epoch);
    NoEndsAppend("cc_", svc);
    NoEndsAppend("cc_" + svc, "_");
    NoEndsAppend("cc_" + svc + "_", name);
    NoEndsAppend("cc_" + svc + "_" + name, " ");
    NoEndsAppend("cc_" + svc + "_" + name + " ", Itoa(value));
    NoEndsAppend("cc_" + svc + "_" + name + " " + Itoa(value), " ");
    NoEndsAppend("cc_" + svc + "_" + name + " " + Itoa(value) + " ", Itoa(epoch));
    OneLine(s);
    assert SampleLine(svc, name, value, epoch) == s + "\n";
  }

  lemma PercentileLineIsLine(svc: string, name: string, tag: string, value: int, epoch: int)
    requires NoEnds(svc) && NoEnds(name) && NoEnds(tag)
    ensures LineEnds(PercentileLine(svc, name, tag, value, epoch)) == 1
  {
    NoEndsInItoa(value);
    NoEndsInItoa(epoch);
    var s0 := "cc_" + svc + "_" + name + "{percentile=\"";
    NoEndsAppend("cc_", svc);
    NoEndsAppend("cc_" + svc, "_");
    NoEndsAppend("cc_" + svc + "_", name);
    NoEndsAppend("cc_" + svc + "_" + name, "{percentile=\"");
    NoEndsAppend(s0, tag);
    NoEndsAppend(s0 + tag, "\"} ");
    NoEndsAppend(s0 + tag + "\"} ", Itoa(value));
    NoEndsAppend(s0 + tag + "\"} " + Itoa(value), " ");
    NoEndsAppend(s0 + tag + "\"} " + Itoa(value) + " ", Itoa(epoch));
    var s := s0 + tag + "\"} " + Itoa(value) + " " + Itoa(epoch);
    OneLine(s);
    assert PercentileLine(svc, name, tag, value, epoch) == s + "\n";
  }

  /** Each counter renders as exactly two lines. */
  lemma CounterGaugeLines(svc: string, key: string, value: int, epoch: int)
    requires NoEnds(svc)
    ensures LineEnds(CounterGauge(svc, key, value, epoch)) == 2
  {
    NoEndsInCleanValue(key);
    TypeLineIsLine(svc, CleanValue(key));
    SampleLineIsLine(svc, CleanValue(key), value, epoch);
    LineEndsConcat(TypeLine(svc, CleanValue(key)), SampleLine(svc, CleanValue(key), value, epoch));
  }

  lemma PercentileTagsHaveNoEnds()
    ensures NoEnds("75") && NoEnds("95") && NoEnds("99") && NoEnds("median")
  {
  }

  /** Each histogram renders as exactly five lines. */
  lemma MetricTextLines(p: Point, svc: string, epoch: int)
    requires NoEnds(svc)
    ensures LineEnds(MetricText(p, svc, epoch)) == 5
  {
    var k := CleanValue(p.key);
    NoEndsInCleanValue(p.key);
    var t := TypeLine(svc, k);
    var l75 := PercentileLine(svc, k, "75", p.p75, epoch);
    var l95 := PercentileLine(svc, k, "95", p.p95, epoch);
    var l99 := PercentileLine(svc, k, "99", p.p99, epoch);
    var lmed := PercentileLine(svc, k, "median", p.median, epoch);
    TypeLineIsLine(svc, k);
    PercentileTagsHaveNoEnds();
    PercentileLineIsLine(svc, k, "75", p.p75, epoch);
    PercentileLineIsLine(svc, k, "95", p.p95, epoch);
    PercentileLineIsLine(svc, k, "99", p.p99, epoch);
    PercentileLineIsLine(svc, k, "median", p.median, epoch);
    LineEndsConcat(t, l75);
    LineEndsConcat(t + l75, l95);
    LineEndsConcat(t + l75 + l95, l99);
    LineEndsConcat(t + l75 + l95 + l99, lmed);
  }

  // ---------------------------------------------------------------------------------------
  // Output for one instance with one metric

  lemma SingleInstanceSamples(iid: string, s: Sample)
    ensures InstanceSamples(map[iid := s]) == [s]
  {
    EntriesSingleton(iid, s);
  }

  /** One instance reporting one counter: that counter with its last reading, no histograms. */
  lemma SingleCounterSample(key: string, v: Raw)
    requires HasPrefix(key, MetricPrefixCounter) && LastReading(v).Some?
    ensures CountersOver(map[], [map[key := v]]) == map[key := LastReading(v).value]
    ensures HistogramsOver(map[], [map[key := v]]) == map[]
  {
    var s := map[key := v];
    assert [s][..0] == [];
    var c := CountersOver(map[], [s]);
    assert CountersOver(map[], [s][..0]) == map[];
    assert c == CountersAfter(s, map[]);
    forall k ensures (k in c <==> k == key) && (k in c ==> c[k] == LastReading(v).value) {
      CountersAfterAt(s, map[], k);
    }
    var h := HistogramsOver(map[], [s]);
    forall k ensures k !in h {
      SingleInstanceHistograms(s, k);
      assert k == key ==> k[0] != 'h';
    }
  }

  /** One instance reporting one well-formed histogram: that point unchanged, no counters. */
  lemma SingleHistogramSample(key: string, v: Raw)
    requires HasPrefix(key, MetricPrefixHistogram) && v.List? && NewHistogramPoint(key, v.items).Some?
    ensures CountersOver(map[], [map[key := v]]) == map[]
    ensures HistogramsOver(map[], [map[key := v]]) == map[key := NewHistogramPoint(key, v.items).value]
  {
    var s := map[key := v];
    assert [s][..0] == [];
    var c := CountersOver(map[], [s]);
    assert CountersOver(map[], [s][..0]) == map[];
    assert c == CountersAfter(s, map[]);
    forall k ensures k !in c {
      CountersAfterAt(s, map[], k);
      assert k == key ==> k[0] != 'c';
    }
    var h := HistogramsOver(map[], [s]);
    assert h.Keys == {key} by {
      forall k ensures k in h <==> k == key {
        SingleInstanceHistograms(s, k);
      }
    }
    forall k ensures (k in h <==> k == key) && (k in h ==> h[k] == NewHistogramPoint(key, v.items).value) {
      SingleInstanceHistograms(s, k);
    }
  }

  /** A service with one instance reporting one counter: the instance gauge, then that
      counter's gauge with its last reading. */
  lemma SingleCounterService(serviceID: string, iid: string, key: string, v: Raw, epoch: int)
    requires HasPrefix(key, MetricPrefixCounter) && LastReading(v).Some?
    ensures ServiceBlock(serviceID, map[iid := map[key := v]], epoch)
         == InstanceGauge(CleanValue(serviceID), 1, epoch) + CounterGauge(CleanValue(serviceID), key, LastReading(v).value, epoch)
  {
    var svc := CleanValue(serviceID);
    SingleInstanceSamples(iid, map[key := v]);
    SingleCounterSample(key, v);
    var counters := map[key := LastReading(v).value];
    assert ServiceCounters(map[iid := map[key := v]]) == counters;
    assert ServiceHistograms(map[iid := map[key := v]]) == map[];
    SortedKeysSingleton(key);
    assert counters.Keys == {key};
    assert SortedKeys(counters.Keys) == [key];
    assert SortedKeys({}) == [];
    assert [key][..0] == [];
    assert CounterGauges(svc, counters, [key], epoch) == "" + CounterGauge(svc, key, LastReading(v).value, epoch);
    assert "" + CounterGauge(svc, key, LastReading(v).value, epoch) == CounterGauge(svc, key, LastReading(v).value, epoch);
    assert AllHistogramTexts(svc, map[], epoch) == "";
  }

  /** A service with one instance reporting one histogram: the instance gauge, then the
      point's five lines, its values as reported. */
  lemma SingleHistogramService(serviceID: string, iid: string, key: string, v: Raw, epoch: int)
    requires HasPrefix(key, MetricPrefixHistogram) && v.List? && NewHistogramPoint(key, v.items).Some?
    ensures ServiceBlock(serviceID, map[iid := map[key := v]], epoch)
         == InstanceGauge(CleanValue(serviceID), 1, epoch) + MetricText(NewHistogramPoint(key, v.items).value, CleanValue(serviceID), epoch)
  {
    var svc := CleanValue(serviceID);
    var p := NewHistogramPoint(key, v.items).value;
    SingleInstanceSamples(iid, map[key := v]);
    SingleHistogramSample(key, v);
    var histograms := map[key := p];
    assert ServiceCounters(map[iid := map[key := v]]) == map[];
    assert ServiceHistograms(map[iid := map[key := v]]) == histograms;
    SortedKeysSingleton(key);
    assert histograms.Keys == {key};
    assert SortedKeys(histograms.Keys) == [key];
    assert SortedKeys({}) == [];
    assert [key][..0] == [];
    assert AllCounterGauges(svc, map[], epoch) == "";
    assert HistogramTexts(svc, histograms, [key], epoch) == "" + MetricText(p, svc, epoch);
    assert "" + MetricText(p, svc, epoch) == MetricText(p, svc, epoch);
  }

  /** One service listed: the payload is that service's block. */
  lemma SingleServicePayload(api: Server.ReadApi, unix: int, serviceID: string, instances: map<string, Sample>)
    requires api.serviceList == Ok([serviceID]) && api.instanceList(serviceID) == Ok(instances)
    ensures Payload(api, unix) == Ok(ServiceBlock(serviceID, instances, EpochMillis(unix)))
  {
    assert [serviceID][..0] == [];
    RendererApplies(unix, serviceID, instances);
    var block := ServiceBlock(serviceID, instances, EpochMillis(unix));
    assert Blocks(api, [serviceID], Renderer(unix)) == Ok("" + block);
    assert "" + block == block;
  }

  /** The counter gauges of `ks` take two lines each. */
  lemma {:induction false} CounterGaugesLines(svc: string, counters: map<string, int>, ks: seq<string>, epoch: int)
    requires NoEnds(svc) && forall k :: k in ks ==> k in counters
    ensures LineEnds(CounterGauges(svc, counters, ks, epoch)) == 2 * |ks|
  {
    if ks != [] {
      var init, last := ks[..|ks| - 1], ks[|ks| - 1];
      CounterGaugesLines(svc, counters, init, epoch);
      CounterGaugeLines(svc, last, counters[last], epoch);
      LineEndsConcat(CounterGauges(svc, counters, init, epoch), CounterGauge(svc, last, counters[last], epoch));
    }
  }

  /** The histogram blocks of `ks` take five lines each. */
  lemma {:induction false} HistogramTextsLines(svc: string, histograms: map<string, Point>, ks: seq<string>, epoch: int)
    requires NoEnds(svc) && forall k :: k in ks ==> k in histograms
    ensures LineEnds(HistogramTexts(svc, histograms, ks, epoch)) == 5 * |ks|
  {
    if ks != [] {
      var init, last := ks[..|ks| - 1], ks[|ks| - 1];
      HistogramTextsLines(svc, histograms, init, epoch);
      MetricTextLines(histograms[last], svc, epoch);
      LineEndsConcat(HistogramTexts(svc, histograms, init, epoch), MetricText(histograms[last], svc, epoch));
    }
  }

  /** The instance gauge takes two lines. */
  lemma InstanceGaugeLines(svc: string, count: int, epoch: int)
    requires NoEnds(svc)
    ensures LineEnds(InstanceGauge(svc, count, epoch)) == 2
  {
    assert NoEnds("instances");
    TypeLineIsLine(svc, "instances");
    SampleLineIsLine(svc, "instances", count, epoch);
    LineEndsConcat(TypeLine(svc, "instances"), SampleLine(svc, "instances", count, epoch));
  }

  /** A service's block has two lines for its instance count, two per counter and five per
      histogram. */
  lemma ServiceBlockLines(serviceID: string, instances: map<string, Sample>, epoch: int)
    ensures LineEnds(ServiceBlock(serviceID, instances, epoch))
         == 2 + 2 * |ServiceCounters(instances)| + 5 * |ServiceHistograms(instances)|
  {
    var svc := CleanValue(serviceID);
    var counters, histograms := ServiceCounters(instances), ServiceHistograms(instances);
    NoEndsInCleanValue(serviceID);
    InstanceGaugeLines(svc, |instances|, epoch);
    SortedKeysMembers(counters.Keys);
    SortedKeysMembers(histograms.Keys);
    CounterGaugesLines(svc, counters, SortedKeys(counters.Keys), epoch);
    HistogramTextsLines(svc, histograms, SortedKeys(histograms.Keys), epoch);
    var a, b, c := InstanceGauge(svc, |instances|, epoch), AllCounterGauges(svc, counters, epoch), AllHistogramTexts(svc, histograms, epoch);
    LineEndsConcat(a, b);
    LineEndsConcat(a + b, c);
  }
}
