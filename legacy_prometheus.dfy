/** The first Prometheus exporter (plugins/prometheus.go): for every service its instance count
    and its counters, each as a gauge, stamped with the time in seconds. It has no histograms,
    and it shares the cleaning of names, the line formats and the counter fold with the current
    exporter. */
module LegacyPrometheus {
  import opened Wrappers
  import opened Text
  import opened Records
  import opened KeyOrder
  import opened Prometheus
  import Server

  /** One service's part of the payload: the instance gauge, then all its counter gauges. */
  function LegacyServiceBlock(serviceID: string, instances: map<string, Sample>, epoch: int): string {
    var svc := CleanValue(serviceID);
    InstanceGauge(svc, |instances|, epoch) + AllCounterGauges(svc, ServiceCounters(instances), epoch)
  }

  /** The block of one service at the clock `unix`, used unscaled as the timestamp. */
  function LegacyRenderer(unix: int): (string, map<string, Sample>) -> string {
    (id, instances) => LegacyServiceBlock(id, instances, unix)
  }

  /** The exporter's whole answer: the service-list error, the first instance-list error, or
      the concatenated blocks. */
  function LegacyPayload(api: Server.ReadApi, unix: int): Result<string> {
    match api.serviceList
    case Err(e) => Err(e)
    case Ok(services) => Blocks(api, services, LegacyRenderer(unix))
  }

  // ---------------------------------------------------------------------------------------
  // The renderer

  /** One service's block: the instance gauge, then the counters. */
  method WriteLegacyServiceBlock(serviceID: string, instances: map<string, Sample>, epoch: int) returns (block: string)
    ensures block == LegacyServiceBlock(serviceID, instances, epoch)
  {
    var cleanServiceID := CleanValue(serviceID);
    block := InstanceGauge(cleanServiceID, |instances|, epoch);
    var counters := CollectCounters(instances);
    var counterText := WriteCounterGauges(cleanServiceID, counters, epoch);
    block := block + counterText;
  }

  /** GeneratePrometheusPayload: the service list, then each service's block in turn; any
      error returns no text at all. */
  method GeneratePrometheusPayload(api: Server.ReadApi, unix: int) returns (r: Result<string>)
    ensures r == LegacyPayload(api, unix)
  {
    var epoch := unix;
    var buffer := "";
    if api.serviceList.Err? {
      return Err(api.serviceList.error);
    }
    var services := api.serviceList.value;
    ghost var render := LegacyRenderer(unix);
    assert services[..|services|] == services;
    for i := 0 to |services|
      invariant Blocks(api, services[..i], render) == Ok(buffer)
    {
      var instances := api.instanceList(services[i]);
      if instances.Err? {
        BlocksSnoc(api, services, i, render, buffer);
        BlocksStopAtError(api, services, i + 1, render);
        return Err(instances.error);
      }
      var block := WriteLegacyServiceBlock(services[i], instances.value, epoch);
      LegacyRendererApplies(unix, services[i], instances.value);
      BlocksSnoc(api, services, i, render, buffer);
      buffer := buffer + block;
    }
    return Ok(buffer);
  }

  // ---------------------------------------------------------------------------------------
  // Properties

  lemma LegacyRendererApplies(unix: int, serviceID: string, instances: map<string, Sample>)
    ensures LegacyRenderer(unix)(serviceID, instances) == LegacyServiceBlock(serviceID, instances, unix)
  {
  }

  /** The first exporter fails exactly when the current one does, with the same error: the
      service-list error, or the error of the first service whose instance list fails. */
  lemma SameFailures(api: Server.ReadApi, unix: int, unix2: int)
    ensures LegacyPayload(api, unix).Err? <==> Payload(api, unix2).Err?
    ensures LegacyPayload(api, unix).Err? <==> api.serviceList.Err? || AnyFails(api, api.serviceList.value)
    ensures LegacyPayload(api, unix).Err? ==> LegacyPayload(api, unix).error == Payload(api, unix2).error
  {
    PayloadFailIff(api, unix2);
    if api.serviceList.Ok? {
      var services := api.serviceList.value;
      BlocksFailIff(api, services, LegacyRenderer(unix));
      BlocksFailIff(api, services, Renderer(unix2));
      if AnyFails(api, services) {
        FirstFailureUnique(api, services, LegacyRenderer(unix), Renderer(unix2));
      }
    }
  }

  /** Two renderings of the same services fail with the same error: the first failure decides. */
  lemma FirstFailureUnique(api: Server.ReadApi, services: seq<string>,
                           render: (string, map<string, Sample>) -> string, render2: (string, map<string, Sample>) -> string)
    requires Blocks(api, services, render).Err? && Blocks(api, services, render2).Err?
    ensures Blocks(api, services, render).error == Blocks(api, services, render2).error
  {
    BlocksFailIff(api, services, render);
    BlocksFailIff(api, services, render2);
    var i :| 0 <= i < |services| && api.instanceList(services[i]).Err?
      && Blocks(api, services, render).error == api.instanceList(services[i]).error
      && !AnyFails(api, services[..i]);
    var j :| 0 <= j < |services| && api.instanceList(services[j]).Err?
      && Blocks(api, services, render2).error == api.instanceList(services[j]).error
      && !AnyFails(api, services[..j]);
  }

  /** The current exporter's block is the first exporter's block, with the timestamp given,
      followed by the histogram blocks. */
  lemma ServiceBlockExtendsLegacy(serviceID: string, instances: map<string, Sample>, epoch: int)
    ensures ServiceBlock(serviceID, instances, epoch)
         == LegacyServiceBlock(serviceID, instances, epoch) + AllHistogramTexts(CleanValue(serviceID), ServiceHistograms(instances), epoch)
  {
  }

  /** A service's block has two lines for its instance count and two per counter. */
  lemma LegacyServiceBlockLines(serviceID: string, instances: map<string, Sample>, epoch: int)
    ensures LineEnds(LegacyServiceBlock(serviceID, instances, epoch)) == 2 + 2 * |ServiceCounters(instances)|
  {
    var svc := CleanValue(serviceID);
    var counters := ServiceCounters(instances);
    NoEndsInCleanValue(serviceID);
    InstanceGaugeLines(svc, |instances|, epoch);
    SortedKeysMembers(counters.Keys);
    CounterGaugesLines(svc, counters, SortedKeys(counters.Keys), epoch);
    LineEndsConcat(InstanceGauge(svc, |instances|, epoch), AllCounterGauges(svc, counters, epoch));
  }

  /** Histograms are not exported: an instance reporting only a histogram yields the instance
      gauge alone. */
  lemma HistogramsIgnored(serviceID: string, iid: string, key: string, v: Raw, epoch: int)
    requires HasPrefix(key, MetricPrefixHistogram) && v.List? && NewHistogramPoint(key, v.items).Some?
    ensures LegacyServiceBlock(serviceID, map[iid := map[key := v]], epoch) == InstanceGauge(CleanValue(serviceID), 1, epoch)
  {
    SingleInstanceSamples(iid, map[key := v]);
    SingleHistogramSample(key, v);
    assert ServiceCounters(map[iid := map[key := v]]) == map[];
    assert SortedKeys({}) == [];
    assert AllCounterGauges(CleanValue(serviceID), map[], epoch) == "";
  }

  /** One service listed: the payload is that service's block. */
  lemma SingleServiceLegacyPayload(api: Server.ReadApi, unix: int, serviceID: string, instances: map<string, Sample>)
    requires api.serviceList == Ok([serviceID]) && api.instanceList(serviceID) == Ok(instances)
    ensures LegacyPayload(api, unix) == Ok(LegacyServiceBlock(serviceID, instances, unix))
  {
    assert [serviceID][..0] == [];
    LegacyRendererApplies(unix, serviceID, instances);
    var block := LegacyServiceBlock(serviceID, instances, unix);
    assert Blocks(api, [serviceID], LegacyRenderer(unix)) == Ok("" + block);
    assert "" + block == block;
  }

  /** A service with one instance reporting one counter: the instance gauge, then that
      counter's gauge with its last reading. */
  lemma SingleCounterLegacyService(serviceID: string, iid: string, key: string, v: Raw, epoch: int)
    requires HasPrefix(key, MetricPrefixCounter) && LastReading(v).Some?
    ensures LegacyServiceBlock(serviceID, map[iid := map[key := v]], epoch)
         == InstanceGauge(CleanValue(serviceID), 1, epoch) + CounterGauge(CleanValue(serviceID), key, LastReading(v).value, epoch)
  {
    SingleCounterService(serviceID, iid, key, v, epoch);
    ServiceBlockExtendsLegacy(serviceID, map[iid := map[key := v]], epoch);
    SingleInstanceSamples(iid, map[key := v]);
    SingleCounterSample(key, v);
    assert ServiceHistograms(map[iid := map[key := v]]) == map[];
    assert SortedKeys({}) == [];
    var svc := CleanValue(serviceID);
    var legacy := LegacyServiceBlock(serviceID, map[iid := map[key := v]], epoch);
    assert AllHistogramTexts(svc, map[], epoch) == "";
    assert legacy + "" == legacy;
  }
}

/** The first exporter's output on the inputs of its tests (plugins/prometheus_test.go): one
    service with one instance "i1" reporting the counter readings 1 then 2, at the clock 100. */
module LegacyPrometheusExamples {
  import opened Wrappers
  import opened Text
  import opened Strconv
  import opened Records
  import opened Prometheus
  import opened PrometheusExamples
  import opened LegacyPrometheus
  import Server

  /** The expected payload, line by line. */
  const LegacyCounterTestText: string :=
    "# TYPE cc_service1_instances gauge\n" + "cc_service1_instances 1 100\n"
    + "# TYPE cc_service1_c_one gauge\n" + "cc_service1_c_one 2 100\n"

  lemma LegacyEpochDigits()
    ensures Itoa(100) == "100"
  {
  }

  lemma LegacyInstanceSampleLine()
    ensures SampleLine("service1", "instances", 1, 100) == "cc_service1_instances 1 100\n"
  {
    LegacyEpochDigits();
    SmallDigits();
    SampleLineFrom("service1", "instances", 1, 100, "1", "100");
  }

  lemma LegacyCounterSampleLine()
    ensures SampleLine("service1", "c_one", 2, 100) == "cc_service1_c_one 2 100\n"
  {
    LegacyEpochDigits();
    SmallDigits();
    SampleLineFrom("service1", "c_one", 2, 100, "2", "100");
  }

  /** A service whose name cleans to "service1" with one instance reporting the counter under a
      key that cleans to "c_one". */
  lemma LegacyCounterTestPayload(api: Server.ReadApi, serviceID: string, key: string)
    requires CleanValue(serviceID) == "service1" && CleanValue(key) == "c_one" && HasPrefix(key, MetricPrefixCounter)
    requires api.serviceList == Ok([serviceID]) && api.instanceList(serviceID) == Ok(map["i1" := map[key := CounterReadings]])
    ensures LegacyPayload(api, 100) == Ok(LegacyCounterTestText)
  {
    SingleServiceLegacyPayload(api, 100, serviceID, map["i1" := map[key := CounterReadings]]);
    SingleCounterLegacyService(serviceID, "i1", key, CounterReadings, 100);
    assert LastReading(CounterReadings).value == 2;
    InstanceTypeLine();
    LegacyInstanceSampleLine();
    CounterTypeLine();
    LegacyCounterSampleLine();
    Regroup(TypeLine("service1", "instances"), SampleLine("service1", "instances", 1, 100),
            TypeLine("service1", "c_one"), SampleLine("service1", "c_one", 2, 100));
  }

  /** TestResultFormatting of the first exporter: the timestamp is the clock in seconds. */
  lemma LegacyResultFormatting(api: Server.ReadApi)
    requires api.serviceList == Ok(["service1"]) && api.instanceList("service1") == Ok(map["i1" := map["c_one" := CounterReadings]])
    ensures LegacyPayload(api, 100) == Ok(LegacyCounterTestText)
  {
    CleanTestServiceName();
    CleanTestCounterName();
    assert HasPrefix("c_one", MetricPrefixCounter);
    LegacyCounterTestPayload(api, "service1", "c_one");
  }

  /** TestResultFormattingCleansServiceName of the first exporter. */
  lemma LegacyResultFormattingCleansServiceName(api: Server.ReadApi, serviceID: string)
    requires serviceID == "service-1%#"
    requires api.serviceList == Ok([serviceID]) && api.instanceList(serviceID) == Ok(map["i1" := map["c_one" := CounterReadings]])
    ensures LegacyPayload(api, 100) == Ok(LegacyCounterTestText)
  {
    CleanValueServiceExample(serviceID);
    CleanTestCounterName();
    assert HasPrefix("c_one", MetricPrefixCounter);
    LegacyCounterTestPayload(api, serviceID, "c_one");
  }

  /** TestResultFormattingCleansKeys of the first exporter. */
  lemma LegacyResultFormattingCleansKeys(api: Server.ReadApi, key: string)
    requires key == "c_--one#"
    requires api.serviceList == Ok(["service1"]) && api.instanceList("service1") == Ok(map["i1" := map[key := CounterReadings]])
    ensures LegacyPayload(api, 100) == Ok(LegacyCounterTestText)
  {
    CleanTestServiceName();
    CleanValueKeyExample(key);
    assert key[..2] == MetricPrefixCounter;
    LegacyCounterTestPayload(api, "service1", key);
  }
}
