/** The exporter's output on the inputs of its tests (plugins/prometheus/prometheus_test.go):
    one service with one instance "i1" reporting one metric, at the clock 100. Each expected line
    is established on its own, then the lines are put together. */
module PrometheusExamples {
  import opened Wrappers
  import opened Text
  import opened Strconv
  import opened Records
  import opened Prometheus
  import Server

  /** The counter the tests report: readings 1 then 2. */
  const CounterReadings: Raw := List([Num(1), Num(2)])

  /** The histogram the tests report: 75, 95, 99 and a median of 50. */
  const HistogramReadings: Raw := List([Num(75), Num(95), Num(99), Num(50)])

  lemma CleanTestServiceName()
    ensures CleanValue("service1") == "service1"
  {
    CleanValueFixesCleanNames("service1");
  }

  lemma CleanTestCounterName()
    ensures CleanValue("c_one") == "c_one"
  {
    CleanValueFixesCleanNames("c_one");
  }

  lemma CleanTestHistogramName()
    ensures CleanValue("h_api_calls") == "h_api_calls"
  {
    CleanValueFixesCleanNames("h_api_calls");
  }

  lemma InstanceTypeLine()
    ensures TypeLine("service1", "instances") == "# TYPE cc_service1_instances gauge\n"
  {
  }

  lemma TestEpochDigits()
    ensures Itoa(100000) == "100000"
  {
  }

  lemma SmallDigits()
    ensures Itoa(1) == "1" && Itoa(2) == "2"
  {
  }

  /** A sample line from the digits of its value and timestamp. */
  lemma SampleLineFrom(svc: string, name: string, value: int, epoch: int, valueText: string, epochText: string)
    requires Itoa(value) == valueText && Itoa(epoch) == epochText
    ensures SampleLine(svc, name, value, epoch) == "cc_" + svc + "_" + name + " " + valueText + " " + epochText + "\n"
  {
  }

  lemma InstanceSampleLine()
    ensures SampleLine("service1", "instances", 1, 100000) == "cc_service1_instances 1 100000\n"
  {
    TestEpochDigits();
    SmallDigits();
    SampleLineFrom("service1", "instances", 1, 100000, "1", "100000");
  }

  lemma CounterTypeLine()
    ensures TypeLine("service1", "c_one") == "# TYPE cc_service1_c_one gauge\n"
  {
  }

  lemma CounterSampleLine()
    ensures SampleLine("service1", "c_one", 2, 100000) == "cc_service1_c_one 2 100000\n"
  {
    TestEpochDigits();
    SmallDigits();
    SampleLineFrom("service1", "c_one", 2, 100000, "2", "100000");
  }

  lemma PercentileDigits(value: int, valueText: string)
    requires (value, valueText) == (75, "75") || (value, valueText) == (95, "95")
          || (value, valueText) == (99, "99") || (value, valueText) == (50, "50")
    ensures Itoa(value) == valueText
  {
  }

  /** A percentile line from the digits of its value and timestamp. */
  lemma PercentileLineFrom(svc: string, name: string, tag: string, value: int, epoch: int, valueText: string, epochText: string)
    requires Itoa(value) == valueText && Itoa(epoch) == epochText
    ensures PercentileLine(svc, name, tag, value, epoch)
         == ("cc_" + svc + "_" + name) + ("{percentile=\"" + tag + "\"} " + valueText + " " + epochText + "\n")
  {
  }

  lemma HistogramMetricName()
    ensures "cc_" + "service1" + "_" + "h_api_calls" == "cc_service1_h_api_calls"
  {
  }

  lemma HistogramTypeLine()
    ensures TypeLine("service1", "h_api_calls") == "# TYPE cc_service1_h_api_calls gauge\n"
  {
  }

  lemma PercentileTail75()
    ensures "{percentile=\"" + "75" + "\"} " + "75" + " " + "100000" + "\n" == "{percentile=\"75\"} 75 100000\n"
  {
  }

  lemma PercentileJoin75()
    ensures "cc_service1_h_api_calls" + "{percentile=\"75\"} 75 100000\n" == "cc_service1_h_api_calls{percentile=\"75\"} 75 100000\n"
  {
  }

  lemma Percentile75Line()
    ensures PercentileLine("service1", "h_api_calls", "75", 75, 100000) == "cc_service1_h_api_calls{percentile=\"75\"} 75 100000\n"
  {
    TestEpochDigits();
    PercentileDigits(75, "75");
    PercentileLineFrom("service1", "h_api_calls", "75", 75, 100000, "75", "100000");
    HistogramMetricName();
    PercentileTail75();
    PercentileJoin75();
  }

  lemma PercentileTail95()
    ensures "{percentile=\"" + "95" + "\"} " + "95" + " " + "100000" + "\n" == "{percentile=\"95\"} 95 100000\n"
  {
  }

  lemma PercentileJoin95()
    ensures "cc_service1_h_api_calls" + "{percentile=\"95\"} 95 100000\n" == "cc_service1_h_api_calls{percentile=\"95\"} 95 100000\n"
  {
  }

  lemma Percentile95Line()
    ensures PercentileLine("service1", "h_api_calls", "95", 95, 100000) == "cc_service1_h_api_calls{percentile=\"95\"} 95 100000\n"
  {
    TestEpochDigits();
    PercentileDigits(95, "95");
    PercentileLineFrom("service1", "h_api_calls", "95", 95, 100000, "95", "100000");
    HistogramMetricName();
    PercentileTail95();
    PercentileJoin95();
  }

  lemma PercentileTail99()
    ensures "{percentile=\"" + "99" + "\"} " + "99" + " " + "100000" + "\n" == "{percentile=\"99\"} 99 100000\n"
  {
  }

  lemma PercentileJoin99()
    ensures "cc_service1_h_api_calls" + "{percentile=\"99\"} 99 100000\n" == "cc_service1_h_api_calls{percentile=\"99\"} 99 100000\n"
  {
  }

  lemma Percentile99Line()
    ensures PercentileLine("service1", "h_api_calls", "99", 99, 100000) == "cc_service1_h_api_calls{percentile=\"99\"} 99 100000\n"
  {
    TestEpochDigits();
    PercentileDigits(99, "99");
    PercentileLineFrom("service1", "h_api_calls", "99", 99, 100000, "99", "100000");
    HistogramMetricName();
    PercentileTail99();
    PercentileJoin99();
  }

  lemma PercentileTailMedian()
    ensures "{percentile=\"" + "median" + "\"} " + "50" + " " + "100000" + "\n" == "{percentile=\"median\"} 50 100000\n"
  {
  }

  lemma PercentileJoinMedian()
    ensures "cc_service1_h_api_calls" + "{percentile=\"median\"} 50 100000\n" == "cc_service1_h_api_calls{percentile=\"median\"} 50 100000\n"
  {
  }

  lemma MedianLine()
    ensures PercentileLine("service1", "h_api_calls", "median", 50, 100000) == "cc_service1_h_api_calls{percentile=\"median\"} 50 100000\n"
  {
    TestEpochDigits();
    PercentileDigits(50, "50");
    PercentileLineFrom("service1", "h_api_calls", "median", 50, 100000, "50", "100000");
    HistogramMetricName();
    PercentileTailMedian();
    PercentileJoinMedian();
  }

  /** What TestResultFormatting and the two cleaning tests expect. */
  const CounterTestText: string :=
    "# TYPE cc_service1_instances gauge\n" + "cc_service1_instances 1 100000\n"
    + "# TYPE cc_service1_c_one gauge\n" + "cc_service1_c_one 2 100000\n"

  /** What TestHistogramFormatting expects. */
  const HistogramTestText: string :=
    "# TYPE cc_service1_instances gauge\n" + "cc_service1_instances 1 100000\n"
    + "# TYPE cc_service1_h_api_calls gauge\n"
    + "cc_service1_h_api_calls{percentile=\"75\"} 75 100000\n"
    + "cc_service1_h_api_calls{percentile=\"95\"} 95 100000\n"
    + "cc_service1_h_api_calls{percentile=\"99\"} 99 100000\n"
    + "cc_service1_h_api_calls{percentile=\"median\"} 50 100000\n"

  lemma Regroup(a: string, b: string, c: string, d: string)
    ensures (a + b) + (c + d) == a + b + c + d
  {
  }

  lemma RegroupHistogram(a: string, b: string, c: string, d: string, e: string, f: string, g: string)
    ensures (a + b) + (c + d + e + f + g) == a + b + c + d + e + f + g
  {
  }

  /** A service whose name cleans to "service1" with one instance reporting the counter [1, 2]
      under a key that cleans to "c_one". */
  lemma CounterTestPayload(api: Server.ReadApi, serviceID: string, key: string)
    requires CleanValue(serviceID) == "service1" && CleanValue(key) == "c_one" && HasPrefix(key, MetricPrefixCounter)
    requires api.serviceList == Ok([serviceID]) && api.instanceList(serviceID) == Ok(map["i1" := map[key := CounterReadings]])
    ensures Payload(api, 100) == Ok(CounterTestText)
  {
    SingleServicePayload(api, 100, serviceID, map["i1" := map[key := CounterReadings]]);
    EpochOfTestClock();
    SingleCounterService(serviceID, "i1", key, CounterReadings, 100000);
    assert LastReading(CounterReadings).value == 2;
    InstanceTypeLine();
    InstanceSampleLine();
    CounterTypeLine();
    CounterSampleLine();
    Regroup(TypeLine("service1", "instances"), SampleLine("service1", "instances", 1, 100000),
            TypeLine("service1", "c_one"), SampleLine("service1", "c_one", 2, 100000));
  }

  /** The instance gauge and the five lines of the point (75, 95, 99, 50) of "h_api_calls". */
  lemma HistogramTestBlock()
    ensures InstanceGauge("service1", 1, 100000) + MetricText(Point("h_api_calls", 75, 95, 99, 50), "service1", 100000) == HistogramTestText
  {
    CleanTestHistogramName();
    InstanceTypeLine();
    InstanceSampleLine();
    HistogramTypeLine();
    Percentile75Line();
    Percentile95Line();
    Percentile99Line();
    MedianLine();
    RegroupHistogram(TypeLine("service1", "instances"), SampleLine("service1", "instances", 1, 100000),
                     TypeLine("service1", "h_api_calls"),
                     PercentileLine("service1", "h_api_calls", "75", 75, 100000),
                     PercentileLine("service1", "h_api_calls", "95", 95, 100000),
                     PercentileLine("service1", "h_api_calls", "99", 99, 100000),
                     PercentileLine("service1", "h_api_calls", "median", 50, 100000));
  }

  /** A service whose name cleans to "service1" with one instance reporting the histogram
      (75, 95, 99, 50) under "h_api_calls". */
  lemma HistogramTestPayload(api: Server.ReadApi, serviceID: string, key: string)
    requires CleanValue(serviceID) == "service1" && key == "h_api_calls"
    requires api.serviceList == Ok([serviceID]) && api.instanceList(serviceID) == Ok(map["i1" := map[key := HistogramReadings]])
    ensures Payload(api, 100) == Ok(HistogramTestText)
  {
    SingleServicePayload(api, 100, serviceID, map["i1" := map[key := HistogramReadings]]);
    EpochOfTestClock();
    HistogramTestService(serviceID, key);
  }

  lemma HistogramTestService(serviceID: string, key: string)
    requires CleanValue(serviceID) == "service1" && key == "h_api_calls"
    ensures ServiceBlock(serviceID, map["i1" := map[key := HistogramReadings]], 100000) == HistogramTestText
  {
    assert key[..2] == MetricPrefixHistogram;
    assert NewHistogramPoint(key, HistogramReadings.items) == Some(Point(key, 75, 95, 99, 50));
    SingleHistogramService(serviceID, "i1", key, HistogramReadings, 100000);
    HistogramTestBlock();
  }

  /** TestResultFormatting. */
  lemma ResultFormatting(api: Server.ReadApi)
    requires api.serviceList == Ok(["service1"]) && api.instanceList("service1") == Ok(map["i1" := map["c_one" := CounterReadings]])
    ensures Payload(api, 100) == Ok(CounterTestText)
  {
    CleanTestServiceName();
    CleanTestCounterName();
    assert HasPrefix("c_one", MetricPrefixCounter);
    CounterTestPayload(api, "service1", "c_one");
  }

  /** TestResultFormattingCleansServiceName: "service-1%#" is printed as service1. */
  lemma ResultFormattingCleansServiceName(api: Server.ReadApi, serviceID: string)
    requires serviceID == "service-1%#"
    requires api.serviceList == Ok([serviceID]) && api.instanceList(serviceID) == Ok(map["i1" := map["c_one" := CounterReadings]])
    ensures Payload(api, 100) == Ok(CounterTestText)
  {
    CleanValueServiceExample(serviceID);
    CleanTestCounterName();
    assert HasPrefix("c_one", MetricPrefixCounter);
    CounterTestPayload(api, serviceID, "c_one");
  }

  /** TestResultFormattingCleansKeys: "c_--one#" is printed as c_one. */
  lemma ResultFormattingCleansKeys(api: Server.ReadApi, key: string)
    requires key == "c_--one#"
    requires api.serviceList == Ok(["service1"]) && api.instanceList("service1") == Ok(map["i1" := map[key := CounterReadings]])
    ensures Payload(api, 100) == Ok(CounterTestText)
  {
    CleanTestServiceName();
    CleanValueKeyExample(key);
    assert key[..2] == MetricPrefixCounter;
    CounterTestPayload(api, "service1", key);
  }

  /** TestHistogramFormatting: one instance's histogram is printed as reported, in five lines. */
  lemma HistogramFormatting(api: Server.ReadApi)
    requires api.serviceList == Ok(["service1"]) && api.instanceList("service1") == Ok(map["i1" := map["h_api_calls" := HistogramReadings]])
    ensures Payload(api, 100) == Ok(HistogramTestText)
  {
    CleanTestServiceName();
    HistogramTestPayload(api, "service1", "h_api_calls");
  }
}
