# ccentral in Dafny

ccentral distributes configuration to services through an etcd store. Each service
registers a schema of options. Operators change values through an HTTP daemon, and every
write bumps the configuration version `"v"`. Services read their options through a client
cache that refreshes itself at most once per check interval. Running instances report
metrics into the store. Exporter plugins aggregate those metrics per service and publish
them: as Prometheus text, in a current and a first version, and as Zabbix sender packets.

This project models that logic and proves properties of it. The modules are:

- `Records` (plugins/records.go):
  - metric-name cleaning;
  - histogram points, including the in-place `Add` of the `HistogramPoint` class;
  - the counter and histogram folds over one instance's sample;
  - the same folds over all instances of a service.
- `Prometheus` and `PrometheusExamples` (plugins/prometheus/prometheus.go and its tests):
  - the exposition text, specified by functions;
  - the buffer-appending renderer, proved equal to those functions;
  - error propagation, line counts, and the exact outputs the tests expect.
- `LegacyPrometheus` and `LegacyPrometheusExamples` (plugins/prometheus.go and its tests):
  - the first exporter: counters only, stamped with seconds.
- `Zabbix` (plugins/zabbix/zabbix.go):
  - records and packets;
  - the 13-byte frame header and the buffer `send` writes, with a frame reader as their inverse;
  - one cycle of the poll loop.
- `Server` (client/server.go):
  - the version bump and `SetConfigItem`;
  - the configuration and schema reads;
  - the listings that turn store nodes into ids and maps.
- `Central` (ccentral.go) and `Daemon` (ccentrald.go):
  - the command-line build's store functions and the daemon's handlers;
  - both share the version bump and the listing loops of `Server`.
- `Client` (client/ccentral.go):
  - the `CCentralService` cache class, with the time and the store's answers as parameters.
- `LegacyClient` (client.go):
  - client.go's `CCentralService` has the same fields and makes the same decisions as
    client/ccentral.go's;
  - it differs only in calling the package-level `SetSchema` and `GetConfig` of ccentral.go;
  - so it is modelled by the same class, driven by `LegacyClient.GlobalStore`.
- `Text`, `Strconv` and `KeyOrder`:
  - the `strings` and `strconv` functions the code relies on;
  - the iteration order the model fixes for Go maps.

Go's unspecified map iteration order is fixed to ascending key order. This is one legal Go
execution. Counter sums do not depend on it; histogram averages and output order do.

Three behaviours of the code are worth stating outright, because a reader of the exporters
might expect otherwise:

- A counter entry needs only its last element to be a number; the rest of the list is not
  inspected (plugins/records.go:93-101).
- A histogram is rendered as five lines: a TYPE line, then the four percentiles
  (plugins/prometheus/prometheus.go:24-28).
- The Zabbix cycle reports the instance count and the counters only; histograms are not
  sent (plugins/zabbix/zabbix.go:157-166).
- A counter list whose last element is JSON null makes the counter loop panic instead of
  skipping the entry (plugins/records.go:96-99). The model records that behaviour and then uses
  the intended skip; see "## Findings".

## Model

| member | source | states |
|---|---|---|
| Text.ContainsIff | client/server.go:145 | the substring test the not-found rules use holds exactly when the phrase occurs at some position of the error text |
| Text.LastSegment | client/server.go:133-134 | the id taken from a node key is never longer than the key |
| Text.LastSegmentSpec | client/server.go:133-134 | the id is the suffix of the key after its final '/': it contains no '/', and it is the whole key or is preceded by a '/' |
| Strconv.Wrap64 | client/server.go:172 | Go's `int` arithmetic: the result lies in the 64-bit range, equals the input inside that range, and differs from it by a multiple of 2^64 |
| Strconv.Itoa | client/server.go:172 | the decimal text is non-empty and is all digits exactly when the number is not negative |
| Strconv.Atoi | client/ccentral.go:105-108 | a text is accepted exactly when it is an optional '+' or '-' followed by at least one digit and denotes a value in the 64-bit range, and then the result is that value (the digits' value, negated after '-'); when the digits after the sign overflow `uint64` before the first non-digit the error is a range error, as Go's digit-by-digit parser reports it; a well-formed text out of range is a range error; every other text is a syntax error |
| Strconv.AtoiExamples | client/ccentral.go:105-108 | texts that are not canonical still parse: "+5" is 5, "007" is 7, "-0" is 0 |
| Strconv.AtoiSyntaxErrors | client/ccentral.go:105-108 | "", "+" and "1a" are syntax errors |
| Strconv.OverflowBeforeStrayText | client/ccentral.go:105-108 | digits worth more than the largest `uint64` give a range error whatever text follows them |
| Strconv.AtoiOverflowExample | client/ccentral.go:105-108 | "99999999999999999999x" is a range error, not a syntax error |
| Strconv.AtoiItoa | client/server.go:168-172 | Atoi reads back every 64-bit value Itoa writes |
| Strconv.ParseBool | client/ccentral.go:92 | true exactly for "1", "t", "T", "TRUE", "true", "True"; false exactly for "0", "f", "F", "FALSE", "false", "False"; an error otherwise |
| KeyOrder.SortedKeysSpec | plugins/records.go:62 | the fixed map iteration order visits every key exactly once, in strictly ascending order |
| KeyOrder.EntriesComplete | plugins/records.go:86 | a loop over a map's entries sees every entry once, with the value stored under its key |
| Records.ToLower | plugins/records.go:25 | lower-casing keeps the length and maps each character on its own (ASCII) |
| Records.CleanValue | plugins/records.go:24-26 | every character of a cleaned name is in [a-z0-9_:], and the name is no longer than the input |
| Records.CleanValueIsFilter | plugins/records.go:25 | cleaning distributes over concatenation, and a single character is kept (lower-cased) exactly when it is in [a-zA-Z0-9_:] |
| Records.CleanValueFixesCleanNames | plugins/records.go:10 | a name made only of [a-z0-9_:] is left unchanged |
| Records.CleanValueIdempotent | plugins/records.go:24-26 | cleaning twice is the same as cleaning once |
| Records.CleanValueDrops | plugins/prometheus.go:22 | a name with no character of [a-zA-Z0-9_:] cleans to the empty name |
| Records.CleanValueServiceExample | plugins/prometheus/prometheus_test.go:74-80 | "service-1%#" cleans to "service1" |
| Records.CleanValueKeyExample | plugins/prometheus/prometheus_test.go:82-88 | "c_--one#" cleans to "c_one" |
| Records.NewHistogramPoint | plugins/records.go:37-50 | a point exists exactly when the list has four elements that are all numbers; its fields are those numbers in the order p75, p95, p99, median |
| Records.Half | plugins/records.go:54-57 | Go's `/ 2`: the quotient is truncated toward zero, so the remainder is 0 or 1 for non-negative input and 0 or -1 for negative input |
| Records.MergeProperties | plugins/records.go:53-58 | the receiving point's key is kept and the order of the two values does not matter; when no percentile sum leaves the 64-bit range, an averaged percentile lies between the two averaged ones and a point averaged with itself is unchanged |
| Records.MergeExamples | plugins/records.go:54-57 | (75,95,99,50) averaged with (95,55,59,50) gives (85,75,79,50); -3 averaged with 0 gives -1, as truncation requires; 2^62 averaged with 2^62 gives -2^62, because the sum wraps to -2^63 before it is halved |
| Records.HistogramPoint.constructor | plugins/records.go:48 | a new point holds the given key and percentiles |
| Records.HistogramPoint.Add | plugins/records.go:53-58 | Add replaces each percentile in place by the truncated half of the 64-bit sum of its old value and the other point's |
| Records.LastReading | plugins/records.go:88-101 | a counter value has a reading exactly when it is a non-empty list whose last element is a number; a last element that is null or any other non-number gives none |
| Records.CollectCounterEntry | plugins/records.go:87-106 | one loop pass: a "c_" entry with a reading adds it to the key's total, starting from 0; any other entry, a list ending in null included, leaves the map unchanged (the intended skip; see "## Findings") |
| Records.CollectInstanceCounters | plugins/records.go:85-110 | the returned map is the fold of every entry of the sample, in iteration order, into the counters |
| Records.CountersAfterAt | plugins/records.go:85-110 | after one instance a key is present exactly when it was before or the instance has a well-formed "c_" entry for it; its total grows by that entry's last reading; malformed and unprefixed entries change nothing, a list ending in null included |
| Records.CounterStepAsWritten | plugins/records.go:86-106 | one loop pass as written fails (panics) exactly when a "c_" entry is a non-empty list ending in null; on every other entry it gives what Records.CollectCounterEntry gives |
| Records.CountersAfterAsWrittenPanics | plugins/records.go:85-110 | the loop as written panics on a sample exactly when some "c_" list of it ends in null; on every other sample it returns what Records.CollectInstanceCounters returns |
| Records.NullCounterExample | plugins/records.go:96-99 | on the sample {"c_x": [1, null]} the loop as written panics, while the model leaves the counters empty |
| Records.AddAt | plugins/records.go:70-71 | adding into the point stored under one key changes that point only, because the accumulator's points are distinct objects |
| Records.CollectHistogramEntry | plugins/records.go:63-78 | one loop pass: a well-formed "h_" sample is stored as a new point when the key is new and added into the stored point otherwise; a malformed sample changes nothing; the points stay distinct |
| Records.CollectHistograms | plugins/records.go:61-82 | the values the accumulator's points hold afterwards are the fold of every entry of the sample, in iteration order, into their values before |
| Records.HistogramsAfterAt | plugins/records.go:61-82 | after one instance a key's first well-formed sample is stored as it is and a later one is averaged in; a malformed sample or an unprefixed key leaves the entry, or its absence, untouched |
| Records.PrefixesSeparate | plugins/records.go:63 | an entry without the "c_" prefix never changes a counter, and one without the "h_" prefix never changes a histogram |
| Records.UnprefixedSampleIgnored | plugins/records.go:87 | a sample without prefixed keys leaves both accumulators exactly as they were |
| Records.CountersOverAt | plugins/prometheus/prometheus.go:58-62 | over several instances a counter is the sum of their last readings, and it is present exactly when some instance reported a well-formed reading |
| Records.CountersOverPrefixed | plugins/records.go:87-88 | only keys with the "c_" prefix are ever folded into the counters |
| Records.CollectCounters | plugins/zabbix/zabbix.go:157-160 | the counters of a service are every instance's sample folded in, in instance order, from an empty map |
| Records.HistogramsOverAt | plugins/prometheus/prometheus.go:58-62 | over several instances a histogram is the chain of averages of its well-formed samples, in instance order, the first taken as it is |
| Records.SingleInstanceHistograms | plugins/prometheus/prometheus_test.go:90-102 | with one instance a histogram holds exactly the point that instance reported: nothing is averaged |
| Records.HistogramsOverKeyed | plugins/records.go:69-74 | every accumulated point carries the key it is stored under |
| Server.IncrementVersion | client/server.go:166-176 | "v" becomes the next version stamped with the time, the next version is returned, and every other key keeps its item |
| Server.NextVersionCounts | ccentrald.go:199-203 | a version that reads as n (below the largest `int`) is followed by n+1, which reads back as n+1 |
| Server.NextVersionDefault | ccentral.go:100-107 | a missing or unparseable version is followed by "2" |
| Server.BumpAfterBump | client/server.go:166-176 | a bumped version always parses back, and bumping again counts on by one |
| Server.NextVersionWraps | client/server.go:172 | at the largest `int` the version wraps to the smallest, as Go's `int` does |
| Server.GetConfig | client/server.go:247-259 | "100: Key not found" gives an empty configuration; any other read error is wrapped; a stored value gives what was decoded, and a decoding failure is an error |
| Server.GetSchema | client/server.go:204-212 | a read error is returned as it is; a stored value gives what was decoded, and a decoding failure is an error |
| Server.SetConfigItem | client/server.go:179-201 | a read failure writes nothing and returns the wrapped error; otherwise the configuration with the new item and the bumped version is written, and the bumped version is returned unless the write fails |
| Server.StoredContents | client/server.go:184-189 | the written configuration holds the new item under its key (unless the key is "v", which the bump then counts on from), "v" stamped with the time, and every other key as read |
| Server.LastSegments | client/server.go:131-136 | the service ids are the last segments of the node keys, one per node, in node order |
| Server.IndexedKeys | client/server.go:152-162 | a listing's map has a key exactly when some node's key ends in that segment |
| Server.IndexedValue | client/server.go:161 | each key holds the decoding of the last node whose key ends in it: a later node with the same segment overwrites an earlier one |
| Server.IndexByLastSegment | client/server.go:152-162 | the listing loop builds exactly the map of last segments to decoded values |
| Server.GetServiceList | client/server.go:126-138 | the service ids are the last segments of the node keys, in node order; a read error is wrapped |
| Server.GetInstanceList | client/server.go:141-164 | an error mentioning "Key not found" gives no instances; any other error is wrapped; otherwise each node is recorded under its last segment, even when its value fails to decode |
| Server.GetServiceInfoList | client/server.go:225-244 | the not-found rule as for instances; otherwise each node's raw value is recorded under its last segment |
| Server.NotFoundAnywhere | client/server.go:145 | the not-found rule matches the phrase anywhere in the error text |
| Central.GetServiceList | ccentral.go:57-70 | the service ids are the last segments of the node keys, in node order; a read error is returned as it is |
| Central.GetInstanceList | ccentral.go:73-97 | an error mentioning "Key not found" gives no instances; any other error is returned; otherwise each node is recorded under its last segment, whether or not it decodes |
| Central.GetServiceInfoList | ccentral.go:164-184 | the not-found rule as for instances; otherwise each node's raw value is recorded under its last segment |
| Central.GetConfig | ccentral.go:187-201 | the read succeeds after an error exactly when the error mentions "100: Key not found", with an empty configuration; other errors are returned; a stored value gives whatever was decoded |
| Central.GetSchema | ccentral.go:140-148 | a read error is returned; otherwise whatever was decoded, with decoding errors ignored |
| Central.DecodeErrorsIgnored | ccentral.go:198-200 | a configuration that fails to decode is an error for the client package's store but not for this one |
| Central.SetConfigItem | ccentral.go:115-137 | a read failure writes nothing and returns its message; otherwise the configuration with the new item and the bumped version is written, and the bumped version is returned unless the write fails |
| Daemon.InstanceOrProblem | ccentrald.go:113-118 | an instance that fails to decode is recorded as version "problem" with timestamp 0 |
| Daemon.GetInstanceList | ccentrald.go:97-122 | the not-found rule of the listings, with undecodable instances recorded as problems |
| Daemon.UndecodableInstanceKept | ccentrald.go:109-120 | an instance whose value does not decode is still listed under its id, as a problem |
| Daemon.HandleServiceList | ccentrald.go:72-95 | a read error gives status 500 and its error body; otherwise the service ids are the last segments of the node keys, in node order |
| Daemon.HandleItem | ccentrald.go:151-192 | a method other than PUT gets status 400 before anything is read; then a read failure or an unreadable body gets status 500 with nothing written; otherwise the configuration with the body as the key's value and the bumped version is written, and a failed write gets status 500 |
| Daemon.HandleService | ccentrald.go:208-234 | schema, configuration and instances are read in that order, and the first failure decides the error reply ("Could not retrieve service schema", "Could not retrieve config", "Could not retrieve instances", each with status 500); a success comes exactly when the instances can be listed, and carries the decoded schema, the configuration and the instance map, empty when the store has no instances |
| Daemon.Defaults | ccentrald.go:255-260 | an empty store address becomes "http://127.0.0.1:2379" and an empty port "3000" |
| Client.Lookup | client/ccentral.go:71-84 | an option without a schema entry is an error; otherwise its configured value when that is non-empty, else the schema default |
| Client.AsBool | client/ccentral.go:87-97 | a failed lookup or parse gives false with the error; otherwise the parsed value with no error |
| Client.AsInt | client/ccentral.go:100-110 | a failed lookup or parse gives 0 with the error; otherwise the parsed value with no error |
| Client.CCentralService.constructor | client/ccentral.go:29-36 | a new cache has an empty schema and configuration and has never been checked |
| Client.CCentralService.AddSchema | client/ccentral.go:39-42 | sets the one schema entry and changes nothing else |
| Client.CCentralService.UpdateConfig | client/ccentral.go:45-50 | the cache refreshes only when the interval has passed since the last check |
| Client.CCentralService.ForceUpdateConfig | client/ccentral.go:53-68 | the schema is pushed before the first check; a failed push ends the refresh; the check time is recorded either way, and the configuration is replaced only by a successful read |
| Client.CCentralService.GetConfig | client/ccentral.go:71-84 | refreshes when due, ignoring a failed refresh, then answers the lookup on the refreshed state |
| Client.CCentralService.GetConfigBool | client/ccentral.go:87-97 | the lookup on the refreshed state read as a boolean, false with any error |
| Client.CCentralService.GetConfigInt | client/ccentral.go:100-110 | the lookup on the refreshed state read as an integer, 0 with any error |
| Client.NotDueChangesNothing | client.go:31-36 | before the interval has passed nothing changes and there is no error |
| Client.FirstPushFailure | client.go:40-46 | a failed first schema push records the check time, returns the push error and keeps the configuration |
| Client.RefreshOutcome | client/ccentral.go:53-68 | every refresh records the check time and keeps the schema; it succeeds exactly when the push (if any) and the read succeed, and then the configuration is the one read, else the old one |
| Client.SchemaPushedOnlyBeforeFirstCheck | client/ccentral.go:54-60 | once a check has been recorded the schema is not pushed again |
| Client.UpdateIdempotent | client/ccentral.go:45-50 | asking again at the same moment does nothing, whatever the store answers |
| Client.LookupAfterAddSchema | client.go:57-70 | after an option is added it can be looked up, with the new default when no value is configured, and other options are unaffected |
| Client.IntOptionRoundTrip | client.go:85-96 | an integer option written in decimal reads back as that integer |
| LegacyClient.GlobalStore | client.go:41-47 | the legacy cache's store answers the schema push with the write error and the read with ccentral.go's configuration rules |
| LegacyClient.MissingConfigRefreshesToEmpty | client.go:47-53 | a service whose configuration was never written refreshes to an empty configuration without an error |
| LegacyClient.UndecodableConfigReplaces | ccentral.go:198-200 | a stored configuration that fails to decode still replaces the cached one, without an error |
| Prometheus.ToMetricText | plugins/prometheus/prometheus.go:21-30 | the appended lines are the histogram block of the point: TYPE, then the 75, 95 and 99 percentiles and the median |
| Prometheus.CollectService | plugins/prometheus/prometheus.go:49-62 | the loop over a service's instances yields the counters and (as values of distinct new points) the histograms of all instances folded in |
| Prometheus.WriteCounterGauges | plugins/prometheus/prometheus.go:63-67 | the appended text is the gauges of all counters in iteration order |
| Prometheus.WriteHistogramTexts | plugins/prometheus/prometheus.go:68-70 | the appended text is the blocks of all histograms in iteration order |
| Prometheus.WriteServiceBlock | plugins/prometheus/prometheus.go:48-70 | a service's text is its instance gauge, then all counter gauges, then all histogram blocks |
| Prometheus.GeneratePrometheusPayload | plugins/prometheus/prometheus.go:33-73 | the renderer produces exactly the payload function: the service-list error, the first instance-list error, or every service's block in order |
| Prometheus.BlocksStopAtError | plugins/prometheus/prometheus.go:43-47 | once a service's instance list fails, nothing after it changes the outcome |
| Prometheus.BlocksFailIff | plugins/prometheus/prometheus.go:41-47 | the output fails exactly when some service's instance list fails, and the error is that of the first such service (counter lists ending in null are skipped, not a panic; see "## Findings") |
| Prometheus.PayloadFailIff | plugins/prometheus/prometheus.go:36-47 | the exporter fails, with no text at all, exactly when the service list or some instance list fails (counter lists ending in null are skipped, not a panic; see "## Findings") |
| Prometheus.EpochOfTestClock | plugins/prometheus/prometheus.go:34 | the clock of 100 seconds is printed as 100000 milliseconds |
| Prometheus.EmptyServiceBlock | plugins/prometheus/prometheus.go:48-56 | a service without instances still gets its instance gauge, with count 0, and nothing else |
| Prometheus.TypeLineIsLine | plugins/prometheus/prometheus.go:55 | a TYPE line is exactly one line |
| Prometheus.SampleLineIsLine | plugins/prometheus/prometheus.go:56 | a sample line is exactly one line |
| Prometheus.PercentileLineIsLine | plugins/prometheus/prometheus.go:25-28 | a percentile line is exactly one line |
| Prometheus.CounterGaugeLines | plugins/prometheus/prometheus.go:65-66 | each counter renders as exactly two lines |
| Prometheus.MetricTextLines | plugins/prometheus/prometheus.go:24-28 | each histogram renders as exactly five lines |
| Prometheus.InstanceGaugeLines | plugins/prometheus/prometheus.go:55-56 | the instance gauge is exactly two lines |
| Prometheus.CounterGaugesLines | plugins/prometheus/prometheus.go:63-67 | the counter gauges take two lines per counter |
| Prometheus.HistogramTextsLines | plugins/prometheus/prometheus.go:68-70 | the histogram blocks take five lines per histogram |
| Prometheus.ServiceBlockLines | plugins/prometheus/prometheus.go:55-70 | a service's text has two lines for its instances, two per counter and five per histogram |
| Prometheus.SingleCounterSample | plugins/records.go:96-106 | one instance reporting one well-formed counter gives that counter with its last reading, and no histograms |
| Prometheus.SingleHistogramSample | plugins/records.go:69-74 | one instance reporting one well-formed histogram gives that point unchanged, and no counters |
| Prometheus.SingleCounterService | plugins/prometheus/prometheus.go:55-67 | a service with one instance reporting one counter renders as its instance gauge with count 1, then that counter's gauge |
| Prometheus.SingleHistogramService | plugins/prometheus/prometheus.go:55-70 | a service with one instance reporting one histogram renders as its instance gauge, then the point's five lines with its values as reported |
| Prometheus.SingleServicePayload | plugins/prometheus/prometheus.go:41-72 | with one service listed the payload is that service's block |
| PrometheusExamples.ResultFormatting | plugins/prometheus/prometheus_test.go:66-72 | the counter test's payload is exactly the expected four lines, stamped 100000 |
| PrometheusExamples.ResultFormattingCleansServiceName | plugins/prometheus/prometheus_test.go:74-80 | the service "service-1%#" is printed as service1 |
| PrometheusExamples.ResultFormattingCleansKeys | plugins/prometheus/prometheus_test.go:82-88 | the key "c_--one#" is printed as c_one |
| PrometheusExamples.HistogramFormatting | plugins/prometheus/prometheus_test.go:90-102 | the histogram test's payload is exactly the expected seven lines, with the reported values |
| LegacyPrometheus.WriteLegacyServiceBlock | plugins/prometheus.go:49-66 | a service's text is its instance gauge, then all counter gauges |
| LegacyPrometheus.GeneratePrometheusPayload | plugins/prometheus.go:34-69 | the renderer produces exactly the first exporter's payload function: the service-list error, the first instance-list error, or every service's block in order |
| LegacyPrometheus.LegacyRendererApplies | plugins/prometheus.go:35 | the first exporter stamps its lines with the clock in seconds, unscaled |
| LegacyPrometheus.SameFailures | plugins/prometheus.go:37-48 | the first exporter fails exactly when the current one does, with the same error (counter lists ending in null are skipped in both, not a panic) |
| LegacyPrometheus.FirstFailureUnique | plugins/prometheus.go:44-48 | whatever the blocks, a failing output carries the error of the first failing service |
| LegacyPrometheus.ServiceBlockExtendsLegacy | plugins/prometheus.go:55-66 | the current exporter's block is the first exporter's block followed by the histogram blocks |
| LegacyPrometheus.LegacyServiceBlockLines | plugins/prometheus.go:55-66 | a service's text has two lines for its instances and two per counter |
| LegacyPrometheus.HistogramsIgnored | plugins/prometheus.go:58-66 | an instance reporting only a histogram yields the instance gauge alone |
| LegacyPrometheus.SingleServiceLegacyPayload | plugins/prometheus.go:42-68 | with one service listed the payload is that service's block |
| LegacyPrometheus.SingleCounterLegacyService | plugins/prometheus.go:55-66 | a service with one instance reporting one counter renders as its instance gauge with count 1, then that counter's gauge |
| LegacyPrometheusExamples.LegacyResultFormatting | plugins/prometheus_test.go:56-62 | the counter test's payload is exactly the expected four lines, stamped 100 |
| LegacyPrometheusExamples.LegacyResultFormattingCleansServiceName | plugins/prometheus_test.go:64-70 | the service "service-1%#" is printed as service1 |
| LegacyPrometheusExamples.LegacyResultFormattingCleansKeys | plugins/prometheus_test.go:72-78 | the key "c_--one#" is printed as c_one |
| Zabbix.NewMetric | plugins/zabbix/zabbix.go:24-30 | a record holds the given host, key and value; its clock is the first optional argument when there is one, the current time otherwise |
| Zabbix.NewPacket | plugins/zabbix/zabbix.go:42-48 | a packet is always a "sender data" request with the given records; its clock is chosen as for a record |
| Zabbix.Header | plugins/zabbix/zabbix.go:91-93 | the header is exactly the five bytes Z, B, X, D, 1 |
| Zabbix.LengthField | plugins/zabbix/zabbix.go:50-55 | the length field is eight bytes whose last four are zero |
| Zabbix.LengthFieldRoundTrip | plugins/zabbix/zabbix.go:53 | the first four bytes decode, little-endian, to the length modulo 2^32, and every four bytes followed by zeros are the length field of what they decode to |
| Zabbix.ParseFrame | plugins/zabbix/zabbix.go:111-113 | a receiver accepts a buffer only when it is 13 bytes longer than the payload it yields, with the payload last |
| Zabbix.SendBuffer | plugins/zabbix/zabbix.go:111-113 | the buffer written is header, length field and payload, 13 bytes longer than the payload |
| Zabbix.FrameLayout | plugins/zabbix/zabbix.go:111-113 | the frame has the header in bytes 0-4, the payload length modulo 2^32 in bytes 5-8, zeros in bytes 9-12, then the payload |
| Zabbix.FrameRoundTrip | plugins/zabbix/zabbix.go:111-113 | a payload shorter than 2^32 bytes is read back from its frame |
| Zabbix.ParseFrameInverse | plugins/zabbix/zabbix.go:111-113 | every buffer the receiver accepts is the frame of the payload it yields |
| Zabbix.AppendCounterRecords | plugins/zabbix/zabbix.go:161-166 | appends one record per counter, in iteration order |
| Zabbix.AppendServiceRecords | plugins/zabbix/zabbix.go:151-166 | appends a service's instance-count record, then its counters' records |
| Zabbix.CollectRecords | plugins/zabbix/zabbix.go:142-168 | the records built are those of every service whose instances can be read, in service order |
| Zabbix.PollCycle | plugins/zabbix/zabbix.go:140-171 | one pass of the poll loop sends exactly the cycle's frame when enabled and nothing otherwise |
| Zabbix.ServicesRecordsAppend | plugins/zabbix/zabbix.go:147-168 | the records of two runs of services are the records of each, one after the other |
| Zabbix.FailedServiceSkipped | plugins/zabbix/zabbix.go:149-150 | a service whose instance list fails contributes nothing, and the services after it are still reported |
| Zabbix.CounterRecordAt | plugins/zabbix/zabbix.go:161-164 | the j-th counter record is host "ccentral", key "service.key" unsanitised, the value in decimal, and the cycle's clock |
| Zabbix.ServiceRecordsShape | plugins/zabbix/zabbix.go:151-166 | a service's records are its instance count under "service.instances", then one per counter in key order, with its folded value |
| Zabbix.EveryCounterReported | plugins/zabbix/zabbix.go:157-166 | every aggregated counter of a service is reported under "service.key" |
| Zabbix.CountersOnlyReported | plugins/zabbix/zabbix.go:157-166 | histograms are not sent: every record of a service after its instance count is named "service.key" for a "c_" key |
| Zabbix.CycleSends | plugins/zabbix/zabbix.go:140-171 | a disabled cycle sends nothing; an enabled one sends one frame whose payload is a "sender data" packet with all of the cycle's records, even when there are none (counter lists ending in null are skipped, not a panic; see "## Findings") |
| Zabbix.NoServiceListNoRecords | plugins/zabbix/zabbix.go:143-147 | when the service list cannot be read the packet has no records |

## Findings

| source | as written | input that shows it | evidently intended | confidence | as-written member | corrected member |
|---|---|---|---|---|---|---|
| plugins/records.go:96-100 | an unsupported last element of a counter list is logged with `reflect.TypeOf(v).Name()`; for a JSON null `v` is `nil`, `reflect.TypeOf(nil)` is a nil `Type`, and calling `Name` on it panics | a sample `{"c_x": [1, null]}` | log the entry and skip it, as for any other non-number | high, not executed | Records.CounterStepAsWritten, Records.NullCounterExample | Records.CollectCounterEntry, Records.CountersAfterAt |

## Left out

- The etcd store and its client (`etcd.Get`, `etcd.Set`, `InitCCentral`, `initEtcd`):
  - each operation receives the store's answer, a node listing or the error text;
  - `written` results show what would be written.
- JSON encoding and decoding:
  - decoding is a function parameter returning what `json.Unmarshal` leaves and its error;
  - the Zabbix packet encoding is a parameter;
  - the `json.Marshal` failure branches ("Could not convert to JSON", "Error marshalling json") are not modelled, since marshalling string maps cannot fail.
- HTTP:
  - routing, headers, `handleRoot` file serving, `handleCheck`, `main`, `log.Fatal`;
  - handler replies are a status and an error body.
- Zabbix networking: `connect`, `getAddr`, `read`, `conn.Write`, `Close`, `sendZabbix`, and the host and port options it reads. A cycle ends with the bytes that would be written.
- The endless poll loop, its sleep and the goroutine that `StartZabbixUpdater` starts:
  - one cycle is modelled, with the enabled flag as a parameter;
  - a cycle reads the clock once, so every record and the packet carry the same `now`.
- Configuration writes read the clock once:
  - Go calls `time.Now()` twice, once to stamp the item and once in `incrementVersion` to stamp "v" (client/server.go:186 and :173, ccentral.go:122 and :109, ccentrald.go:174 and :204);
  - Server.SetConfigItem, Central.SetConfigItem and Daemon.HandleItem stamp both with the same `now`, so a write that crosses a second boundary is not modelled.
- Time: `time.Now()` and the exporters' `Unix()` are parameters.
- `log.Printf` output and `metric.String` are not modelled.
- Floating point:
  - raw metric numbers are integers already truncated by `int(...)`, so out-of-range conversions are left out;
  - an instance's timestamp is a `real`.
- Unicode: `strings.ToLower` is modelled on ASCII letters only.
- Go map iteration order: every `range` over a map is taken in ascending key order.
- Records.CollectInstanceCounters: counter totals are unbounded integers; Go's 64-bit overflow of a sum is not modelled.
- Records.CountersOverAt: the same unbounded sums, over several instances.
- Records.LastReading: null gives no reading, as for any non-number; Go panics on a null last element (plugins/records.go:99) instead of skipping it. Records.CounterStepAsWritten models the panic.
- Records.CollectCounterEntry: a "c_" list ending in null is skipped; Go panics at plugins/records.go:99.
- Records.CollectInstanceCounters: a sample with a "c_" list ending in null is folded with that entry skipped; Go panics at plugins/records.go:99 (Records.CountersAfterAsWrittenPanics states when).
- Records.CountersAfterAt: a "c_" list ending in null counts as malformed and changes nothing; Go panics at plugins/records.go:99.
- Records.CountersOverAt: the same skip of a list ending in null, over several instances; Go panics.
- Records.CollectCounters: the same skip; in Go the panic ends the Zabbix goroutine, and with it the daemon.
- Prometheus.BlocksFailIff: "fails exactly when an instance list fails" does not cover Go's panic on a counter list ending in null, which aborts the HTTP request (plugins/prometheus/prometheus.go:59).
- Prometheus.PayloadFailIff: the same panic is not covered.
- LegacyPrometheus.SameFailures: the same panic is not covered (plugins/prometheus.go:60); both exporters would panic on the same input.
- Zabbix.CycleSends: an enabled cycle whose service has a counter list ending in null does not send in Go; the goroutine panics at plugins/zabbix/zabbix.go:159.
- Strconv.Atoi: an error carries only the reason ("invalid syntax", "value out of range"), not Go's `*NumError` text with the function name and input.
- Records.MergeProperties: "between" and "a point averaged with itself is unchanged" are promised only when the percentile sums fit in 64 bits, because Go's sum wraps before it is halved (Records.MergeExamples shows the wrap).
- Strconv.ParseBool: an error carries only the reason, as for Atoi.
- Server.GetConfig: on a decoding error Go returns both the partly decoded map and the error. The model returns only the error, because every caller stops on the error.
- Server.GetSchema: the same simplification as Server.GetConfig.
- Store writes (`SetSchema` in client/server.go and ccentral.go):
  - the write is not modelled;
  - its error is a parameter, the push answer of `Client.Store` and `LegacyClient.GlobalStore`.
- ccentral.go and ccentrald.go repeat `incrementVersion`, `getConfig` and `getSchema`. They are modelled by `Server.IncrementVersion`, `Central.GetConfig` and `Central.GetSchema`. ccentral.go's presence check on "v" has the same effect as client/server.go's zero item.
- plugins/prometheus.go does not compile as written:
  - it redeclares `valueRe` of plugins/records.go in the same package;
  - it calls an undefined `collectInstanceCounters`;
  - the model takes that call to be `CollectInstanceCounters` and its `cleanValue` to be `Records.CleanValue`.
- `NewService`, `newService`, `NewSchemaItem` and `NewConfigItem` are plain constructors and are modelled as the datatypes' constructors.
- web/js/ui.js, ui.js and presentation.go are user interface and mock handlers, and are not part of this model. The test files are used as statements of expected output only.
