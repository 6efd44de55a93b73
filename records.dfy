/** Metric-name sanitising and the aggregation of the metrics that service instances report
    (plugins/records.go). An instance reports a map from metric key to a raw JSON value; keys
    starting with "c_" are counters, keys starting with "h_" are histograms, others are ignored. */
module Records {
  import opened Wrappers
  import opened Text
  import opened KeyOrder
  import Strconv

  const MetricPrefixHistogram: string := "h_"
  const MetricPrefixCounter: string := "c_"

  // ---------------------------------------------------------------------------------------
  // Name sanitising

  /** strings.ToLower on one character, restricted to ASCII. */
  function LowerChar(c: char): char {
    if 'A' <= c <= 'Z' then (c as int - 'A' as int + 'a' as int) as char else c
  }

  function ToLower(s: string): (r: string)
    ensures |r| == |s| && forall i :: 0 <= i < |s| ==> r[i] == LowerChar(s[i])
  {
    if s == [] then [] else [LowerChar(s[0])] + ToLower(s[1..])
  }

  /** The character class [a-zA-Z0-9_:] of the name pattern. */
  predicate NameChar(c: char) {
    'a' <= c <= 'z' || 'A' <= c <= 'Z' || '0' <= c <= '9' || c == '_' || c == ':'
  }

  /** The characters CleanValue can produce: [a-z0-9_:]. */
  predicate CleanChar(c: char) {
    'a' <= c <= 'z' || '0' <= c <= '9' || c == '_' || c == ':'
  }

  predicate NoUpper(s: string) {
    forall i :: 0 <= i < |s| ==> !('A' <= s[i] <= 'Z')
  }

  /** Replacing every match of [^a-zA-Z0-9_:] by the empty string. */
  function StripDisallowed(s: string): (r: string) {
    if s == [] then [] else (if NameChar(s[0]) then [s[0]] else []) + StripDisallowed(s[1..])
  }

  /** What survives the replacement is in the character class, and is lower-case when the input
      was. */
  lemma {:induction false} StripCharset(s: string)
    ensures |StripDisallowed(s)| <= |s|
    ensures forall i :: 0 <= i < |StripDisallowed(s)| ==> NameChar(StripDisallowed(s)[i])
    ensures NoUpper(s) ==> forall i :: 0 <= i < |StripDisallowed(s)| ==> CleanChar(StripDisallowed(s)[i])
  {
    if s != [] {
      StripCharset(s[1..]);
    }
  }

  /** CleanValue: lower-case, then drop every character outside [a-zA-Z0-9_:]. */
  function CleanValue(value: string): (r: string)
    ensures forall i :: 0 <= i < |r| ==> CleanChar(r[i])
    ensures |r| <= |value|
  {
    StripCharset(ToLower(value));
    StripDisallowed(ToLower(value))
  }

  lemma {:induction false} StripConcat(a: string, b: string)
    ensures StripDisallowed(a + b) == StripDisallowed(a) + StripDisallowed(b)
  {
    if a == [] {
      assert a + b == b;
    } else {
      var head := if NameChar(a[0]) then [a[0]] else [];
      calc {
        StripDisallowed(a + b);
        { assert (a + b)[0] == a[0] && (a + b)[1..] == a[1..] + b; }
        head + StripDisallowed(a[1..] + b);
        { StripConcat(a[1..], b); }
        head + (StripDisallowed(a[1..]) + StripDisallowed(b));
        (head + StripDisallowed(a[1..])) + StripDisallowed(b);
        StripDisallowed(a) + StripDisallowed(b);
      }
    }
  }

  /** CleanValue is a per-character filter: it distributes over concatenation, and one
      character is kept (lower-cased) exactly when it is in [a-zA-Z0-9_:]. */
  lemma CleanValueIsFilter(a: string, b: string, c: char)
    ensures CleanValue(a + b) == CleanValue(a) + CleanValue(b)
    ensures CleanValue([c]) == if NameChar(c) then [LowerChar(c)] else []
  {
    var la, lb := ToLower(a), ToLower(b);
    assert ToLower(a + b) == la + lb by {
      forall i | 0 <= i < |a + b| ensures ToLower(a + b)[i] == (la + lb)[i] {
        if i < |a| { assert (a + b)[i] == a[i]; } else { assert (a + b)[i] == b[i - |a|]; }
      }
    }
    StripConcat(la, lb);
    assert ToLower([c]) == [LowerChar(c)];
    assert StripDisallowed([LowerChar(c)]) == if NameChar(LowerChar(c)) then [LowerChar(c)] else [] by {
      assert [LowerChar(c)][1..] == [];
    }
  }

  /** A name made only of [a-z0-9_:] is left as it is. */
  lemma {:induction false} CleanValueFixesCleanNames(s: string)
    requires forall i :: 0 <= i < |s| ==> CleanChar(s[i])
    ensures CleanValue(s) == s
  {
    if s != [] {
      CleanValueFixesCleanNames(s[1..]);
      assert ToLower(s)[1..] == ToLower(s[1..]);
    }
  }

  lemma CleanValueIdempotent(s: string)
    ensures CleanValue(CleanValue(s)) == CleanValue(s)
  {
    CleanValueFixesCleanNames(CleanValue(s));
  }

  lemma {:induction false} StripDrops(s: string)
    requires forall i :: 0 <= i < |s| ==> !NameChar(s[i])
    ensures StripDisallowed(s) == []
  {
    if s != [] { StripDrops(s[1..]); }
  }

  /** A name with no character of [a-zA-Z0-9_:] is cleaned to nothing. */
  lemma CleanValueDrops(s: string)
    requires forall i :: 0 <= i < |s| ==> !NameChar(s[i])
    ensures CleanValue(s) == []
  {
    assert ToLower(s) == s;
    StripDrops(s);
  }

  /** The service name one of the exporter's tests sanitises ("service-1%#"). */
  lemma CleanValueServiceExample(s: string)
    requires s == "service-1%#"
    ensures CleanValue(s) == "service1"
  {
    var a, b, c, d := s[..7], s[7..8], s[8..9], s[9..];
    assert s == a + b + c + d;
    CleanValueIsFilter(a + b + c, d, ' ');
    CleanValueIsFilter(a + b, c, ' ');
    CleanValueIsFilter(a, b, ' ');
    CleanValueFixesCleanNames(a);
    CleanValueFixesCleanNames(c);
    CleanValueDrops(b);
    CleanValueDrops(d);
  }

  /** The metric key another of those tests sanitises ("c_--one#"). */
  lemma CleanValueKeyExample(s: string)
    requires s == "c_--one#"
    ensures CleanValue(s) == "c_one"
  {
    assert ToLower(s) == s;
    assert StripDisallowed(s[7..]) == [];
    assert StripDisallowed(s[6..]) == "e";
    assert StripDisallowed(s[4..]) == "one";
    assert StripDisallowed(s[2..]) == "one";
    assert StripDisallowed(s) == "c_one";
  }

  // ---------------------------------------------------------------------------------------
  // Raw values and histogram points

  /** A decoded JSON value as the aggregation inspects it: a number (already converted to
      `int`, that is truncated toward zero), a list, JSON null (which decodes to Go's untyped
      `nil`), or anything else. */
  datatype Raw = Num(n: int) | List(items: seq<Raw>) | Null | Other

  /** What one instance reports: metric key to raw value. */
  type Sample = map<string, Raw>

  /** The value of a HistogramPoint. */
  datatype Point = Point(key: string, p75: int, p95: int, p99: int, median: int)

  /** newHistogramPoint: exactly four numbers, in the order p75, p95, p99, median. */
  function NewHistogramPoint(key: string, percentiles: seq<Raw>): (r: Option<Point>)
    ensures r.Some? <==> |percentiles| == 4 && forall i :: 0 <= i < 4 ==> percentiles[i].Num?
    ensures r.Some? ==>
      r.value == Point(key, percentiles[0].n, percentiles[1].n, percentiles[2].n, percentiles[3].n)
  {
    if |percentiles| != 4 then None
    else if !percentiles[0].Num? || !percentiles[1].Num? || !percentiles[2].Num? || !percentiles[3].Num? then None
    else Some(Point(key, percentiles[0].n, percentiles[1].n, percentiles[2].n, percentiles[3].n))
  }

  /** Go's `x / 2` on `int`: the quotient truncated toward zero. */
  function Half(x: int): (r: int)
    ensures 0 <= x ==> 0 <= x - 2 * r <= 1
    ensures x < 0 ==> -1 <= x - 2 * r <= 0
  {
    if x >= 0 then x / 2 else -((-x) / 2)
  }

  /** Go's `(a + b) / 2` on `int`: the sum wraps to 64 bits before it is halved. */
  function Average(a: int, b: int): int {
    Half(Strconv.Wrap64(a + b))
  }

  /** HistogramPoint.Add as a function of the two values: the element-wise truncated average
      (of the 64-bit sum); the key of the receiving point is kept. */
  function Merge(p: Point, i: Point): Point {
    Point(p.key, Average(i.p75, p.p75), Average(i.p95, p.p95), Average(i.p99, p.p99), Average(i.median, p.median))
  }

  predicate Between(x: int, a: int, b: int) {
    (a <= x <= b) || (b <= x <= a)
  }

  predicate SumFits(a: int, b: int) {
    Strconv.MinInt64 <= a + b <= Strconv.MaxInt64
  }

  /** No percentile sum of the two points leaves Go's `int` range. */
  predicate SumsFit(p: Point, i: Point) {
    SumFits(p.p75, i.p75) && SumFits(p.p95, i.p95) && SumFits(p.p99, i.p99) && SumFits(p.median, i.median)
  }

  /** When the sums fit in 64 bits, each merged percentile lies between the two merged ones and
      merging a point with an equal one changes nothing; the order of the two values never
      matters. */
  lemma MergeProperties(p: Point, i: Point)
    ensures Merge(p, i).key == p.key
    ensures SumsFit(p, i) ==>
      Between(Merge(p, i).p75, p.p75, i.p75) && Between(Merge(p, i).p95, p.p95, i.p95) &&
      Between(Merge(p, i).p99, p.p99, i.p99) && Between(Merge(p, i).median, p.median, i.median)
    ensures SumsFit(p, p) ==> Merge(p, p) == p
    ensures Merge(p, i) == Merge(i, p).(key := p.key)
  {
  }

  /** The example merge, a negative reading where truncation and Euclidean division differ, and
      a sum that wraps: 2^62 + 2^62 overflows to -2^63, which halves to -2^62. */
  lemma MergeExamples()
    ensures Merge(Point("h_x", 75, 95, 99, 50), Point("h_x", 95, 55, 59, 50)) == Point("h_x", 85, 75, 79, 50)
    ensures Merge(Point("h_x", -3, 0, 0, 0), Point("h_x", 0, 0, 0, 0)).p75 == -1
    ensures Merge(Point("h_x", 0x4000_0000_0000_0000, 0, 0, 0), Point("h_x", 0x4000_0000_0000_0000, 0, 0, 0)).p75
      == -0x4000_0000_0000_0000
  {
  }

  /** A histogram point that Add updates in place. */
  class HistogramPoint {
    var key: string
    var percentile75: int
    var percentile95: int
    var percentile99: int
    var percentileMed: int

    function Value(): Point
      reads this
    {
      Point(key, percentile75, percentile95, percentile99, percentileMed)
    }

    constructor (v: Point)
      ensures Value() == v
    {
      key, percentile75, percentile95, percentile99, percentileMed := v.key, v.p75, v.p95, v.p99, v.median;
    }

    /** Add: each percentile becomes the truncated average of its old value and `i`'s, the sum
        wrapping to 64 bits first. */
    method Add(i: HistogramPoint)
      modifies this
      ensures Value() == Merge(old(Value()), old(i.Value()))
    {
      percentile75 := Average(i.percentile75, percentile75);
      percentile95 := Average(i.percentile95, percentile95);
      percentile99 := Average(i.percentile99, percentile99);
      percentileMed := Average(i.percentileMed, percentileMed);
    }
  }

  // ---------------------------------------------------------------------------------------
  // Counters

  /** The reading a counter value carries: the last element of a non-empty list, when it is a
      number. */
  function LastReading(v: Raw): (r: Option<int>)
    ensures r.Some? <==> v.List? && |v.items| > 0 && v.items[|v.items| - 1].Num?
  {
    if v.List? && |v.items| > 0 && v.items[|v.items| - 1].Num? then Some(v.items[|v.items| - 1].n) else None
  }

  function Get0(m: map<string, int>, k: string): int {
    if k in m then m[k] else 0
  }

  /** One iteration of CollectInstanceCounters' loop. */
  function CounterStep(counters: map<string, int>, key: string, value: Raw): map<string, int> {
    if HasPrefix(key, MetricPrefixCounter) && LastReading(value).Some? then
      counters[key := Get0(counters, key) + LastReading(value).value]
    else counters
  }

  function CounterSteps(counters: map<string, int>, es: seq<(string, Raw)>): map<string, int> {
    if es == [] then counters
    else CounterStep(CounterSteps(counters, es[..|es| - 1]), es[|es| - 1].0, es[|es| - 1].1)
  }

  /** The counter map after CollectInstanceCounters has folded one instance's sample in. */
  function CountersAfter(data: Sample, counters: map<string, int>): map<string, int> {
    CounterSteps(counters, Entries(data))
  }

  lemma CounterStepsSnoc(counters: map<string, int>, es: seq<(string, Raw)>, i: int)
    requires 0 <= i < |es|
    ensures CounterSteps(counters, es[..i + 1]) == CounterStep(CounterSteps(counters, es[..i]), es[i].0, es[i].1)
  {
    assert es[..i + 1][..i] == es[..i];
  }

  /** CollectInstanceCounters. */
  method CollectInstanceCounters(data: Sample, counters: map<string, int>) returns (r: map<string, int>)
    ensures r == CountersAfter(data, counters)
  {
    var es := Entries(data);
    r := counters;
    assert es[..|es|] == es;
    for i := 0 to |es|
      invariant r == CounterSteps(counters, es[..i])
    {
      CounterStepsSnoc(counters, es, i);
      r := CollectCounterEntry(r, es[i].0, es[i].1);
    }
  }

  /** One pass of CollectInstanceCounters' loop: a "c_" entry whose value is a list ending in
      a number adds that number to the key's total, starting from zero. */
  method CollectCounterEntry(counters: map<string, int>, key: string, value: Raw) returns (r: map<string, int>)
    ensures r == CounterStep(counters, key, value)
  {
    r := counters;
    if HasPrefix(key, MetricPrefixCounter) {
      if value.List? {
        var cList := value.items;
        if |cList| >= 1 {
          var v := cList[|cList| - 1];
          if v.Num? {
            if key in r {
              r := r[key := r[key] + v.n];
            } else {
              r := r[key := v.n];
            }
          }
        }
      }
    }
  }

  /** A "c_" entry whose list ends in JSON null. */
  predicate NullReading(key: string, value: Raw) {
    HasPrefix(key, MetricPrefixCounter) && value.List? && |value.items| > 0 && value.items[|value.items| - 1].Null?
  }

  /** One pass of CollectInstanceCounters' loop as written, `None` standing for a panic: the log
      line for an unsupported last element asks `reflect.TypeOf(v)` for its name, and for `nil`
      that type is itself nil, so the call dereferences nil instead of skipping the entry. Any
      other entry is handled exactly as CounterStep handles it. */
  function CounterStepAsWritten(counters: map<string, int>, key: string, value: Raw): (r: Option<map<string, int>>)
    ensures r.None? <==> NullReading(key, value)
    ensures r.Some? ==> r.value == CounterStep(counters, key, value)
  {
    if !HasPrefix(key, MetricPrefixCounter) then Some(counters)
    else if !value.List? then Some(counters)
    else if |value.items| < 1 then Some(counters)
    else
      var v := value.items[|value.items| - 1];
      if !v.Num? then (if v.Null? then None else Some(counters))
      else if key in counters then Some(counters[key := counters[key] + v.n])
      else Some(counters[key := v.n])
  }

  function CounterStepsAsWritten(counters: map<string, int>, es: seq<(string, Raw)>): Option<map<string, int>> {
    if es == [] then Some(counters)
    else match CounterStepsAsWritten(counters, es[..|es| - 1])
      case None => None
      case Some(m) => CounterStepAsWritten(m, es[|es| - 1].0, es[|es| - 1].1)
  }

  /** CollectInstanceCounters as written, over one instance's sample. */
  function CountersAfterAsWritten(data: Sample, counters: map<string, int>): Option<map<string, int>> {
    CounterStepsAsWritten(counters, Entries(data))
  }

  predicate HasNullReading(es: seq<(string, Raw)>) {
    exists i :: 0 <= i < |es| && NullReading(es[i].0, es[i].1)
  }

  lemma {:induction false} CounterStepsAsWrittenPanics(counters: map<string, int>, es: seq<(string, Raw)>)
    ensures CounterStepsAsWritten(counters, es).None? <==> HasNullReading(es)
    ensures !HasNullReading(es) ==> CounterStepsAsWritten(counters, es) == Some(CounterSteps(counters, es))
  {
    if es != [] {
      var init := es[..|es| - 1];
      CounterStepsAsWrittenPanics(counters, init);
      assert HasNullReading(es) <==> HasNullReading(init) || NullReading(es[|es| - 1].0, es[|es| - 1].1) by {
        if HasNullReading(init) {
          var i :| 0 <= i < |init| && NullReading(init[i].0, init[i].1);
          assert es[i] == init[i];
        }
        if HasNullReading(es) {
          var i :| 0 <= i < |es| && NullReading(es[i].0, es[i].1);
          if i < |es| - 1 {
            assert init[i] == es[i];
          }
        }
      }
    }
  }

  /** The loop as written panics exactly when some "c_" list of the sample ends in null; on
      every other sample it computes what CollectInstanceCounters computes, which skips such an
      entry as the log message intends. */
  lemma CountersAfterAsWrittenPanics(data: Sample, counters: map<string, int>)
    ensures CountersAfterAsWritten(data, counters).None? <==> exists k :: k in data && NullReading(k, data[k])
    ensures (forall k :: k in data ==> !NullReading(k, data[k])) ==>
      CountersAfterAsWritten(data, counters) == Some(CountersAfter(data, counters))
  {
    var es := Entries(data);
    EntriesComplete(data);
    CounterStepsAsWrittenPanics(counters, es);
    if exists k :: k in data && NullReading(k, data[k]) {
      var k :| k in data && NullReading(k, data[k]);
      var i :| 0 <= i < |es| && es[i].0 == k;
      assert NullReading(es[i].0, es[i].1);
    }
  }

  /** A sample `{"c_x": [1, null]}`: the loop as written panics, the model skips the entry. */
  lemma NullCounterExample()
    ensures CountersAfterAsWritten(map["c_x" := List([Num(1), Null])], map[]) == None
    ensures CountersAfter(map["c_x" := List([Num(1), Null])], map[]) == map[]
  {
    var data: Sample := map["c_x" := List([Num(1), Null])];
    assert HasPrefix("c_x", MetricPrefixCounter);
    CountersAfterAsWrittenPanics(data, map[]);
    forall k ensures k !in CountersAfter(data, map[]) {
      CountersAfterAt(data, map[], k);
    }
  }

  /** Whether key `k` of a sample is a well-formed counter entry. */
  predicate CounterEntry(k: string, data: Sample) {
    k in data && HasPrefix(k, MetricPrefixCounter) && LastReading(data[k]).Some?
  }

  function ReadingOf(k: string, data: Sample): int {
    if CounterEntry(k, data) then LastReading(data[k]).value else 0
  }

  predicate InKeys<V>(es: seq<(string, V)>, k: string) {
    exists i :: 0 <= i < |es| && es[i].0 == k
  }

  lemma {:induction false} CounterStepsAt(data: Sample, counters: map<string, int>, es: seq<(string, Raw)>, k: string)
    requires forall i :: 0 <= i < |es| ==> es[i].0 in data && es[i].1 == data[es[i].0]
    requires forall i, j :: 0 <= i < j < |es| ==> es[i].0 != es[j].0
    ensures k in CounterSteps(counters, es) <==> k in counters || (InKeys(es, k) && CounterEntry(k, data))
    ensures Get0(CounterSteps(counters, es), k) == Get0(counters, k) + (if InKeys(es, k) then ReadingOf(k, data) else 0)
  {
    if es != [] {
      var init := es[..|es| - 1];
      CounterStepsAt(data, counters, init, k);
      var last := es[|es| - 1];
      if last.0 == k {
        forall i | 0 <= i < |init| ensures init[i].0 != k {
          assert init[i] == es[i];
        }
      } else {
        assert InKeys(es, k) ==> InKeys(init, k) by {
          if InKeys(es, k) {
            var i :| 0 <= i < |es| && es[i].0 == k;
            assert init[i].0 == k;
          }
        }
      }
      assert InKeys(init, k) ==> InKeys(es, k) by {
        if InKeys(init, k) {
          var i :| 0 <= i < |init| && init[i].0 == k;
          assert es[i].0 == k;
        }
      }
    }
  }

  /** Folding one instance into the counter map adds that instance's last reading to each
      well-formed "c_" key (starting from 0), and leaves every other key as it was: a malformed
      counter or a key without the prefix neither adds nor changes an entry. */
  lemma CountersAfterAt(data: Sample, counters: map<string, int>, k: string)
    ensures k in CountersAfter(data, counters) <==> k in counters || CounterEntry(k, data)
    ensures Get0(CountersAfter(data, counters), k) == Get0(counters, k) + ReadingOf(k, data)
    ensures !CounterEntry(k, data) ==> Get0(CountersAfter(data, counters), k) == Get0(counters, k)
  {
    var es := Entries(data);
    EntriesComplete(data);
    CounterStepsAt(data, counters, es, k);
    if k in data {
      var i :| 0 <= i < |es| && es[i].0 == k;
    }
  }

  // ---------------------------------------------------------------------------------------
  // Histograms

  /** The point a histogram entry yields, if it is well formed. */
  function HistogramEntry(k: string, v: Raw): Option<Point> {
    if HasPrefix(k, MetricPrefixHistogram) && v.List? then NewHistogramPoint(k, v.items) else None
  }

  /** One iteration of CollectHistograms' loop. */
  function HistogramStep(histograms: map<string, Point>, key: string, value: Raw): map<string, Point> {
    match HistogramEntry(key, value)
    case None => histograms
    case Some(p) => if key in histograms then histograms[key := Merge(histograms[key], p)] else histograms[key := p]
  }

  function HistogramSteps(histograms: map<string, Point>, es: seq<(string, Raw)>): map<string, Point> {
    if es == [] then histograms
    else HistogramStep(HistogramSteps(histograms, es[..|es| - 1]), es[|es| - 1].0, es[|es| - 1].1)
  }

  lemma HistogramStepsPrefix(histograms: map<string, Point>, es: seq<(string, Raw)>, i: int)
    requires 0 <= i < |es|
    ensures HistogramSteps(histograms, es[..i + 1]) == HistogramStep(HistogramSteps(histograms, es[..i]), es[i].0, es[i].1)
  {
    assert es[..i + 1][..i] == es[..i];
  }

  /** The histogram map (as values) after CollectHistograms has folded one instance in. */
  function HistogramsAfter(data: Sample, histograms: map<string, Point>): map<string, Point> {
    HistogramSteps(histograms, Entries(data))
  }

  function ParsedPoint(k: string, data: Sample): Option<Point> {
    if k in data then HistogramEntry(k, data[k]) else None
  }

  lemma {:induction false} HistogramStepsAt(data: Sample, histograms: map<string, Point>, es: seq<(string, Raw)>, k: string)
    requires forall i :: 0 <= i < |es| ==> es[i].0 in data && es[i].1 == data[es[i].0]
    requires forall i, j :: 0 <= i < j < |es| ==> es[i].0 != es[j].0
    ensures var r := HistogramSteps(histograms, es);
      if InKeys(es, k) && ParsedPoint(k, data).Some? then
        k in r && r[k] == (if k in histograms then Merge(histograms[k], ParsedPoint(k, data).value) else ParsedPoint(k, data).value)
      else
        (k in r <==> k in histograms) && (k in r ==> r[k] == histograms[k])
  {
    if es != [] {
      var init := es[..|es| - 1];
      HistogramStepsAt(data, histograms, init, k);
      var last := es[|es| - 1];
      if last.0 == k {
        forall i | 0 <= i < |init| ensures init[i].0 != k {
          assert init[i] == es[i];
        }
      } else {
        assert InKeys(es, k) ==> InKeys(init, k) by {
          if InKeys(es, k) {
            var i :| 0 <= i < |es| && es[i].0 == k;
            assert init[i].0 == k;
          }
        }
      }
      assert InKeys(init, k) ==> InKeys(es, k) by {
        if InKeys(init, k) {
          var i :| 0 <= i < |init| && init[i].0 == k;
          assert es[i].0 == k;
        }
      }
    }
  }

  /** Folding one instance into the histogram map: a well-formed "h_" sample is stored as it
      is when the key is new and merged into the existing point otherwise; a malformed sample,
      or a key without the prefix, leaves the entry (or its absence) untouched. */
  lemma HistogramsAfterAt(data: Sample, histograms: map<string, Point>, k: string)
    ensures var r := HistogramsAfter(data, histograms);
      match ParsedPoint(k, data)
      case Some(p) => k in r && r[k] == (if k in histograms then Merge(histograms[k], p) else p)
      case None => (k in r <==> k in histograms) && (k in r ==> r[k] == histograms[k])
  {
    var es := Entries(data);
    EntriesComplete(data);
    HistogramStepsAt(data, histograms, es, k);
    if k in data {
      var i :| 0 <= i < |es| && es[i].0 == k;
    }
  }

  /** Entries whose keys carry neither prefix change neither accumulator; a counter entry never
      touches the histograms, and a histogram entry never touches the counters. */
  lemma PrefixesSeparate(data: Sample, counters: map<string, int>, histograms: map<string, Point>, k: string)
    requires k in data
    ensures !HasPrefix(k, MetricPrefixCounter) ==>
      (k in CountersAfter(data, counters) <==> k in counters) && Get0(CountersAfter(data, counters), k) == Get0(counters, k)
    ensures !HasPrefix(k, MetricPrefixHistogram) ==>
      (k in HistogramsAfter(data, histograms) <==> k in histograms)
      && (k in histograms ==> HistogramsAfter(data, histograms)[k] == histograms[k])
  {
    CountersAfterAt(data, counters, k);
    HistogramsAfterAt(data, histograms, k);
  }

  /** A sample with no prefixed keys leaves both accumulators exactly as they were. */
  lemma UnprefixedSampleIgnored(data: Sample, counters: map<string, int>, histograms: map<string, Point>)
    requires forall k :: k in data ==> !HasPrefix(k, MetricPrefixCounter) && !HasPrefix(k, MetricPrefixHistogram)
    ensures CountersAfter(data, counters) == counters
    ensures HistogramsAfter(data, histograms) == histograms
  {
    var c := CountersAfter(data, counters);
    forall k ensures (k in c <==> k in counters) && (k in c ==> c[k] == counters[k]) {
      CountersAfterAt(data, counters, k);
    }
    assert c.Keys == counters.Keys;
    var h := HistogramsAfter(data, histograms);
    forall k ensures (k in h <==> k in histograms) && (k in h ==> h[k] == histograms[k]) {
      HistogramsAfterAt(data, histograms, k);
    }
    assert h.Keys == histograms.Keys;
  }

  /** The references of an accumulator are pairwise distinct objects. */
  predicate Distinct(h: map<string, HistogramPoint>) {
    forall k1, k2 :: k1 in h && k2 in h && k1 != k2 ==> h[k1] != h[k2]
  }

  /** The values the accumulator's points hold. */
  function Snapshot(h: map<string, HistogramPoint>): (s: map<string, Point>)
    reads h.Values
    ensures s.Keys == h.Keys && forall k :: k in h ==> s[k] == h[k].Value()
  {
    map k | k in h :: h[k].Value()
  }

  /** Adds `p` into the point stored under `key`; as the points are distinct, no other key's
      value changes. */
  method AddAt(h: map<string, HistogramPoint>, key: string, p: HistogramPoint)
    requires Distinct(h) && key in h
    modifies h[key]
    ensures Snapshot(h) == old(Snapshot(h))[key := Merge(old(h[key].Value()), old(p.Value()))]
  {
    ghost var before := Snapshot(h);
    h[key].Add(p);
    forall k | k in h && k != key
      ensures h[k].Value() == before[k]
    {
      assert h[k] != h[key];
    }
  }

  /** One pass of CollectHistograms' loop: a well-formed "h_" sample becomes a new point when
      the key is new and is added into the stored point, in place, otherwise. */
  method CollectHistogramEntry(h: map<string, HistogramPoint>, key: string, value: Raw) returns (r: map<string, HistogramPoint>)
    requires Distinct(h)
    modifies h.Values
    ensures Distinct(r)
    ensures forall k :: k in h ==> k in r && r[k] == h[k]
    ensures forall o :: o in r.Values ==> o in h.Values || fresh(o)
    ensures Snapshot(r) == HistogramStep(old(Snapshot(h)), key, value)
  {
    ghost var before := Snapshot(h);
    r := h;
    if HasPrefix(key, MetricPrefixHistogram) {
      if value.List? {
        var parsed := NewHistogramPoint(key, value.items);
        if parsed.Some? {
          var newGram := new HistogramPoint(parsed.value);
          if key in r {
            AddAt(r, key, newGram);
          } else {
            r := r[key := newGram];
            assert Snapshot(r) == before[key := parsed.value];
          }
        }
      }
    }
  }

  /** CollectHistograms: folds every entry of one instance's sample into the accumulator. */
  method CollectHistograms(data: Sample, histograms: map<string, HistogramPoint>) returns (r: map<string, HistogramPoint>)
    requires Distinct(histograms)
    modifies histograms.Values
    ensures Distinct(r)
    ensures forall o :: o in r.Values ==> o in histograms.Values || fresh(o)
    ensures Snapshot(r) == HistogramsAfter(data, old(Snapshot(histograms)))
  {
    var es := Entries(data);
    ghost var start := Snapshot(histograms);
    r := histograms;
    var i := 0;
    while i < |es|
      invariant i <= |es|
      invariant Distinct(r)
      invariant forall o :: o in r.Values ==> o in histograms.Values || fresh(o)
      invariant Snapshot(r) == HistogramSteps(start, es[..i])
    {
      HistogramStepsPrefix(start, es, i);
      r := CollectHistogramEntry(r, es[i].0, es[i].1);
      i := i + 1;
    }
    assert es[..i] == es;
  }

  // ---------------------------------------------------------------------------------------
  // Aggregation over all instances of a service (the exporters fold every instance in turn)

  /** The samples of a service's instances, in the order a loop over the instance map visits
      them. */
  function InstanceSamples(instances: map<string, Sample>): (r: seq<Sample>)
    ensures |r| == |instances|
  {
    var es := Entries(instances);
    seq(|es|, i requires 0 <= i < |es| => es[i].1)
  }

  /** Counters after folding the samples in order into `counters`. */
  function CountersOver(counters: map<string, int>, samples: seq<Sample>): map<string, int> {
    if samples == [] then counters
    else CountersAfter(samples[|samples| - 1], CountersOver(counters, samples[..|samples| - 1]))
  }

  /** The sum of the last readings a counter key has across the samples. */
  function SumReadings(samples: seq<Sample>, k: string): int {
    if samples == [] then 0 else SumReadings(samples[..|samples| - 1], k) + ReadingOf(k, samples[|samples| - 1])
  }

  predicate SomeReading(samples: seq<Sample>, k: string) {
    exists i :: 0 <= i < |samples| && CounterEntry(k, samples[i])
  }

  lemma SomeReadingSnoc(samples: seq<Sample>, k: string)
    requires samples != []
    ensures SomeReading(samples, k) <==>
      SomeReading(samples[..|samples| - 1], k) || CounterEntry(k, samples[|samples| - 1])
  {
    var init := samples[..|samples| - 1];
    if SomeReading(samples, k) && !CounterEntry(k, samples[|samples| - 1]) {
      var i :| 0 <= i < |samples| && CounterEntry(k, samples[i]);
      assert CounterEntry(k, init[i]);
    }
    if SomeReading(init, k) {
      var i :| 0 <= i < |init| && CounterEntry(k, init[i]);
      assert CounterEntry(k, samples[i]);
    }
  }

  /** Over several instances a counter is the sum of their last readings, and a key is present
      exactly when it was already present or some instance reported a well-formed reading. */
  lemma {:induction false} CountersOverAt(counters: map<string, int>, samples: seq<Sample>, k: string)
    ensures k in CountersOver(counters, samples) <==> k in counters || SomeReading(samples, k)
    ensures Get0(CountersOver(counters, samples), k) == Get0(counters, k) + SumReadings(samples, k)
  {
    if samples != [] {
      var init, last := samples[..|samples| - 1], samples[|samples| - 1];
      var before := CountersOver(counters, init);
      CountersOverAt(counters, init, k);
      CountersAfterAt(last, before, k);
      SomeReadingSnoc(samples, k);
      assert CountersOver(counters, samples) == CountersAfter(last, before);
    }
  }

  /** Only counter keys are ever folded into the counters: a histogram or unprefixed key never
      appears there. */
  lemma CountersOverPrefixed(samples: seq<Sample>, k: string)
    requires k in CountersOver(map[], samples)
    ensures HasPrefix(k, MetricPrefixCounter)
  {
    CountersOverAt(map[], samples, k);
    var i :| 0 <= i < |samples| && CounterEntry(k, samples[i]);
  }

  lemma CountersOverPrefix(samples: seq<Sample>, i: int)
    requires 0 <= i < |samples|
    ensures CountersOver(map[], samples[..i + 1]) == CountersAfter(samples[i], CountersOver(map[], samples[..i]))
  {
    assert samples[..i + 1][..i] == samples[..i];
  }

  lemma HistogramsOverPrefix(samples: seq<Sample>, i: int)
    requires 0 <= i < |samples|
    ensures HistogramsOver(map[], samples[..i + 1]) == HistogramsAfter(samples[i], HistogramsOver(map[], samples[..i]))
  {
    assert samples[..i + 1][..i] == samples[..i];
  }

  /** The loop the exporters run over a service's instances for its counters: every sample
      folded in turn, from an empty map. */
  method CollectCounters(instances: map<string, Sample>) returns (counters: map<string, int>)
    ensures counters == CountersOver(map[], InstanceSamples(instances))
  {
    var samples := InstanceSamples(instances);
    counters := map[];
    assert samples[..|samples|] == samples;
    for i := 0 to |samples|
      invariant counters == CountersOver(map[], samples[..i])
    {
      CountersOverPrefix(samples, i);
      counters := CollectInstanceCounters(samples[i], counters);
    }
  }

  /** Histograms after folding the samples in order into `histograms` (as values). */
  function HistogramsOver(histograms: map<string, Point>, samples: seq<Sample>): map<string, Point> {
    if samples == [] then histograms
    else HistogramsAfter(samples[|samples| - 1], HistogramsOver(histograms, samples[..|samples| - 1]))
  }

  /** A point folded with the next sample's point, if any: the first one is taken as it is. */
  function Combine(acc: Option<Point>, next: Option<Point>): Option<Point> {
    match (acc, next)
    case (None, _) => next
    case (Some(a), None) => acc
    case (Some(a), Some(p)) => Some(Merge(a, p))
  }

  /** The point a histogram key ends with, starting from `start`: the chain of merges of every
      well-formed sample of that key, in instance order. */
  function MergedPoint(start: Option<Point>, samples: seq<Sample>, k: string): Option<Point> {
    if samples == [] then start
    else Combine(MergedPoint(start, samples[..|samples| - 1], k), ParsedPoint(k, samples[|samples| - 1]))
  }

  function At(histograms: map<string, Point>, k: string): Option<Point> {
    if k in histograms then Some(histograms[k]) else None
  }

  /** Every key's point over several instances is the merge chain of its well-formed samples. */
  lemma {:induction false} HistogramsOverAt(histograms: map<string, Point>, samples: seq<Sample>, k: string)
    ensures At(HistogramsOver(histograms, samples), k) == MergedPoint(At(histograms, k), samples, k)
  {
    if samples != [] {
      var init, last := samples[..|samples| - 1], samples[|samples| - 1];
      HistogramsOverAt(histograms, init, k);
      HistogramsAfterAt(last, HistogramsOver(histograms, init), k);
    }
  }

  /** With a single instance a histogram key holds exactly the point that instance reported:
      nothing is averaged. */
  lemma SingleInstanceHistograms(s: Sample, k: string)
    ensures At(HistogramsOver(map[], [s]), k) == ParsedPoint(k, s)
  {
    HistogramsOverAt(map[], [s], k);
    assert [s][..0] == [];
  }

  /** Every stored point carries the key it is stored under. */
  predicate KeyedBy(histograms: map<string, Point>) {
    forall k :: k in histograms ==> histograms[k].key == k
  }

  lemma {:induction false} MergedPointKeyed(start: Option<Point>, samples: seq<Sample>, k: string)
    requires start.Some? ==> start.value.key == k
    ensures MergedPoint(start, samples, k).Some? ==> MergedPoint(start, samples, k).value.key == k
  {
    if samples != [] {
      MergedPointKeyed(start, samples[..|samples| - 1], k);
    }
  }

  /** Folding samples in keeps every point under its own key. */
  lemma HistogramsOverKeyed(histograms: map<string, Point>, samples: seq<Sample>)
    requires KeyedBy(histograms)
    ensures KeyedBy(HistogramsOver(histograms, samples))
  {
    var r := HistogramsOver(histograms, samples);
    forall k | k in r ensures r[k].key == k {
      HistogramsOverAt(histograms, samples, k);
      MergedPointKeyed(At(histograms, k), samples, k);
    }
  }
}
