/** The store side of the client package (client/server.go): the configuration types, the
    version bump done on every configuration write, and how listings of the store's directory
    nodes become service ids, instance maps and configuration maps. The store itself is not
    modelled: each operation receives the store's answer (a node listing or the error text). */
module Server {
  import opened Wrappers
  import opened Text
  import opened Strconv
  import opened Records

  datatype SchemaItem = SchemaItem(default: string, itemType: string, title: string, description: string)

  /** A configuration value and the time (Unix seconds) it was last changed. */
  datatype ConfigItem = ConfigItem(value: string, changed: int)

  type Config = map<string, ConfigItem>

  /** One child node of a store directory: its full key path and its value. */
  datatype Node = Node(key: string, value: string)

  /** A successful read of the store: the node's own value and its children, in the order the
      store lists them. */
  datatype Response = Response(value: string, nodes: seq<Node>)

  /** What json.Unmarshal leaves in its target, and the error it reports. */
  datatype Decoded<T> = Decoded(value: T, err: Option<string>)

  /** The read interface the exporters use (CCServerReadApi): the service list and, per
      service, its instances' metric samples, each either a value or an error. */
  datatype ReadApi = ReadApi(serviceList: Result<seq<string>>, instanceList: string -> Result<map<string, Sample>>)

  /** errors.Wrap: the message, a colon, then the cause. */
  function Wrap(msg: string, cause: string): string {
    msg + ": " + cause
  }

  const VersionKey: string := "v"

  // ---------------------------------------------------------------------------------------
  // Version bump

  /** The number the version counts up from: config["v"] parsed as a decimal `int`, or 1 when
      the entry is missing (the zero item has an empty value) or does not parse. */
  function VersionBase(config: Config): int {
    var current := if VersionKey in config then config[VersionKey].value else "";
    match Atoi(current)
    case Ok(n) => n
    case Err(_) => 1
  }

  /** The version string incrementVersion writes: the base plus one, in 64-bit `int`. */
  function NextVersion(config: Config): string {
    Itoa(Wrap64(VersionBase(config) + 1))
  }

  /** incrementVersion: config["v"] becomes the next version, stamped with `now`; the map is
      updated in place in the source, so the model returns the updated map. */
  method IncrementVersion(config: Config, now: int) returns (updated: Config, version: string)
    ensures version == NextVersion(config)
    ensures VersionKey in updated && updated[VersionKey] == ConfigItem(version, now)
    ensures forall k :: k != VersionKey ==> (k in updated <==> k in config)
    ensures forall k :: k != VersionKey && k in config ==> updated[k] == config[k]
  {
    var item := if VersionKey in config then config[VersionKey] else ConfigItem("", 0);
    var value: int;
    var parsed := Atoi(item.value);
    if parsed.Err? {
      value := 1;
    } else {
      value := parsed.value;
    }
    assert value == VersionBase(config);
    item := item.(value := Itoa(Wrap64(value + 1)));
    item := item.(changed := now);
    updated := config[VersionKey := item];
    version := item.value;
  }

  /** A version that reads as a number n below the largest `int` is followed by n + 1. */
  lemma NextVersionCounts(config: Config, n: int)
    requires VersionKey in config && Atoi(config[VersionKey].value) == Ok(n)
    requires n < MaxInt64
    ensures NextVersion(config) == Itoa(n + 1)
    ensures Atoi(NextVersion(config)) == Ok(n + 1)
  {
    AtoiItoa(n + 1);
  }

  /** A missing or unparseable version is followed by "2". */
  lemma NextVersionDefault(config: Config)
    requires VersionKey !in config || Atoi(config[VersionKey].value).Err?
    ensures NextVersion(config) == "2"
  {
    assert Atoi("").Err?;
    assert Itoa(2) == [DigitChar(2)];
  }

  /** Bumping a version the bump itself wrote counts on by one, and a bumped version always
      parses back. */
  lemma {:induction false} BumpAfterBump(config: Config, now: int)
    requires VersionBase(config) + 1 < MaxInt64
    ensures Atoi(NextVersion(config)) == Ok(VersionBase(config) + 1)
    ensures NextVersion(config[VersionKey := ConfigItem(NextVersion(config), now)]) == Itoa(VersionBase(config) + 2)
  {
    var b := VersionBase(config);
    assert MinInt64 <= b by {
      var current := if VersionKey in config then config[VersionKey].value else "";
    }
    AtoiItoa(b + 1);
    NextVersionCounts(config[VersionKey := ConfigItem(NextVersion(config), now)], b + 1);
  }

  /** At the top of the range the counter wraps to the smallest `int`, as Go's `int` does. */
  lemma NextVersionWraps(config: Config, n: int)
    requires VersionKey in config && Atoi(config[VersionKey].value) == Ok(n) && n == MaxInt64
    ensures Atoi(NextVersion(config)) == Ok(MinInt64)
  {
    var m := Wrap64(n + 1);
    assert m == MinInt64;
    AtoiItoa(m);
  }

  // ---------------------------------------------------------------------------------------
  // Reading configuration and schema

  /** GetConfig: a "100: Key not found" error means the service has no configuration yet (an
      empty map); any other read error is wrapped; a stored value is decoded, and a decoding
      error is reported. */
  function GetConfig(answer: Result<Response>, decode: string -> Decoded<Config>): (r: Result<Config>)
    ensures answer.Err? && Contains(answer.error, "100: Key not found") ==> r == Ok(map[])
    ensures answer.Err? && !Contains(answer.error, "100: Key not found") ==>
      r == Err(Wrap("Configuration could not be loaded", answer.error))
    ensures answer.Ok? ==> (r.Ok? <==> decode(answer.value.value).err.None?)
    ensures answer.Ok? && r.Ok? ==> r.value == decode(answer.value.value).value
  {
    match answer
    case Err(e) =>
      if Contains(e, "100: Key not found") then Ok(map[])
      else Err(Wrap("Configuration could not be loaded", e))
    case Ok(resp) =>
      var d := decode(resp.value);
      if d.err.Some? then Err(d.err.value) else Ok(d.value)
  }

  /** GetSchema: a read error is returned as it is; otherwise the decoded schema, or the
      decoding error. */
  function GetSchema(answer: Result<Response>, decode: string -> Decoded<map<string, SchemaItem>>): (r: Result<map<string, SchemaItem>>)
    ensures answer.Err? ==> r == Err(answer.error)
    ensures answer.Ok? ==> (r.Ok? <==> decode(answer.value.value).err.None?)
    ensures answer.Ok? && r.Ok? ==> r.value == decode(answer.value.value).value
  {
    match answer
    case Err(e) => Err(e)
    case Ok(resp) =>
      var d := decode(resp.value);
      if d.err.Some? then Err(d.err.value) else Ok(d.value)
  }

  // ---------------------------------------------------------------------------------------
  // Writing configuration

  /** SetConfigItem: given the configuration read from the store (or the read error), set
      `keyID` to (`value`, `now`), bump the version and write the result back. `written` is
      what is handed to the store (nothing when the read failed); `writeError` is the store's
      answer to that write. On success the bumped version is returned. */
  method SetConfigItem(fetched: Result<Config>, keyID: string, value: string, now: int, writeError: Option<string>)
    returns (written: Option<Config>, r: Result<string>)
    ensures fetched.Err? ==> written == None && r == Err(Wrap("Could not retrieve service configuration", fetched.error))
    ensures fetched.Ok? ==> written.Some?
    ensures written.Some? ==>
      written.value == Stored(fetched.value, keyID, value, now)
    ensures written.Some? && writeError.Some? ==> r == Err(Wrap("Could not update configuration", writeError.value))
    ensures written.Some? && writeError.None? ==> r == Ok(written.value[VersionKey].value)
  {
    if fetched.Err? {
      return None, Err(Wrap("Could not retrieve service configuration", fetched.error));
    }
    var c := fetched.value[keyID := ConfigItem(value, now)];
    var version;
    c, version := IncrementVersion(c, now);
    written := Some(c);
    if writeError.Some? {
      return written, Err(Wrap("Could not update configuration", writeError.value));
    }
    r := Ok(version);
  }

  /** The write SetConfigItem makes on the store's behalf, given the configuration read. */
  function Stored(config: Config, keyID: string, value: string, now: int): Config {
    var withItem := config[keyID := ConfigItem(value, now)];
    withItem[VersionKey := ConfigItem(NextVersion(withItem), now)]
  }

  /** What a successful write stores: the new item under its key (unless the key is "v",
      which the bump then overwrites with the value it read plus one), the bumped version under
      "v", and every other key as read. */
  lemma StoredContents(config: Config, keyID: string, value: string, now: int)
    ensures keyID != VersionKey ==> keyID in Stored(config, keyID, value, now) && Stored(config, keyID, value, now)[keyID] == ConfigItem(value, now)
    ensures keyID == VersionKey && Atoi(value).Ok? && Atoi(value).value < MaxInt64 ==>
      Atoi(Stored(config, keyID, value, now)[VersionKey].value) == Ok(Atoi(value).value + 1)
    ensures VersionKey in Stored(config, keyID, value, now) && Stored(config, keyID, value, now)[VersionKey].changed == now
    ensures forall k :: k != keyID && k != VersionKey ==>
      (k in Stored(config, keyID, value, now) <==> k in config)
      && (k in config ==> Stored(config, keyID, value, now)[k] == config[k])
  {
    var withItem := config[keyID := ConfigItem(value, now)];
    if keyID == VersionKey && Atoi(value).Ok? && Atoi(value).value < MaxInt64 {
      NextVersionCounts(withItem, Atoi(value).value);
    }
  }

  // ---------------------------------------------------------------------------------------
  // Listings

  /** The loop shared by every service listing: each node key's last '/'-segment, in node
      order. */
  method LastSegments(nodes: seq<Node>) returns (ids: seq<string>)
    ensures |ids| == |nodes|
    ensures forall i :: 0 <= i < |nodes| ==> ids[i] == LastSegment(nodes[i].key)
  {
    ids := [];
    for i := 0 to |nodes|
      invariant |ids| == i
      invariant forall j :: 0 <= j < i ==> ids[j] == LastSegment(nodes[j].key)
    {
      var key := nodes[i].key;
      ids := ids + [LastSegment(key)];
    }
  }

  /** The map a loop builds by storing f(value) under each node key's last segment; a later
      node with the same segment overwrites an earlier one. */
  function Indexed<T>(nodes: seq<Node>, f: string -> T): map<string, T> {
    if nodes == [] then map[]
    else Indexed(nodes[..|nodes| - 1], f)[LastSegment(nodes[|nodes| - 1].key) := f(nodes[|nodes| - 1].value)]
  }

  /** Some node's key ends in the segment `k`. */
  predicate Listed(nodes: seq<Node>, k: string) {
    exists i :: 0 <= i < |nodes| && LastSegment(nodes[i].key) == k
  }

  /** Node `j` is the last node whose key ends in the segment `k`. */
  predicate LastWith(nodes: seq<Node>, k: string, j: int) {
    0 <= j < |nodes| && LastSegment(nodes[j].key) == k
    && forall i :: j < i < |nodes| ==> LastSegment(nodes[i].key) != k
  }

  lemma ListedSnoc(nodes: seq<Node>, k: string)
    requires nodes != []
    ensures Listed(nodes, k) <==> Listed(nodes[..|nodes| - 1], k) || LastSegment(nodes[|nodes| - 1].key) == k
  {
    var init := nodes[..|nodes| - 1];
    if Listed(nodes, k) && LastSegment(nodes[|nodes| - 1].key) != k {
      var i :| 0 <= i < |nodes| && LastSegment(nodes[i].key) == k;
      assert LastSegment(init[i].key) == k;
    }
    if Listed(init, k) {
      var i :| 0 <= i < |init| && LastSegment(init[i].key) == k;
      assert LastSegment(nodes[i].key) == k;
    }
  }

  /** A key is in the map exactly when some node's last segment is that key. */
  lemma {:induction false} IndexedKeys<T>(nodes: seq<Node>, f: string -> T, k: string)
    ensures k in Indexed(nodes, f) <==> Listed(nodes, k)
  {
    if nodes != [] {
      IndexedKeys(nodes[..|nodes| - 1], f, k);
      ListedSnoc(nodes, k);
    }
  }

  /** Each key holds f of the value of the last node whose key ends in it: a later node with
      the same segment overwrites an earlier one. */
  lemma {:induction false} IndexedValue<T>(nodes: seq<Node>, f: string -> T, k: string, j: int)
    requires LastWith(nodes, k, j)
    ensures k in Indexed(nodes, f) && Indexed(nodes, f)[k] == f(nodes[j].value)
  {
    var init := nodes[..|nodes| - 1];
    if j < |nodes| - 1 {
      assert LastWith(init, k, j);
      IndexedValue(init, f, k, j);
    }
  }

  /** The loop of the instance and info listings. */
  method IndexByLastSegment<T>(nodes: seq<Node>, f: string -> T) returns (m: map<string, T>)
    ensures m == Indexed(nodes, f)
  {
    m := map[];
    assert nodes[..|nodes|] == nodes;
    for i := 0 to |nodes|
      invariant m == Indexed(nodes[..i], f)
    {
      assert nodes[..i + 1][..i] == nodes[..i];
      var last := LastSegment(nodes[i].key);
      m := m[last := f(nodes[i].value)];
    }
  }

  /** GetServiceList: the last segment of every service node, or the wrapped read error. */
  method GetServiceList(answer: Result<Response>) returns (r: Result<seq<string>>)
    ensures answer.Err? ==> r == Err(Wrap("Could not get service list", answer.error))
    ensures answer.Ok? ==> r.Ok? && |r.value| == |answer.value.nodes|
    ensures answer.Ok? ==> forall i :: 0 <= i < |r.value| ==> r.value[i] == LastSegment(answer.value.nodes[i].key)
  {
    if answer.Err? {
      return Err(Wrap("Could not get service list", answer.error));
    }
    var ids := LastSegments(answer.value.nodes);
    r := Ok(ids);
  }

  /** GetInstanceList: an error mentioning "Key not found" means no instances (an empty map);
      any other error is wrapped; otherwise every instance node is recorded under its last
      segment with whatever decoding left, whether or not decoding failed. */
  method GetInstanceList(answer: Result<Response>, decode: string -> Sample) returns (r: Result<map<string, Sample>>)
    ensures answer.Err? && Contains(answer.error, "Key not found") ==> r == Ok(map[])
    ensures answer.Err? && !Contains(answer.error, "Key not found") ==> r == Err(Wrap("Could not get instance list", answer.error))
    ensures answer.Ok? ==> r == Ok(Indexed(answer.value.nodes, decode))
  {
    if answer.Err? {
      if Contains(answer.error, "Key not found") {
        return Ok(map[]);
      }
      return Err(Wrap("Could not get instance list", answer.error));
    }
    var instances := IndexByLastSegment(answer.value.nodes, decode);
    r := Ok(instances);
  }

  /** GetServiceInfoList: like the instance listing, with the raw node values. */
  method GetServiceInfoList(answer: Result<Response>) returns (r: Result<map<string, string>>)
    ensures answer.Err? && Contains(answer.error, "Key not found") ==> r == Ok(map[])
    ensures answer.Err? && !Contains(answer.error, "Key not found") ==> r == Err(Wrap("Could not get service info list", answer.error))
    ensures answer.Ok? ==> r == Ok(Indexed(answer.value.nodes, s => s))
  {
    if answer.Err? {
      if Contains(answer.error, "Key not found") {
        return Ok(map[]);
      }
      return Err(Wrap("Could not get service info list", answer.error));
    }
    var info := IndexByLastSegment(answer.value.nodes, s => s);
    r := Ok(info);
  }

  /** The not-found rule matches the phrase anywhere in the store's error text. */
  lemma NotFoundAnywhere(prefix: string, suffix: string)
    ensures Contains(prefix + "Key not found" + suffix, "Key not found")
  {
    var s := prefix + "Key not found" + suffix;
    assert OccursAt(s, "Key not found", |prefix|) by {
      assert s[|prefix|..|prefix| + 13] == "Key not found";
    }
    ContainsIff(s, "Key not found");
  }
}
