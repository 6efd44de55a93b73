/** The client-side configuration cache (client/ccentral.go): a service registers its schema,
    and reads options through a cache that is refreshed from the store at most once per check
    interval. The first refresh pushes the schema to the store. The store's answers and the
    current time (Unix seconds) are parameters of each call. */
module Client {
  import opened Wrappers
  import opened Strconv
  import Server

  /** The store as the cache sees it: its answer to a schema push (an error or nothing), and
      its answer to a configuration read. */
  datatype Store = Store(setSchema: (string, map<string, Server.SchemaItem>) -> Option<string>,
                         getConfig: string -> Result<Server.Config>)

  /** The cache's changing state. */
  datatype CacheState = CacheState(lastCheck: int, config: Server.Config, schema: map<string, Server.SchemaItem>)

  /** ForceUpdateConfig on the state: before the first successful check (lastCheck == 0) the
      schema is pushed, and a failed push ends the refresh with that error; then the
      configuration is read. Either way lastCheck becomes `now`; the configuration is replaced
      only by a successful read. */
  function ForceUpdate(st: CacheState, serviceID: string, now: int, store: Store): (CacheState, Option<string>) {
    var pushed := if st.lastCheck == 0 then store.setSchema(serviceID, st.schema) else None;
    if pushed.Some? then (st.(lastCheck := now), pushed)
    else
      match store.getConfig(serviceID)
      case Err(e) => (st.(lastCheck := now), Some(e))
      case Ok(c) => (st.(lastCheck := now, config := c), None)
  }

  /** Whether the check interval has passed since the last check. */
  predicate Due(st: CacheState, interval: int, now: int) {
    now - interval > st.lastCheck
  }

  /** UpdateConfig on the state: a refresh when due, otherwise nothing and no error. */
  function Update(st: CacheState, interval: int, serviceID: string, now: int, store: Store): (CacheState, Option<string>) {
    if Due(st, interval, now) then ForceUpdate(st, serviceID, now, store) else (st, None)
  }

  /** GetConfig's answer from the state: an error for an option without a schema entry;
      otherwise the configured value when there is a non-empty one, else the schema default. */
  function Lookup(st: CacheState, configID: string): (r: Result<string>)
    ensures r.Err? <==> configID !in st.schema
    ensures r.Err? ==> r.error == "Schema has not been defined for option " + configID
    ensures r.Ok? && configID in st.config && |st.config[configID].value| > 0 ==> r.value == st.config[configID].value
    ensures r.Ok? && (configID !in st.config || st.config[configID].value == "") ==> r.value == st.schema[configID].default
  {
    if configID !in st.schema then Err("Schema has not been defined for option " + configID)
    else if configID in st.config && |st.config[configID].value| > 0 then Ok(st.config[configID].value)
    else Ok(st.schema[configID].default)
  }

  /** GetConfigBool's answer from a looked-up value: false together with any error. */
  function AsBool(v: Result<string>): (r: (bool, Option<string>))
    ensures r.1.Some? ==> !r.0
    ensures r.1.None? <==> v.Ok? && ParseBool(v.value).Ok?
    ensures r.1.None? ==> r.0 == ParseBool(v.value).value
  {
    match v
    case Err(e) => (false, Some(e))
    case Ok(s) =>
      match ParseBool(s)
      case Err(e) => (false, Some(e))
      case Ok(b) => (b, None)
  }

  /** GetConfigInt's answer from a looked-up value: 0 together with any error. */
  function AsInt(v: Result<string>): (r: (int, Option<string>))
    ensures r.1.Some? ==> r.0 == 0
    ensures r.1.None? <==> v.Ok? && Atoi(v.value).Ok?
    ensures r.1.None? ==> r.0 == Atoi(v.value).value
  {
    match v
    case Err(e) => (0, Some(e))
    case Ok(s) =>
      match Atoi(s)
      case Err(e) => (0, Some(e))
      case Ok(n) => (n, None)
  }

  /** The configuration cache of one service. */
  class CCentralService {
    var checkIntervalSeconds: int
    var lastCheck: int
    var serviceID: string
    var config: Server.Config
    var schema: map<string, Server.SchemaItem>

    function State(): CacheState
      reads this
    {
      CacheState(lastCheck, config, schema)
    }

    /** InitCCentralService: empty schema and configuration, never checked. */
    constructor (serviceID: string)
      ensures State() == CacheState(0, map[], map[])
      ensures this.serviceID == serviceID && checkIntervalSeconds == 0
    {
      this.serviceID := serviceID;
      checkIntervalSeconds := 0;
      lastCheck := 0;
      config := map[];
      schema := map[];
    }

    /** AddSchema: sets one schema entry and changes nothing else. */
    method AddSchema(configID: string, defaultValue: string, valueType: string, title: string, description: string)
      modifies this
      ensures schema == old(schema)[configID := Server.SchemaItem(defaultValue, valueType, title, description)]
      ensures lastCheck == old(lastCheck) && config == old(config)
      ensures serviceID == old(serviceID) && checkIntervalSeconds == old(checkIntervalSeconds)
    {
      schema := schema[configID := Server.SchemaItem(defaultValue, valueType, title, description)];
    }

    method UpdateConfig(now: int, store: Store) returns (err: Option<string>)
      modifies this
      ensures (State(), err) == Update(old(State()), checkIntervalSeconds, serviceID, now, store)
      ensures serviceID == old(serviceID) && checkIntervalSeconds == old(checkIntervalSeconds)
    {
      if now - checkIntervalSeconds > lastCheck {
        err := ForceUpdateConfig(now, store);
        return;
      }
      return None;
    }

    method ForceUpdateConfig(now: int, store: Store) returns (err: Option<string>)
      modifies this
      ensures (State(), err) == ForceUpdate(old(State()), serviceID, now, store)
      ensures serviceID == old(serviceID) && checkIntervalSeconds == old(checkIntervalSeconds)
    {
      if lastCheck == 0 {
        var pushErr := store.setSchema(serviceID, schema);
        if pushErr.Some? {
          lastCheck := now;
          return pushErr;
        }
      }
      var fetched := store.getConfig(serviceID);
      lastCheck := now;
      if fetched.Err? {
        return Some(fetched.error);
      }
      config := fetched.value;
      return None;
    }

    /** GetConfig: refreshes when due (ignoring a failed refresh), then looks the option up. */
    method GetConfig(configID: string, now: int, store: Store) returns (r: Result<string>)
      modifies this
      ensures State() == Update(old(State()), checkIntervalSeconds, serviceID, now, store).0
      ensures r == Lookup(State(), configID)
      ensures serviceID == old(serviceID) && checkIntervalSeconds == old(checkIntervalSeconds)
    {
      var _ := UpdateConfig(now, store);
      if configID !in schema {
        return Err("Schema has not been defined for option " + configID);
      }
      if configID in config {
        var valueItem := config[configID];
        if |valueItem.value| > 0 {
          return Ok(valueItem.value);
        }
      }
      return Ok(schema[configID].default);
    }

    method GetConfigBool(configID: string, now: int, store: Store) returns (value: bool, err: Option<string>)
      modifies this
      ensures State() == Update(old(State()), checkIntervalSeconds, serviceID, now, store).0
      ensures (value, err) == AsBool(Lookup(State(), configID))
      ensures serviceID == old(serviceID) && checkIntervalSeconds == old(checkIntervalSeconds)
    {
      var s := GetConfig(configID, now, store);
      if s.Err? {
        return false, Some(s.error);
      }
      var b := ParseBool(s.value);
      if b.Err? {
        return false, Some(b.error);
      }
      return b.value, None;
    }

    method GetConfigInt(configID: string, now: int, store: Store) returns (value: int, err: Option<string>)
      modifies this
      ensures State() == Update(old(State()), checkIntervalSeconds, serviceID, now, store).0
      ensures (value, err) == AsInt(Lookup(State(), configID))
      ensures serviceID == old(serviceID) && checkIntervalSeconds == old(checkIntervalSeconds)
    {
      var s := GetConfig(configID, now, store);
      if s.Err? {
        return 0, Some(s.error);
      }
      var n := Atoi(s.value);
      if n.Err? {
        return 0, Some(n.error);
      }
      return n.value, None;
    }
  }

  // ---------------------------------------------------------------------------------------
  // Properties of the cache

  /** Before the interval has passed nothing is read or written and there is no error. */
  lemma NotDueChangesNothing(st: CacheState, interval: int, serviceID: string, now: int, store: Store)
    requires !Due(st, interval, now)
    ensures Update(st, interval, serviceID, now, store) == (st, None)
  {
  }

  /** A failed first schema push records the check time, returns the push error and keeps the
      configuration and schema. */
  lemma FirstPushFailure(st: CacheState, serviceID: string, now: int, store: Store)
    requires st.lastCheck == 0 && store.setSchema(serviceID, st.schema).Some?
    ensures ForceUpdate(st, serviceID, now, store) == (st.(lastCheck := now), store.setSchema(serviceID, st.schema))
  {
  }

  /** Every refresh records the check time and never touches the schema; the configuration is
      replaced exactly by a successful read, and an error is returned exactly when the push or
      the read failed. */
  lemma RefreshOutcome(st: CacheState, serviceID: string, now: int, store: Store)
    ensures var (st', err) := ForceUpdate(st, serviceID, now, store);
      var pushFailed := st.lastCheck == 0 && store.setSchema(serviceID, st.schema).Some?;
      st'.lastCheck == now && st'.schema == st.schema
      && (err.None? <==> !pushFailed && store.getConfig(serviceID).Ok?)
      && (st'.config == if err.None? then store.getConfig(serviceID).value else st.config)
  {
  }

  /** Once a check has been recorded (lastCheck != 0) the schema is not pushed again: the
      refresh does not depend on the store's push answer. */
  lemma SchemaPushedOnlyBeforeFirstCheck(st: CacheState, serviceID: string, now: int, store: Store,
                                         push: (string, map<string, Server.SchemaItem>) -> Option<string>)
    requires st.lastCheck != 0
    ensures ForceUpdate(st, serviceID, now, store) == ForceUpdate(st, serviceID, now, store.(setSchema := push))
  {
  }

  /** With a non-negative interval, asking again at the same moment does nothing: the first
      call either refreshed (recording `now`) or was not due. */
  lemma UpdateIdempotent(st: CacheState, interval: int, serviceID: string, now: int, store: Store, store2: Store)
    requires interval >= 0
    ensures var st' := Update(st, interval, serviceID, now, store).0;
      Update(st', interval, serviceID, now, store2) == (st', None)
  {
  }

  /** After AddSchema an option can be looked up: it yields the configured non-empty value or
      else the new default, and lookups of other options are unaffected. */
  lemma LookupAfterAddSchema(st: CacheState, configID: string, item: Server.SchemaItem, other: string)
    requires other != configID
    ensures var st' := st.(schema := st.schema[configID := item]);
      Lookup(st', configID).Ok?
      && (configID !in st.config || st.config[configID].value == "" ==> Lookup(st', configID).value == item.default)
      && Lookup(st', other) == Lookup(st, other)
  {
  }

  /** An integer option written with Itoa reads back as that integer. */
  lemma IntOptionRoundTrip(st: CacheState, configID: string, n: int)
    requires configID in st.schema && configID in st.config && st.config[configID].value == Itoa(n)
    requires MinInt64 <= n <= MaxInt64
    ensures AsInt(Lookup(st, configID)) == (n, None)
  {
    AtoiItoa(n);
  }
}
