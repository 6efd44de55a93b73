/** The HTTP daemon (ccentrald.go): the decisions its handlers make, given the store's answers.
    Sockets, routing and JSON encoding of the replies are not modelled; a reply is a status
    and, for failures, the error body written. */
module Daemon {
  import opened Wrappers
  import opened Text
  import Server
  import Central

  /** What an instance reports about itself; its timestamp passes through unchanged. */
  datatype InstanceItem = InstanceItem(version: string, timestamp: real)

  /** A handler's outcome: a failure with its status and body, or success with its content. */
  datatype Reply<T> = Fail(status: int, body: string) | Success(content: T)

  const StatusBadRequest := 400
  const StatusInternalServerError := 500

  /** writeInternalError's body. */
  function ErrorBody(msg: string): string {
    "{\"error\": \"" + msg + "\"}"
  }

  /** The item recorded for one instance node: what decoding yields, or the "problem" item
      with timestamp 0 when decoding fails. */
  function InstanceOrProblem(decoded: Option<InstanceItem>): (r: InstanceItem)
    ensures decoded.None? ==> r == InstanceItem("problem", 0.0)
    ensures decoded.Some? ==> r == decoded.value
  {
    match decoded
    case None => InstanceItem("problem", 0.0)
    case Some(i) => i
  }

  /** getInstanceList: the shared listing rule, with undecodable instances recorded as
      ("problem", 0). */
  method GetInstanceList(answer: Result<Server.Response>, decode: string -> Option<InstanceItem>)
    returns (r: Result<map<string, InstanceItem>>)
    ensures answer.Err? && Contains(answer.error, "Key not found") ==> r == Ok(map[])
    ensures answer.Err? && !Contains(answer.error, "Key not found") ==> r == Err(answer.error)
    ensures answer.Ok? ==> r == Ok(Server.Indexed(answer.value.nodes, v => InstanceOrProblem(decode(v))))
  {
    r := Central.GetInstanceList(answer, v => InstanceOrProblem(decode(v)));
  }

  /** Every listed instance is present, and one whose value does not decode is reported as a
      problem rather than dropped. */
  lemma UndecodableInstanceKept(nodes: seq<Server.Node>, decode: string -> Option<InstanceItem>, j: int)
    requires 0 <= j < |nodes| && Server.LastWith(nodes, LastSegment(nodes[j].key), j)
    requires decode(nodes[j].value).None?
    ensures var m := Server.Indexed(nodes, v => InstanceOrProblem(decode(v)));
      LastSegment(nodes[j].key) in m && m[LastSegment(nodes[j].key)] == InstanceItem("problem", 0.0)
  {
    Server.IndexedValue(nodes, v => InstanceOrProblem(decode(v)), LastSegment(nodes[j].key), j);
  }

  /** handleServiceList: the service ids, or status 500 when the store cannot be read. */
  method HandleServiceList(answer: Result<Server.Response>) returns (r: Reply<seq<string>>)
    ensures answer.Err? ==> r == Fail(StatusInternalServerError, ErrorBody("Could not retrieve configuration"))
    ensures answer.Ok? ==> r.Success? && |r.content| == |answer.value.nodes|
    ensures answer.Ok? ==> forall i :: 0 <= i < |r.content| ==> r.content[i] == LastSegment(answer.value.nodes[i].key)
  {
    if answer.Err? {
      return Fail(StatusInternalServerError, ErrorBody("Could not retrieve configuration"));
    }
    var ids := Server.LastSegments(answer.value.nodes);
    r := Success(ids);
  }

  /** handleItem: only PUT is accepted, and it is rejected before anything is read; then the
      configuration is read, the body becomes the key's value stamped with `now`, the version is
      bumped and the configuration written back. `written` is what is handed to the store. */
  method HandleItem(httpMethod: string, answer: Result<Server.Response>, decode: string -> Server.Decoded<Server.Config>,
                    keyID: string, body: Result<string>, now: int, writeError: Option<string>)
    returns (r: Reply<()>, written: Option<Server.Config>)
    ensures httpMethod != "PUT" ==> r == Fail(StatusBadRequest, ErrorBody("Allowed methods are: PUT")) && written == None
    ensures httpMethod == "PUT" && Central.GetConfig(answer, decode).Err? ==>
      r == Fail(StatusInternalServerError, ErrorBody("Could not retrieve service configuration")) && written == None
    ensures httpMethod == "PUT" && Central.GetConfig(answer, decode).Ok? && body.Err? ==>
      r == Fail(StatusInternalServerError, ErrorBody("Could not read body")) && written == None
    ensures httpMethod == "PUT" && Central.GetConfig(answer, decode).Ok? && body.Ok? ==>
      written == Some(Server.Stored(Central.GetConfig(answer, decode).value, keyID, body.value, now))
      && r == (if writeError.Some? then Fail(StatusInternalServerError, ErrorBody("Could not update configuration")) else Success(()))
  {
    if httpMethod != "PUT" {
      return Fail(StatusBadRequest, ErrorBody("Allowed methods are: PUT")), None;
    }
    var config := Central.GetConfig(answer, decode);
    if config.Err? {
      return Fail(StatusInternalServerError, ErrorBody("Could not retrieve service configuration")), None;
    }
    if body.Err? {
      return Fail(StatusInternalServerError, ErrorBody("Could not read body")), None;
    }
    var c := config.value[keyID := Server.ConfigItem(body.value, now)];
    var version;
    c, version := Server.IncrementVersion(c, now);
    assert c == Server.Stored(config.value, keyID, body.value, now);
    written := Some(c);
    if writeError.Some? {
      return Fail(StatusInternalServerError, ErrorBody("Could not update configuration")), written;
    }
    r := Success(());
  }

  /** A service as handleService returns it. */
  datatype ServiceView = ServiceView(schema: map<string, Server.SchemaItem>, config: Server.Config, instances: map<string, InstanceItem>)

  /** handleService: schema, then configuration, then instances; the first that fails decides
      the error reply, and a success carries the three as read (no instances when the store has
      none). */
  method HandleService(schemaAnswer: Result<Server.Response>, decodeSchema: string -> Server.Decoded<map<string, Server.SchemaItem>>,
                       configAnswer: Result<Server.Response>, decodeConfig: string -> Server.Decoded<Server.Config>,
                       instanceAnswer: Result<Server.Response>, decodeInstance: string -> Option<InstanceItem>)
    returns (r: Reply<ServiceView>)
    ensures schemaAnswer.Err? ==> r == Fail(StatusInternalServerError, ErrorBody("Could not retrieve service schema"))
    ensures schemaAnswer.Ok? && Central.GetConfig(configAnswer, decodeConfig).Err? ==>
      r == Fail(StatusInternalServerError, ErrorBody("Could not retrieve config"))
    ensures (schemaAnswer.Ok? && Central.GetConfig(configAnswer, decodeConfig).Ok?
             && instanceAnswer.Err? && !Contains(instanceAnswer.error, "Key not found")) ==>
      r == Fail(StatusInternalServerError, ErrorBody("Could not retrieve instances"))
    ensures schemaAnswer.Ok? && Central.GetConfig(configAnswer, decodeConfig).Ok? ==>
      (r.Success? <==> instanceAnswer.Ok? || Contains(instanceAnswer.error, "Key not found"))
    ensures r.Success? ==>
      r.content.schema == decodeSchema(schemaAnswer.value.value).value
      && r.content.config == Central.GetConfig(configAnswer, decodeConfig).value
      && r.content.instances == (if instanceAnswer.Err? then map[]
                                 else Server.Indexed(instanceAnswer.value.nodes, v => InstanceOrProblem(decodeInstance(v))))
  {
    var schema := Central.GetSchema(schemaAnswer, decodeSchema);
    if schema.Err? {
      return Fail(StatusInternalServerError, ErrorBody("Could not retrieve service schema"));
    }
    var config := Central.GetConfig(configAnswer, decodeConfig);
    if config.Err? {
      return Fail(StatusInternalServerError, ErrorBody("Could not retrieve config"));
    }
    var instances := GetInstanceList(instanceAnswer, decodeInstance);
    if instances.Err? {
      return Fail(StatusInternalServerError, ErrorBody("Could not retrieve instances"));
    }
    r := Success(ServiceView(schema.value, config.value, instances.value));
  }

  /** The command line's defaults: an empty store address and an empty port are replaced. */
  function Defaults(etcdHost: string, port: string): (r: (string, string))
    ensures r.0 == (if etcdHost == "" then "http://127.0.0.1:2379" else etcdHost)
    ensures r.1 == (if port == "" then "3000" else port)
  {
    (if etcdHost == "" then "http://127.0.0.1:2379" else etcdHost, if port == "" then "3000" else port)
  }
}
