/** The package-level store functions of the original command-line build (ccentral.go). They
    share the version bump and the listing loops with the client package's store, and differ
    in how they report errors: read errors are returned as they are, and decoding errors of the
    configuration and the schema are ignored. */
module Central {
  import opened Wrappers
  import opened Text
  import opened Records
  import Server

  /** GetServiceList: the last segment of every service node, or the read error itself. */
  method GetServiceList(answer: Result<Server.Response>) returns (r: Result<seq<string>>)
    ensures answer.Err? ==> r == Err(answer.error)
    ensures answer.Ok? ==> r.Ok? && |r.value| == |answer.value.nodes|
    ensures answer.Ok? ==> forall i :: 0 <= i < |r.value| ==> r.value[i] == LastSegment(answer.value.nodes[i].key)
  {
    if answer.Err? {
      return Err(answer.error);
    }
    var ids := Server.LastSegments(answer.value.nodes);
    r := Ok(ids);
  }

  /** GetInstanceList: an error mentioning "Key not found" means no instances, any other error
      is returned; otherwise each node is recorded under its last segment with whatever
      decoding it yields, failed or not. The daemon's listing uses the same rule. */
  method GetInstanceList<T>(answer: Result<Server.Response>, decode: string -> T) returns (r: Result<map<string, T>>)
    ensures answer.Err? && Contains(answer.error, "Key not found") ==> r == Ok(map[])
    ensures answer.Err? && !Contains(answer.error, "Key not found") ==> r == Err(answer.error)
    ensures answer.Ok? ==> r == Ok(Server.Indexed(answer.value.nodes, decode))
  {
    if answer.Err? {
      if Contains(answer.error, "Key not found") {
        return Ok(map[]);
      }
      return Err(answer.error);
    }
    var instances := Server.IndexByLastSegment(answer.value.nodes, decode);
    r := Ok(instances);
  }

  /** GetServiceInfoList: like the instance listing, with the raw node values. */
  method GetServiceInfoList(answer: Result<Server.Response>) returns (r: Result<map<string, string>>)
    ensures answer.Err? && Contains(answer.error, "Key not found") ==> r == Ok(map[])
    ensures answer.Err? && !Contains(answer.error, "Key not found") ==> r == Err(answer.error)
    ensures answer.Ok? ==> r == Ok(Server.Indexed(answer.value.nodes, s => s))
  {
    r := GetInstanceList(answer, s => s);
  }

  /** GetConfig: "100: Key not found" means an empty configuration, any other read error is
      returned, and a stored value yields what decoding left in the map even when decoding
      failed. */
  function GetConfig(answer: Result<Server.Response>, decode: string -> Server.Decoded<Server.Config>): (r: Result<Server.Config>)
    ensures answer.Err? ==> (r.Ok? <==> Contains(answer.error, "100: Key not found"))
    ensures answer.Err? && r.Ok? ==> r.value == map[]
    ensures answer.Err? && r.Err? ==> r.error == answer.error
    ensures answer.Ok? ==> r == Ok(decode(answer.value.value).value)
  {
    match answer
    case Err(e) => if Contains(e, "100: Key not found") then Ok(map[]) else Err(e)
    case Ok(resp) => Ok(decode(resp.value).value)
  }

  /** GetSchema: a read error is returned; a decoding error is ignored. */
  function GetSchema(answer: Result<Server.Response>, decode: string -> Server.Decoded<map<string, Server.SchemaItem>>): (r: Result<map<string, Server.SchemaItem>>)
    ensures answer.Err? ==> r == Err(answer.error)
    ensures answer.Ok? ==> r == Ok(decode(answer.value.value).value)
  {
    match answer
    case Err(e) => Err(e)
    case Ok(resp) => Ok(decode(resp.value).value)
  }

  /** Where the client package's store reports a configuration that fails to decode, this one
      goes on with what was decoded. */
  lemma DecodeErrorsIgnored(answer: Result<Server.Response>, decode: string -> Server.Decoded<Server.Config>)
    requires answer.Ok? && decode(answer.value.value).err.Some?
    ensures GetConfig(answer, decode).Ok? && Server.GetConfig(answer, decode).Err?
  {
  }

  /** SetConfigItem: the client package's write (same messages, same bump) over this file's
      configuration read. */
  method SetConfigItem(answer: Result<Server.Response>, decode: string -> Server.Decoded<Server.Config>, keyID: string,
                       value: string, now: int, writeError: Option<string>)
    returns (written: Option<Server.Config>, r: Result<string>)
    ensures GetConfig(answer, decode).Err? ==>
      written == None && r == Err("Could not retrieve service configuration: " + GetConfig(answer, decode).error)
    ensures GetConfig(answer, decode).Ok? ==> written == Some(Server.Stored(GetConfig(answer, decode).value, keyID, value, now))
    ensures written.Some? && writeError.Some? ==> r == Err("Could not update configuration: " + writeError.value)
    ensures written.Some? && writeError.None? ==> r == Ok(written.value[Server.VersionKey].value)
  {
    written, r := Server.SetConfigItem(GetConfig(answer, decode), keyID, value, now, writeError);
  }
}
