/** The older copy of the configuration cache (client.go). It keeps the same fields and makes
    the same decisions as the client package's cache, but it talks to the store through the
    command-line build's package-level functions (ccentral.go) instead of an interface value. */
module LegacyClient {
  import opened Wrappers
  import opened Text
  import Server
  import Central
  import Client

  /** The store as the legacy cache reaches it: SetSchema reports the store's write error, and
      GetConfig applies ccentral.go's rules to the store's answer. */
  function GlobalStore(schemaWriteError: Option<string>, configAnswer: Result<Server.Response>,
                       decode: string -> Server.Decoded<Server.Config>): (s: Client.Store)
    ensures forall id, schema :: s.setSchema(id, schema) == schemaWriteError
    ensures forall id :: s.getConfig(id) == Central.GetConfig(configAnswer, decode)
  {
    Client.Store((id, schema) => schemaWriteError, id => Central.GetConfig(configAnswer, decode))
  }

  /** A service whose configuration was never written ("100: Key not found") refreshes to an
      empty configuration without an error, once the schema push (if any) succeeded. */
  lemma MissingConfigRefreshesToEmpty(st: Client.CacheState, serviceID: string, now: int,
                                      configAnswer: Result<Server.Response>, decode: string -> Server.Decoded<Server.Config>)
    requires configAnswer.Err? && Contains(configAnswer.error, "100: Key not found")
    ensures Client.ForceUpdate(st, serviceID, now, GlobalStore(None, configAnswer, decode)) ==
      (st.(lastCheck := now, config := map[]), None)
  {
  }

  /** A stored configuration that fails to decode still replaces the cached one with whatever
      was decoded: the legacy cache never sees a decoding error. */
  lemma UndecodableConfigReplaces(st: Client.CacheState, serviceID: string, now: int,
                                  configAnswer: Result<Server.Response>, decode: string -> Server.Decoded<Server.Config>)
    requires configAnswer.Ok?
    ensures Client.ForceUpdate(st, serviceID, now, GlobalStore(None, configAnswer, decode)) ==
      (st.(lastCheck := now, config := decode(configAnswer.value.value).value), None)
  {
  }
}
