/**
 * `createLoadingPlugin(onChange)`: each hook reports at most one
 * `(key, active)` change for the request key the client tagged the config
 * with, and hands its input on unchanged. The callback is modelled by the
 * event a hook emits.
 */
module LoadingPlugin {
  import opened Common
  import opened JsValue
  import Client

  /** The `onChange(key, active)` call for a config, when it carries a truthy `__requestKey`. */
  function EventFor(config: Fields, active: bool): (ev: Option<(Value, bool)>)
    ensures ev.Some? <==> Truthy(Lookup(config, "__requestKey"))
    ensures ev.Some? ==> ev.value == (Lookup(config, "__requestKey"), active)
  {
    var key := Lookup(config, "__requestKey");
    if Truthy(key) then Some((key, active)) else None
  }

  /** `onRequest`: loading turns on for the config's key. */
  function OnRequest(config: Fields): Option<(Value, bool)> {
    EventFor(config, true)
  }

  /** `onResponse`: loading turns off for the key of the response's config. */
  function OnResponse(response: Client.Response): Option<(Value, bool)> {
    EventFor(response.config, false)
  }

  /** `onError`: loading turns off for the key of the error's config, if the error has one. */
  function OnError(e: Client.HttpError): (ev: Option<(Value, bool)>)
    ensures e.config.None? ==> ev.None?
  {
    if e.config.Some? then EventFor(e.config.value, false) else None
  }

  /** The hooks as a plugin: each returns its input, so the chains carry the same values with or without it. */
  function Plugin(): (p: Client.Plugin)
    ensures forall c :: Client.Step(p.onRequest, c) == c
    ensures forall r :: Client.Step(p.onResponse, r) == r
    ensures forall e :: Client.Step(p.onError, e) == e
  {
    Client.Plugin(Some((c: Fields) => Some(c)), Some((r: Client.Response) => Some(r)), Some((e: Client.HttpError) => Some(e)))
  }

  /**
   * A request the client tagged with key `key` turns loading on for `key`,
   * and a response or error that still carries that config turns it off
   * for the same key: the two events pair up.
   */
  lemma OnOffPair(config: Fields, key: string, status: int, data: Value, code: Option<string>, message: string)
    requires key != ""
    ensures var tagged := Put(config, "__requestKey", Str(key));
      OnRequest(tagged) == Some((Str(key), true)) &&
      OnResponse(Client.Response(status, data, tagged)) == Some((Str(key), false)) &&
      OnError(Client.HttpError(code, message, None, Some(tagged))) == Some((Str(key), false))
  {
    LookupPut(config, "__requestKey", Str(key), "__requestKey");
  }
}
