/**
 * `DebugStore` and `createLoggerPlugin`: the store is an append-only log of
 * request entries; the plugin stamps each config with its start time and
 * logs one entry per response or error. The clock is the `now` argument of
 * each hook.
 */
module Logger {
  import opened Common
  import opened JsValue
  import Client

  /** One `RequestLog` (`verb` is its `method` field): the response data or the error, whichever the entry is about. */
  datatype RequestLog = RequestLog(
    verb: string,
    url: Value,
    params: Value,
    data: Value,
    status: Option<int>,
    ok: bool,
    durationMs: int,
    time: int,
    response: Option<Value>,
    error: Option<Client.HttpError>)

  class DebugStore {
    var logs: seq<RequestLog>

    constructor ()
      ensures logs == []
    {
      logs := [];
    }

    /** `push(entry)`: appends at the end. */
    method Push(entry: RequestLog)
      modifies this
      ensures logs == old(logs) + [entry]
    {
      logs := logs + [entry];
    }

    /** `list()`: the entries in insertion order. */
    method List() returns (r: seq<RequestLog>)
      ensures r == logs
    {
      r := logs;
    }

    /** `clear()`: empties the log. */
    method Clear()
      modifies this
      ensures logs == []
    {
      logs := [];
    }
  }

  /** `options.enabled ?? (process.env.NODE_ENV !== 'production')`. */
  function Enabled(option: Option<bool>, nodeEnv: Option<string>): (b: bool)
    ensures option.Some? ==> b == option.value
    ensures option.None? ==> (b <==> nodeEnv != Some("production"))
  {
    if option.Some? then option.value else nodeEnv != Some("production")
  }

  /** `String(cfg.method || 'GET').toUpperCase()`. */
  function LoggedMethod(cfg: Fields): (m: string)
    ensures !Truthy(Lookup(cfg, "method")) ==> m == "GET"
    ensures Lookup(cfg, "method").Str? && Lookup(cfg, "method").s != "" ==> m == Upper(Lookup(cfg, "method").s)
  {
    var r := Upper(ToJsString(Or(Lookup(cfg, "method"), Str("GET"))));
    assert !Truthy(Lookup(cfg, "method")) ==> r == "GET" by {
      assert Upper("GET") == "GET";
    }
    r
  }

  /** `Date.now() - (cfg.__startAt || Date.now())`: 0 when the config has no (truthy) start stamp. */
  function Duration(cfg: Fields, now: int): (d: int)
    ensures !Truthy(Lookup(cfg, "__startAt")) ==> d == 0
    ensures Truthy(Lookup(cfg, "__startAt")) && Lookup(cfg, "__startAt").Num? ==> d == now - Lookup(cfg, "__startAt").n
  {
    var start := Lookup(cfg, "__startAt");
    if start.Num? && start.n != 0 then now - start.n else 0
  }

  /** The entry `onResponse` pushes: successful, with the response's status and data. */
  function ResponseEntry(response: Client.Response, now: int): (e: RequestLog)
    ensures e.ok && e.status == Some(response.status) && e.response == Some(response.data) && e.error.None?
    ensures e.verb == LoggedMethod(response.config) && e.durationMs == Duration(response.config, now) && e.time == now
    ensures e.url == Or(Lookup(response.config, "url"), Str(""))
    ensures e.params == Lookup(response.config, "params") && e.data == Lookup(response.config, "data")
  {
    var cfg := response.config;
    RequestLog(LoggedMethod(cfg), Or(Lookup(cfg, "url"), Str("")), Lookup(cfg, "params"), Lookup(cfg, "data"),
               Some(response.status), true, Duration(cfg, now), now, Some(response.data), None)
  }

  /** The entry `onError` pushes: failed, with the status of the error's response when there is one. */
  function ErrorEntry(error: Client.HttpError, now: int): (e: RequestLog)
    ensures !e.ok && e.error == Some(error) && e.response.None?
    ensures e.status == if error.response.Some? then Some(error.response.value.status) else None
    ensures error.config.None? ==> e.verb == "GET" && e.url == Str("") && e.durationMs == 0
    ensures var cfg := error.config.GetOr([]);
      e.verb == LoggedMethod(cfg) && e.url == Or(Lookup(cfg, "url"), Str("")) &&
      e.params == Lookup(cfg, "params") && e.data == Lookup(cfg, "data") &&
      e.durationMs == Duration(cfg, now) && e.time == now
  {
    var cfg := error.config.GetOr([]);
    var status := if error.response.Some? then Some(error.response.value.status) else None;
    RequestLog(LoggedMethod(cfg), Or(Lookup(cfg, "url"), Str("")), Lookup(cfg, "params"), Lookup(cfg, "data"),
               status, false, Duration(cfg, now), now, None, Some(error))
  }

  /** The plugin bound to its store. */
  class LoggerPlugin {
    const store: DebugStore
    const enabled: bool

    constructor (store: DebugStore, option: Option<bool>, nodeEnv: Option<string>)
      ensures this.store == store && enabled == Enabled(option, nodeEnv)
    {
      this.store := store;
      enabled := Enabled(option, nodeEnv);
    }

    /** `onRequest`: stamps the config with `__startAt` when enabled. */
    method OnRequest(config: Fields, now: int) returns (r: Fields)
      ensures !enabled ==> r == config
      ensures enabled ==> r == Put(config, "__startAt", Num(now))
    {
      r := config;
      if enabled {
        r := Put(config, "__startAt", Num(now));
      }
    }

    /** `onResponse`: logs one successful entry when enabled; the response goes on unchanged. */
    method OnResponse(response: Client.Response, now: int) returns (r: Client.Response)
      modifies store
      ensures r == response
      ensures store.logs == old(store.logs) + if enabled then [ResponseEntry(response, now)] else []
    {
      if enabled {
        store.Push(ResponseEntry(response, now));
      }
      r := response;
    }

    /** `onError`: logs one failed entry when enabled; the error goes on unchanged. */
    method OnError(error: Client.HttpError, now: int) returns (r: Client.HttpError)
      modifies store
      ensures r == error
      ensures store.logs == old(store.logs) + if enabled then [ErrorEntry(error, now)] else []
    {
      if enabled {
        store.Push(ErrorEntry(error, now));
      }
      r := error;
    }
  }

  /** A config stamped by `onRequest` at a non-zero time `t0` gives a response logged at `t1` the duration `t1 - t0`. */
  lemma StampedDuration(config: Fields, t0: int, t1: int, status: int, data: Value)
    requires t0 != 0
    ensures ResponseEntry(Client.Response(status, data, Put(config, "__startAt", Num(t0))), t1).durationMs == t1 - t0
  {
    LookupPut(config, "__startAt", Num(t0), "__startAt");
  }
}
