/**
 * `createApi`: the semantic API over an `AxiosClient`. Each call builds a
 * config, consults the response cache, fires the loading callback in an
 * on/off pair, transforms the body, sends through the client, then decrypts,
 * checks the contract and writes the cache.
 *
 * The body helpers `normalizePayload` and `serializeDataIfNeeded` are pure
 * functions; `doRequest` is a method of `Api`, which owns the cache.
 */
module Methods {
  import opened Common
  import opened JsValue
  import RequestKey
  import Cache
  import Client

  // ---- normalizePayload ----

  /** The two switches of `normalizePayload`, as the truthiness of `filterEmpty` and `dateToISO`. */
  datatype Tidy = Tidy(filterEmpty: bool, dateToISO: bool)

  /** `v === '' || v === null || v === undefined`. */
  predicate IsEmptyValue(v: Value) {
    v == Str("") || v.Null? || v.Undefined?
  }

  /**
   * `normalizePayload` as written: falsy and non-object inputs pass through,
   * arrays are mapped element by element, and every other object is rebuilt
   * from `Object.entries`. A `Date` or `URLSearchParams` reached this way has
   * no own entries, so it becomes `{}`.
   */
  function NormalizeAsWritten(v: Value, o: Tidy): (r: Value)
    ensures !Truthy(v) || !IsObjectLike(v) ==> r == v
    ensures v.Date? || v.Form? ==> r == Obj([])
    ensures v.Arr? ==>
      (r.Arr? && |r.items| == |v.items| && forall i :: 0 <= i < |v.items| ==> r.items[i] == NormalizeAsWritten(v.items[i], o))
    ensures v.Obj? ==> r.Obj?
    decreases v, 1
  {
    match v
    case Arr(items) => Arr(seq(|items|, i requires 0 <= i < |items| => NormalizeAsWritten(items[i], o)))
    case Obj(fs) => Obj(NormalizeFieldsAsWritten(fs, o))
    case Date(_) => Obj([])
    case Form(_) => Obj([])
    case _ => v
  }

  /** The `for (const [k, v] of Object.entries(obj))` loop of `normalizePayload` as written. */
  function NormalizeFieldsAsWritten(fs: Fields, o: Tidy): (r: Fields)
    ensures |r| <= |fs|
    ensures !o.filterEmpty ==> Keys(r) == Keys(fs)
    decreases fs, 0
  {
    if |fs| == 0 then []
    else
      var p := fs[0];
      assert p.1 < p;
      var rest := NormalizeFieldsAsWritten(fs[1..], o);
      if p.1.Date? then [(p.0, if o.dateToISO then Str(p.1.iso) else p.1)] + rest
      else if IsEmptyValue(p.1) then (if o.filterEmpty then rest else [p] + rest)
      else if IsObjectLike(p.1) then [(p.0, NormalizeAsWritten(p.1, o))] + rest
      else [p] + rest
  }

  /**
   * The corrected `normalizePayload` of the Findings (the API itself uses
   * the code as written), as its comment describes it: drop empty properties
   * (with `filterEmpty`), turn every `Date` into its ISO text (with
   * `dateToISO`) wherever it sits, recurse into arrays and plain objects, and
   * leave scalars and form bodies as they are.
   */
  function Normalize(v: Value, o: Tidy): (r: Value)
    ensures !IsObjectLike(v) ==> r == v
    ensures v.Date? ==> r == if o.dateToISO then Str(v.iso) else v
    ensures v.Form? ==> r == v
    ensures v.Arr? ==>
      (r.Arr? && |r.items| == |v.items| && forall i :: 0 <= i < |v.items| ==> r.items[i] == Normalize(v.items[i], o))
    ensures v.Obj? ==> r.Obj?
    decreases v, 1
  {
    match v
    case Date(iso) => if o.dateToISO then Str(iso) else v
    case Arr(items) => Arr(seq(|items|, i requires 0 <= i < |items| => Normalize(items[i], o)))
    case Obj(fs) => Obj(NormalizeFields(fs, o))
    case _ => v
  }

  /** The property loop of the corrected `Normalize`. */
  function NormalizeFields(fs: Fields, o: Tidy): (r: Fields)
    ensures |r| <= |fs|
    ensures !o.filterEmpty ==> Keys(r) == Keys(fs)
    decreases fs, 0
  {
    if |fs| == 0 then []
    else
      var p := fs[0];
      assert p.1 < p;
      var rest := NormalizeFields(fs[1..], o);
      if o.filterEmpty && IsEmptyValue(p.1) then rest else [(p.0, Normalize(p.1, o))] + rest
  }

  /**
   * With unique property names, a property survives exactly when it is not
   * an empty value dropped by `filterEmpty`; a `Date` property becomes its
   * ISO text with `dateToISO`, an object property is normalised in turn,
   * and any other property keeps its value.
   */
  lemma {:induction false} NormalizeFieldsLookup(fs: Fields, o: Tidy, k: string)
    requires UniqueKeys(fs)
    ensures HasKey(NormalizeFieldsAsWritten(fs, o), k) <==> HasKey(fs, k) && !(o.filterEmpty && IsEmptyValue(Lookup(fs, k)))
    ensures var v := Lookup(fs, k);
      Lookup(NormalizeFieldsAsWritten(fs, o), k) ==
        if o.filterEmpty && IsEmptyValue(v) then Undefined
        else if v.Date? then (if o.dateToISO then Str(v.iso) else v)
        else if IsObjectLike(v) then NormalizeAsWritten(v, o)
        else v
  {
    if |fs| > 0 {
      var p := fs[0];
      var rest := NormalizeFieldsAsWritten(fs[1..], o);
      var r := NormalizeFieldsAsWritten(fs, o);
      assert UniqueKeys(fs[1..]) by {
        forall i, j | 0 <= i < j < |fs[1..]| ensures fs[1..][i].0 != fs[1..][j].0 {
          assert fs[1..][i] == fs[i + 1] && fs[1..][j] == fs[j + 1];
        }
      }
      NormalizeFieldsLookup(fs[1..], o, k);
      HasKeyCons(fs, k);
      if r != rest {
        assert r[1..] == rest;
        HasKeyCons(r, k);
      }
      if p.0 == k {
        assert !HasKey(fs[1..], k) by {
          forall i | 0 <= i < |fs[1..]| ensures fs[1..][i].0 != k {
            assert fs[1..][i] == fs[i + 1];
          }
        }
      }
    }
  }

  /** The values on which `normalizePayload` as written has no `Date` or form body to lose. */
  predicate Plain(v: Value)
    decreases v, 1
  {
    match v
    case Date(_) => false
    case Form(_) => false
    case Arr(items) => forall i :: 0 <= i < |items| ==> Plain(items[i])
    case Obj(fs) => PlainFields(fs)
    case _ => true
  }

  /** Properties may hold a `Date` directly; anything else in them must be `Plain`. */
  predicate PlainFields(fs: Fields)
    decreases fs, 0
  {
    if |fs| == 0 then true
    else
      var p := fs[0];
      assert p.1 < p;
      (p.1.Date? || Plain(p.1)) && PlainFields(fs[1..])
  }

  /** On `Plain` values the code as written and the corrected `Normalize` agree. */
  lemma {:induction false} NormalizeAgrees(v: Value, o: Tidy)
    requires Plain(v)
    ensures NormalizeAsWritten(v, o) == Normalize(v, o)
    decreases v, 1
  {
    match v
    case Arr(items) =>
      if Truthy(v) {
        forall i | 0 <= i < |items|
          ensures NormalizeAsWritten(items[i], o) == Normalize(items[i], o)
        {
          NormalizeAgrees(items[i], o);
        }
      }
    case Obj(fs) =>
      NormalizeFieldsAgree(fs, o);
    case _ =>
  }

  lemma {:induction false} NormalizeFieldsAgree(fs: Fields, o: Tidy)
    requires PlainFields(fs)
    ensures NormalizeFieldsAsWritten(fs, o) == NormalizeFields(fs, o)
    decreases fs, 0
  {
    if |fs| > 0 {
      var p := fs[0];
      assert p.1 < p;
      NormalizeFieldsAgree(fs[1..], o);
      if !p.1.Date? && !IsEmptyValue(p.1) && IsObjectLike(p.1) {
        NormalizeAgrees(p.1, o);
      }
    }
  }

  /** `normalizePayload([date], { dateToISO: true })` as written yields `[{}]`; the corrected one yields the ISO text. */
  lemma DateInArrayLost()
    ensures NormalizeAsWritten(Arr([Date("1970-01-01T00:00:00.000Z")]), Tidy(false, true)) == Arr([Obj([])])
    ensures Normalize(Arr([Date("1970-01-01T00:00:00.000Z")]), Tidy(false, true)) == Arr([Str("1970-01-01T00:00:00.000Z")])
  {
    var d := Date("1970-01-01T00:00:00.000Z");
    assert NormalizeAsWritten(d, Tidy(false, true)) == Obj([]);
    assert Normalize(d, Tidy(false, true)) == Str("1970-01-01T00:00:00.000Z");
  }

  // ---- serializeDataIfNeeded ----

  /** `config?.headers && config.headers['Content-Type']`. */
  function ContentType(config: Option<Fields>): Value {
    if config.None? then Undefined
    else
      var h := Lookup(config.value, "headers");
      if !Truthy(h) then h
      else if h.Obj? then Lookup(h.fields, "Content-Type")
      else Undefined
  }

  /** The content type is a string that contains the form media type, in any letter case. */
  predicate IsUrlEncoded(config: Option<Fields>) {
    var ct := ContentType(config);
    ct.Str? && Contains(Lower(ct.s), "application/x-www-form-urlencoded")
  }

  /** `Object.keys(data)` paired with `String(data[k])`: own properties of an object, indices of an array. */
  function FormPairs(data: Value): (r: seq<(string, string)>)
    ensures data.Obj? ==> |r| == |data.fields|
    ensures data.Arr? ==> |r| == |data.items|
    ensures !data.Obj? && !data.Arr? ==> r == []
  {
    match data
    case Obj(fs) => seq(|fs|, i requires 0 <= i < |fs| => (fs[i].0, ToJsString(fs[i].1)))
    case Arr(items) => seq(|items|, i requires 0 <= i < |items| => (NatToString(i), ToJsString(items[i])))
    case _ => []
  }

  /**
   * `serializeDataIfNeeded` as written: under a form content type the body
   * becomes a form with one `key=String(value)` pair per own key, in key
   * order (an empty form when the body is not a truthy object, and for a
   * date or a body that is already a form, neither of which has own keys);
   * otherwise the body is returned unchanged.
   */
  function SerializeAsWritten(data: Value, config: Option<Fields>): (r: Value)
    ensures !IsUrlEncoded(config) ==> r == data
    ensures IsUrlEncoded(config) ==> r.Form?
    ensures IsUrlEncoded(config) && !(data.Obj? || data.Arr?) ==> r == Form([])
    ensures IsUrlEncoded(config) && data.Obj? ==>
      (|r.pairs| == |data.fields| &&
       forall i :: 0 <= i < |data.fields| ==> r.pairs[i] == (data.fields[i].0, ToJsString(data.fields[i].1)))
    ensures IsUrlEncoded(config) && data.Arr? ==>
      (|r.pairs| == |data.items| &&
       forall i :: 0 <= i < |data.items| ==> r.pairs[i] == (NatToString(i), ToJsString(data.items[i])))
  {
    if IsUrlEncoded(config) then
      Form(if Truthy(data) && IsObjectLike(data) then FormPairs(data) else [])
    else data
  }

  /**
   * The corrected `serializeDataIfNeeded` of the Findings, which keeps a
   * body that is already a form; the API itself uses the code as written.
   * Under a form content type any other body becomes a form with one
   * `key=String(value)` pair per own key, in key order (an empty form when
   * the body is not a truthy object); otherwise the body is returned
   * unchanged.
   */
  function SerializeDataIfNeeded(data: Value, config: Option<Fields>): (r: Value)
    ensures !IsUrlEncoded(config) || data.Form? ==> r == data
    ensures IsUrlEncoded(config) ==> r.Form?
    ensures IsUrlEncoded(config) && !(Truthy(data) && IsObjectLike(data)) ==> r == Form([])
    ensures IsUrlEncoded(config) && data.Obj? ==>
      (|r.pairs| == |data.fields| &&
       forall i :: 0 <= i < |data.fields| ==> r.pairs[i] == (data.fields[i].0, ToJsString(data.fields[i].1)))
    ensures IsUrlEncoded(config) && data.Arr? ==>
      (|r.pairs| == |data.items| &&
       forall i :: 0 <= i < |data.items| ==> r.pairs[i] == (NatToString(i), ToJsString(data.items[i])))
  {
    if data.Form? then data else SerializeAsWritten(data, config)
  }

  /** Reading a form back as an object of strings. */
  function FormFields(pairs: seq<(string, string)>): (r: Fields)
    ensures |r| == |pairs|
  {
    seq(|pairs|, i requires 0 <= i < |pairs| => (pairs[i].0, Str(pairs[i].1)))
  }

  /** An object of string values survives form encoding: reading the form back gives the same object. */
  lemma FormRoundTrip(fs: Fields, config: Option<Fields>)
    requires IsUrlEncoded(config)
    requires forall i :: 0 <= i < |fs| ==> fs[i].1.Str?
    ensures SerializeAsWritten(Obj(fs), config).Form?
    ensures FormFields(SerializeAsWritten(Obj(fs), config).pairs) == fs
  {
    var r := SerializeAsWritten(Obj(fs), config);
    forall i | 0 <= i < |fs|
      ensures FormFields(r.pairs)[i] == fs[i]
    {
      assert ToJsString(fs[i].1) == fs[i].1.s;
    }
  }

  /**
   * `post`/`put`/`patch` with a form content type and a `transform`: the
   * verb has already turned the body into a form, which the code as written
   * then normalises to `{}` and re-encodes as an empty form. The corrected
   * `Normalize` and `SerializeDataIfNeeded` keep the form.
   */
  lemma FormBodyLost(o: Tidy, config: Option<Fields>)
    requires IsUrlEncoded(config)
    ensures var form := SerializeAsWritten(Obj([("a", Str("1"))]), config);
      form == Form([("a", "1")]) &&
      SerializeAsWritten(NormalizeAsWritten(form, o), config) == Form([]) &&
      SerializeAsWritten(form, config) == Form([]) &&
      SerializeDataIfNeeded(Normalize(form, o), config) == form
  {
    var form := SerializeAsWritten(Obj([("a", Str("1"))]), config);
    assert form.pairs[0] == ("a", "1");
  }

  // ---- doRequest ----

  /** `loading`: whether it is enabled, and whether an `onChange` function was supplied. */
  datatype Loading = Loading(enabled: bool, hasOnChange: bool)

  /** `cache`: `enabled` (its truthiness), `ttl` and `key`. */
  datatype CacheOptions = CacheOptions(enabled: bool, ttl: Option<int>, key: Option<string>)

  /**
   * `transform`: the two switches and the optional `encrypt`/`decrypt`
   * functions. Like a contract, each returns its result, or `None` where it
   * throws.
   */
  datatype Transform = Transform(tidy: Tidy, encrypt: Option<Value -> Option<Value>>, decrypt: Option<Value -> Option<Value>>)

  /**
   * `RequestExtras` plus `contract`. A contract returns the checked data, or
   * `None` where it throws.
   */
  datatype Extras = Extras(
    key: Option<string>,
    autoCancel: Option<bool>,
    retry: Option<Client.RetryOptions>,
    loading: Option<Loading>,
    silent: Option<bool>,
    cache: Option<CacheOptions>,
    transform: Option<Transform>,
    contract: Option<Value -> Option<Value>>)

  /** How a call settles: the data, the client's error, or the exception of `encrypt`, `decrypt` or the contract. */
  datatype Settled = Resolved(value: Value) | RequestFailed(error: Client.HttpError) | EncryptThrew | DecryptThrew | ContractThrew

  /** `extras?.key || buildRequestKey(config)`: never empty. */
  function KeyFor(config: Fields, extras: Extras): (k: string)
    ensures k != ""
    ensures extras.key.Some? && extras.key.value != "" ==> k == extras.key.value
    ensures extras.key.None? || extras.key.value == "" ==> k == RequestKey.BuildRequestKey(config)
  {
    Client.RequestKeyOf(config, Client.ClientOptions(extras.key, None, None))
  }

  predicate CacheOn(extras: Extras) {
    extras.cache.Some? && extras.cache.value.enabled
  }

  /** `cacheOpt.key || key`. */
  function CacheKey(config: Fields, extras: Extras): string {
    if extras.cache.Some? && extras.cache.value.key.Some? && extras.cache.value.key.value != "" then extras.cache.value.key.value
    else KeyFor(config, extras)
  }

  /** `cacheOpt.ttl ?? 5000`. */
  function TtlOf(extras: Extras): int {
    if extras.cache.Some? && extras.cache.value.ttl.Some? then extras.cache.value.ttl.value else 5000
  }

  /** Loading is enabled and an `onChange` function was supplied. */
  predicate LoadingOn(extras: Extras) {
    extras.loading.Some? && extras.loading.value.enabled && extras.loading.value.hasOnChange
  }

  /** A cache read that answers the call: enabled, and the stored data is not `undefined`. */
  predicate CacheHit(store: map<string, Cache.Entry>, config: Fields, extras: Extras, now: int) {
    CacheOn(extras) && Cache.ReadAt(store, CacheKey(config, extras), now) != Undefined
  }

  /** `extras?.silent`, as stored on the config under `__silent`. */
  function SilentOf(extras: Extras): Value {
    if extras.silent.Some? then Bool(extras.silent.value) else Undefined
  }

  /**
   * The request body after `normalizePayload`, `encrypt` and
   * `serializeDataIfNeeded`, as written, or `None` when `encrypt` throws on
   * the normalised payload. Under a form content type the result is a form,
   * and a body that is already a form is emptied; without one and without
   * `encrypt`, a body holding no date inside an array and no form body is
   * normalised as the documented `Normalize` says.
   */
  function Prepared(data: Value, t: Transform, config: Fields): (r: Option<Value>)
    ensures r.None? <==> t.encrypt.Some? && t.encrypt.value(NormalizeAsWritten(data, t.tidy)).None?
    ensures r.Some? && IsUrlEncoded(Some(config)) ==> r.value.Form?
    ensures IsUrlEncoded(Some(config)) && data.Form? && t.encrypt.None? ==> r == Some(Form([]))
    ensures !IsUrlEncoded(Some(config)) && t.encrypt.None? && Plain(data) ==> r == Some(Normalize(data, t.tidy))
  {
    assert Plain(data) ==> NormalizeAsWritten(data, t.tidy) == Normalize(data, t.tidy) by {
      if Plain(data) {
        NormalizeAgrees(data, t.tidy);
      }
    }
    var payload := NormalizeAsWritten(data, t.tidy);
    var encrypted := if t.encrypt.Some? then t.encrypt.value(payload) else Some(payload);
    if encrypted.None? then None else Some(SerializeAsWritten(encrypted.value, Some(config)))
  }

  /**
   * The config `doRequest` hands on: tagged with `__silent`, its body
   * transformed when there is one and a `transform`; `None` when `encrypt`
   * throws, so that nothing is sent.
   */
  function Outgoing(config: Fields, extras: Extras): (r: Option<Fields>)
    ensures r.Some? ==> Lookup(r.value, "__silent") == SilentOf(extras)
    ensures r.Some? && UniqueKeys(config) ==> UniqueKeys(r.value)
    ensures r.None? ==> extras.transform.Some? && extras.transform.value.encrypt.Some?
  {
    var c := Put(config, "__silent", SilentOf(extras));
    var data := Lookup(c, "data");
    if Truthy(data) && extras.transform.Some? then
      var body := Prepared(data, extras.transform.value, c);
      if body.None? then None
      else
        SilentTagged(config, SilentOf(extras), body.value);
        Some(Put(c, "data", body.value))
    else
      SilentTagged(config, SilentOf(extras), data);
      Some(c)
  }

  /** `encrypt` throws, inside the `try` and before the client is reached. */
  predicate EncryptThrows(config: Fields, extras: Extras) {
    Outgoing(config, extras).None?
  }

  /** Tagging a config with `__silent`, then replacing its body, keeps the tag and unique property names. */
  lemma SilentTagged(config: Fields, silent: Value, body: Value)
    ensures var c := Put(config, "__silent", silent);
      Lookup(c, "__silent") == silent && Lookup(Put(c, "data", body), "__silent") == silent
    ensures var c := Put(config, "__silent", silent);
      UniqueKeys(config) ==> UniqueKeys(c) && UniqueKeys(Put(c, "data", body))
  {
    var c := Put(config, "__silent", silent);
    LookupPut(config, "__silent", silent, "__silent");
    LookupPut(c, "data", body, "__silent");
    if UniqueKeys(config) {
      PutKeepsUnique(config, "__silent", silent);
      PutKeepsUnique(c, "data", body);
    }
  }

  /**
   * Nothing is handed on exactly when there is a body and a `transform` and
   * its preparation throws. Otherwise the handed-on config carries the
   * silent flag, a transformed body when there was a body and a
   * `transform`, and every other property unchanged.
   */
  lemma OutgoingLookup(config: Fields, extras: Extras, k: string)
    ensures var data := Lookup(config, "data");
      Outgoing(config, extras).None? <==>
        Truthy(data) && extras.transform.Some? &&
        Prepared(data, extras.transform.value, Put(config, "__silent", SilentOf(extras))).None?
    ensures var data := Lookup(config, "data");
      Outgoing(config, extras).Some? ==>
      Lookup(Outgoing(config, extras).value, k) ==
        if k == "__silent" then SilentOf(extras)
        else if k == "data" && Truthy(data) && extras.transform.Some? then
          Prepared(data, extras.transform.value, Put(config, "__silent", SilentOf(extras))).value
        else Lookup(config, k)
  {
    var c := Put(config, "__silent", SilentOf(extras));
    LookupPut(config, "__silent", SilentOf(extras), "data");
    LookupPut(config, "__silent", SilentOf(extras), k);
    if Truthy(Lookup(c, "data")) && extras.transform.Some? && Prepared(Lookup(c, "data"), extras.transform.value, c).Some? {
      LookupPut(c, "data", Prepared(Lookup(c, "data"), extras.transform.value, c).value, k);
    }
  }

  /** `{ ...config, params: config.params }`. */
  function WithParams(c: Fields): Fields {
    Put(c, "params", Lookup(c, "params"))
  }

  /** `{ ...extras, key, autoCancel }` as the client reads it: `autoCancel` defaults to true. */
  function ClientOptionsOf(config: Fields, extras: Extras): (opts: Client.ClientOptions)
    ensures extras.autoCancel.None? ==> opts.autoCancel == Some(true)
    ensures forall c :: Client.RequestKeyOf(WithParams(c), opts) == KeyFor(config, extras)
  {
    Client.ClientOptions(Some(KeyFor(config, extras)), Some(extras.autoCancel.GetOr(true)), extras.retry)
  }

  /** The response data after `decrypt` and then `contract`; either may throw. */
  function Settle(o: Client.Outcome, extras: Extras): (r: Settled)
    ensures o.Failure? ==> r == RequestFailed(o.error)
    ensures o.Success? && extras.contract.None? && (extras.transform.None? || extras.transform.value.decrypt.None?) ==>
      r == Resolved(o.response.data)
    ensures o.Success? ==>
      r.Resolved? ||
      (r.DecryptThrew? && extras.transform.Some? && extras.transform.value.decrypt.Some?) ||
      (r.ContractThrew? && extras.contract.Some?)
    ensures !r.EncryptThrew?
  {
    match o
    case Failure(e) => RequestFailed(e)
    case Success(res) =>
      var d := if extras.transform.Some? && extras.transform.value.decrypt.Some? then extras.transform.value.decrypt.value(res.data) else Some(res.data);
      if d.None? then DecryptThrew
      else if extras.contract.None? then Resolved(d.value)
      else
        match extras.contract.value(d.value)
        case None => ContractThrew
        case Some(x) => Resolved(x)
  }

  /** The store after the cache write of `doRequest`: only resolved data is written, and only when caching is on. */
  function Written(store: map<string, Cache.Entry>, ckey: string, enabled: bool, result: Settled, ttl: int, now: int): (r: map<string, Cache.Entry>)
    ensures !enabled || !result.Resolved? ==> r == store
    ensures enabled && result.Resolved? ==> r == store[ckey := Cache.Entry(now + ttl, result.value)]
  {
    if enabled && result.Resolved? then store[ckey := Cache.Entry(now + ttl, result.value)] else store
  }

  /** What the client's retry loop does with the config and options `doRequest` hands it. */
  function ClientRun(ps: seq<Client.Plugin>, transport: Client.Transport, jitter: int -> real, config: Fields, extras: Extras): Client.Run
    requires !EncryptThrows(config, extras)
  {
    var opts := ClientOptionsOf(config, extras);
    var sent := Put(WithParams(Outgoing(config, extras).value), "__requestKey", Str(KeyFor(config, extras)));
    Client.RunFrom(Client.Answers(ps, transport, sent), Client.PolicyOf(opts, jitter), 0)
  }

  // ---- the verbs ----

  datatype Verb = GET | POST | PUT | PATCH | DELETE | HEAD | OPTIONS

  /** The lower-case method name each verb writes into its config. */
  function VerbName(v: Verb): string {
    match v
    case GET => "get"
    case POST => "post"
    case PUT => "put"
    case PATCH => "patch"
    case DELETE => "delete"
    case HEAD => "head"
    case OPTIONS => "options"
  }

  /** The verbs that carry `options.data` as a body. */
  predicate HasBody(v: Verb) {
    v == POST || v == PUT || v == PATCH
  }

  /** `RequestOptions`: `params`, `data` (`undefined` when absent), `config`, `extras`, `contract`, `loading`, `transform`. */
  datatype RequestOptions = RequestOptions(
    params: Value,
    data: Value,
    config: Option<Fields>,
    extras: Option<Extras>,
    contract: Option<Value -> Option<Value>>,
    loading: Option<Loading>,
    transform: Option<Transform>)

  /**
   * `{ method, url, data, params: options?.params, ...options?.config }`,
   * where only `post`, `put` and `patch` have the `data` property, already
   * serialised for the configured content type.
   */
  function VerbConfig(verb: Verb, url: string, options: RequestOptions): (r: Fields)
    ensures UniqueKeys(r)
    ensures options.config.None? ==>
      Keys(r) == if HasBody(verb) then ["method", "url", "data", "params"] else ["method", "url", "params"]
  {
    var body := if HasBody(verb) then [("data", SerializeAsWritten(options.data, options.config))] else [];
    var base := [("method", Str(VerbName(verb))), ("url", Str(url))] + body + [("params", options.params)];
    assert UniqueKeys(base);
    assert options.config.Some? ==> UniqueKeys(Spread(base, options.config.value)) by {
      if options.config.Some? {
        SpreadKeepsUnique(base, options.config.value);
      }
    }
    if options.config.Some? then Spread(base, options.config.value) else base
  }

  /** `{ ...options?.extras, loading, contract, transform }`: the three always come from `options`. */
  function VerbExtras(options: RequestOptions): (e: Extras)
    ensures e.loading == options.loading && e.contract == options.contract && e.transform == options.transform
    ensures options.extras.Some? ==>
      (e.key, e.autoCancel, e.retry, e.silent, e.cache) ==
      (options.extras.value.key, options.extras.value.autoCancel, options.extras.value.retry, options.extras.value.silent, options.extras.value.cache)
    ensures options.extras.None? ==> e.key.None? && e.autoCancel.None? && e.retry.None? && e.silent.None? && e.cache.None?
  {
    var base := options.extras.GetOr(Extras(None, None, None, None, None, None, None, None));
    base.(loading := options.loading, contract := options.contract, transform := options.transform)
  }

  /**
   * A verb's config: the caller's `config` wins for every property it sets;
   * otherwise the method is the verb's name, the url and params are the
   * arguments, and only a body verb has the serialised `data`.
   */
  lemma VerbConfigLookup(verb: Verb, url: string, options: RequestOptions, k: string)
    requires options.config.Some? ==> UniqueKeys(options.config.value)
    ensures var c := VerbConfig(verb, url, options);
      var mine := options.config.Some? && HasKey(options.config.value, k);
      Lookup(c, k) ==
        if mine then Lookup(options.config.value, k)
        else if k == "method" then Str(VerbName(verb))
        else if k == "url" then Str(url)
        else if k == "params" then options.params
        else if k == "data" && HasBody(verb) then SerializeAsWritten(options.data, options.config)
        else Undefined
  {
    var body := if HasBody(verb) then [("data", SerializeAsWritten(options.data, options.config))] else [];
    var base := [("method", Str(VerbName(verb))), ("url", Str(url))] + body + [("params", options.params)];
    assert Lookup(base, k) ==
      if k == "method" then Str(VerbName(verb))
      else if k == "url" then Str(url)
      else if k == "params" then options.params
      else if k == "data" && HasBody(verb) then SerializeAsWritten(options.data, options.config)
      else Undefined
    by {
      var m, u, pr := ("method", Str(VerbName(verb))), ("url", Str(url)), ("params", options.params);
      if HasBody(verb) {
        var d := ("data", SerializeAsWritten(options.data, options.config));
        assert base == [m, u, d, pr];
        assert base[1..] == [u, d, pr] && base[1..][1..] == [d, pr] && base[1..][1..][1..] == [pr];
        assert Lookup([pr], k) == if k == "params" then options.params else Undefined;
        assert Lookup([d, pr], k) == if k == "data" then d.1 else Lookup([pr], k);
        assert Lookup([u, d, pr], k) == if k == "url" then Str(url) else Lookup([d, pr], k);
      } else {
        assert base == [m, u, pr];
        assert base[1..] == [u, pr] && base[1..][1..] == [pr];
        assert Lookup([pr], k) == if k == "params" then options.params else Undefined;
        assert Lookup([u, pr], k) == if k == "url" then Str(url) else Lookup([pr], k);
      }
    }
    if options.config.Some? {
      LookupSpread(base, options.config.value, k);
    }
  }

  /** The object `createApi` returns: the client it wraps and a cache of its own. */
  class Api {
    const client: Client.AxiosClient
    const cache: Cache.RequestCache

    constructor (client: Client.AxiosClient)
      ensures this.client == client && fresh(cache) && cache.store == map[]
    {
      this.client := client;
      cache := new Cache.RequestCache();
    }

    /**
     * The `try` block up to the cache write: prepare the body, send through
     * the client, then decrypt and check the data. When `encrypt` throws the
     * client is not reached.
     */
    method Call(config: Fields, extras: Extras, transport: Client.Transport, jitter: int -> real)
      returns (result: Settled, calls: nat, delays: seq<real>)
      modifies client, set k | k in client.controllers && k == KeyFor(config, extras) :: client.controllers[k]
      ensures client.plugins == old(client.plugins)
      ensures EncryptThrows(config, extras) ==>
        result == EncryptThrew && calls == 0 && delays == [] && client.controllers == old(client.controllers)
      ensures !EncryptThrows(config, extras) ==>
        var run := ClientRun(old(client.plugins), transport, jitter, config, extras);
        result == Settle(run.outcome, extras) && calls == run.calls && delays == run.delays
      ensures Client.SameOutside(client.controllers, old(client.controllers), KeyFor(config, extras))
    {
      var sent := Outgoing(config, extras);
      if sent.None? {
        return EncryptThrew, 0, [];
      }
      var outcome;
      outcome, calls, delays := client.Request(WithParams(sent.value), ClientOptionsOf(config, extras), transport, jitter);
      result := Settle(outcome, extras);
    }

    /** The cache read of `doRequest`, when caching is enabled: `undefined` means a miss. */
    method ReadCache(ckey: string, enabled: bool, now: int) returns (hit: Value)
      modifies cache
      ensures hit == if enabled then Cache.ReadAt(old(cache.store), ckey, now) else Undefined
      ensures cache.store == if enabled then Cache.AfterRead(old(cache.store), ckey, now) else old(cache.store)
    {
      hit := Undefined;
      if enabled {
        hit := cache.Get(ckey, now);
      }
    }

    /** The cache write of `doRequest`: resolved data, when caching is enabled, under `ckey` for `ttl` ms. */
    method WriteCache(ckey: string, enabled: bool, result: Settled, ttl: int, now: int)
      modifies cache
      ensures cache.store == Written(old(cache.store), ckey, enabled, result, ttl, now)
    {
      if enabled && result.Resolved? {
        cache.Set(ckey, result.value, ttl, now);
      }
    }

    /**
     * `doRequest(config, extras)`. A cache hit answers at once: no loading
     * event, no call to the client. Otherwise the loading callback fires on
     * before the call and off after it, whatever the outcome; the body is
     * transformed, the client runs its retry loop, the data is decrypted and
     * checked, and only resolved data is cached. The two clock readings are
     * `start` (the cache read) and `finish` (the cache write).
     *
     * `doRequest` writes `__silent`, and then the transformed `data`, into
     * the caller's config object; `written` is that object afterwards. It is
     * also `api.request`, which hands the caller's config on as it is.
     */
    method DoRequest(config: Fields, extras: Extras, transport: Client.Transport, jitter: int -> real, start: int, finish: int)
      returns (result: Settled, events: seq<(string, bool)>, calls: nat, delays: seq<real>, written: Fields)
      modifies cache, client, set k | k in client.controllers && k == KeyFor(config, extras) :: client.controllers[k]
      ensures client.plugins == old(client.plugins)
      ensures CacheHit(old(cache.store), config, extras, start) ==>
        result == Resolved(Cache.ReadAt(old(cache.store), CacheKey(config, extras), start)) &&
        events == [] && calls == 0 && delays == [] &&
        cache.store == old(cache.store) && client.controllers == old(client.controllers)
      ensures !CacheHit(old(cache.store), config, extras, start) && EncryptThrows(config, extras) ==>
        result == EncryptThrew && calls == 0 && delays == [] && client.controllers == old(client.controllers)
      ensures !CacheHit(old(cache.store), config, extras, start) && !EncryptThrows(config, extras) ==>
        var run := ClientRun(old(client.plugins), transport, jitter, config, extras);
        result == Settle(run.outcome, extras) && calls == run.calls && delays == run.delays
      ensures !CacheHit(old(cache.store), config, extras, start) ==>
        events == if LoadingOn(extras) then [(KeyFor(config, extras), true), (KeyFor(config, extras), false)] else []
      ensures !CacheOn(extras) ==> cache.store == old(cache.store)
      ensures CacheOn(extras) && !CacheHit(old(cache.store), config, extras, start) ==>
        cache.store == Written(Cache.AfterRead(old(cache.store), CacheKey(config, extras), start), CacheKey(config, extras), true, result, TtlOf(extras), finish)
      ensures Client.SameOutside(client.controllers, old(client.controllers), KeyFor(config, extras))
      ensures Lookup(written, "__silent") == SilentOf(extras)
      ensures CacheHit(old(cache.store), config, extras, start) || EncryptThrows(config, extras) ==>
        written == Put(config, "__silent", SilentOf(extras))
      ensures !CacheHit(old(cache.store), config, extras, start) && !EncryptThrows(config, extras) ==>
        written == Outgoing(config, extras).value
    {
      var key := KeyFor(config, extras);
      var ckey := CacheKey(config, extras);
      written := Put(config, "__silent", SilentOf(extras));
      SilentTagged(config, SilentOf(extras), Undefined);
      events, calls, delays := [], 0, [];
      var hit := ReadCache(ckey, CacheOn(extras), start);
      if hit != Undefined {
        return Resolved(hit), events, calls, delays, written;
      }
      result, events, calls, delays := Fetch(config, extras, transport, jitter, finish);
      if !EncryptThrows(config, extras) {
        written := Outgoing(config, extras).value;
      }
    }

    /** The cache-miss path of `doRequest`: loading on, the client call and the cache write, loading off. */
    method Fetch(config: Fields, extras: Extras, transport: Client.Transport, jitter: int -> real, finish: int)
      returns (result: Settled, events: seq<(string, bool)>, calls: nat, delays: seq<real>)
      modifies cache, client, set k | k in client.controllers && k == KeyFor(config, extras) :: client.controllers[k]
      ensures client.plugins == old(client.plugins)
      ensures EncryptThrows(config, extras) ==>
        result == EncryptThrew && calls == 0 && delays == [] && client.controllers == old(client.controllers)
      ensures !EncryptThrows(config, extras) ==>
        var run := ClientRun(old(client.plugins), transport, jitter, config, extras);
        result == Settle(run.outcome, extras) && calls == run.calls && delays == run.delays
      ensures events == if LoadingOn(extras) then [(KeyFor(config, extras), true), (KeyFor(config, extras), false)] else []
      ensures cache.store == Written(old(cache.store), CacheKey(config, extras), CacheOn(extras), result, TtlOf(extras), finish)
      ensures Client.SameOutside(client.controllers, old(client.controllers), KeyFor(config, extras))
    {
      var key := KeyFor(config, extras);
      events := [];
      var loading := LoadingOn(extras);
      if loading {
        events := events + [(key, true)];
      }
      result, calls, delays := CallAndStore(config, extras, transport, jitter, finish);
      if loading {
        events := events + [(key, false)];
      }
    }

    /** The `try` block of `doRequest` with its cache write: the client call, then resolved data cached. */
    method CallAndStore(config: Fields, extras: Extras, transport: Client.Transport, jitter: int -> real, finish: int)
      returns (result: Settled, calls: nat, delays: seq<real>)
      modifies cache, client, set k | k in client.controllers && k == KeyFor(config, extras) :: client.controllers[k]
      ensures client.plugins == old(client.plugins)
      ensures EncryptThrows(config, extras) ==>
        result == EncryptThrew && calls == 0 && delays == [] && client.controllers == old(client.controllers)
      ensures !EncryptThrows(config, extras) ==>
        var run := ClientRun(old(client.plugins), transport, jitter, config, extras);
        result == Settle(run.outcome, extras) && calls == run.calls && delays == run.delays
      ensures cache.store == Written(old(cache.store), CacheKey(config, extras), CacheOn(extras), result, TtlOf(extras), finish)
      ensures Client.SameOutside(client.controllers, old(client.controllers), KeyFor(config, extras))
    {
      ghost var read := cache.store;
      result, calls, delays := Call(config, extras, transport, jitter);
      assert cache.store == read;
      WriteCache(CacheKey(config, extras), CacheOn(extras), result, TtlOf(extras), finish);
    }

    /**
     * `get`, `post`, `put`, `patch`, `delete`, `head`, `options`: the verb's
     * config and extras handed to `doRequest`.
     */
    method Send(verb: Verb, url: string, options: RequestOptions, transport: Client.Transport, jitter: int -> real, start: int, finish: int)
      returns (result: Settled, events: seq<(string, bool)>, calls: nat, delays: seq<real>)
      modifies cache, client,
        set k | k in client.controllers && k == KeyFor(VerbConfig(verb, url, options), VerbExtras(options)) :: client.controllers[k]
      ensures client.plugins == old(client.plugins)
      ensures var config, extras := VerbConfig(verb, url, options), VerbExtras(options);
        CacheHit(old(cache.store), config, extras, start) ==>
          result == Resolved(Cache.ReadAt(old(cache.store), CacheKey(config, extras), start)) &&
          events == [] && calls == 0 && delays == [] &&
          cache.store == old(cache.store) && client.controllers == old(client.controllers)
      ensures var config, extras := VerbConfig(verb, url, options), VerbExtras(options);
        !CacheHit(old(cache.store), config, extras, start) && EncryptThrows(config, extras) ==>
          result == EncryptThrew && calls == 0 && delays == [] && client.controllers == old(client.controllers)
      ensures var config, extras := VerbConfig(verb, url, options), VerbExtras(options);
        !CacheHit(old(cache.store), config, extras, start) && !EncryptThrows(config, extras) ==>
          var run := ClientRun(old(client.plugins), transport, jitter, config, extras);
          result == Settle(run.outcome, extras) && calls == run.calls && delays == run.delays
      ensures var config, extras := VerbConfig(verb, url, options), VerbExtras(options);
        !CacheHit(old(cache.store), config, extras, start) ==>
          events == if LoadingOn(extras) then [(KeyFor(config, extras), true), (KeyFor(config, extras), false)] else []
      ensures !CacheOn(VerbExtras(options)) ==> cache.store == old(cache.store)
      ensures var config, extras := VerbConfig(verb, url, options), VerbExtras(options);
        CacheOn(extras) && !CacheHit(old(cache.store), config, extras, start) ==>
          cache.store == Written(Cache.AfterRead(old(cache.store), CacheKey(config, extras), start), CacheKey(config, extras), true, result, TtlOf(extras), finish)
      ensures Client.SameOutside(client.controllers, old(client.controllers), KeyFor(VerbConfig(verb, url, options), VerbExtras(options)))
    {
      var written;
      result, events, calls, delays, written := DoRequest(VerbConfig(verb, url, options), VerbExtras(options), transport, jitter, start, finish);
    }

    /** `cache.clear(key)`: a non-empty key forgets that entry only, otherwise the whole cache. */
    method ClearCache(key: Option<string>)
      modifies cache
      ensures key.Some? && key.value != "" ==> cache.store == old(cache.store) - {key.value}
      ensures key.None? || key.value == "" ==> cache.store == map[]
    {
      cache.Clear(key);
    }

    /** `cache.clearAll()`. */
    method ClearAllCache()
      modifies cache
      ensures cache.store == map[]
    {
      cache.Clear(None);
    }
  }
}
