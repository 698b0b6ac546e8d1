/**
 * The request fingerprint `METHOD|url|params|data` that identifies a request
 * for cancellation, loading events and caching.
 */
module RequestKey {
  import opened Common
  import opened JsValue
  import Json

  /** `(cfg.method || 'get').toUpperCase()`. */
  function KeyMethod(cfg: Fields): (r: string)
    ensures !Truthy(Lookup(cfg, "method")) ==> r == "GET"
    ensures Lookup(cfg, "method").Str? && Lookup(cfg, "method").s != "" ==> r == Upper(Lookup(cfg, "method").s)
  {
    var m := Lookup(cfg, "method");
    var r := Upper(ToJsString(Or(m, Str("get"))));
    assert !Truthy(m) ==> r == "GET" by {
      if !Truthy(m) {
        assert ToJsString(Or(m, Str("get"))) == "get";
        assert Upper("get") == "GET";
      }
    }
    r
  }

  /** `cfg.url || ''`. */
  function KeyUrl(cfg: Fields): (r: string)
    ensures !Truthy(Lookup(cfg, "url")) ==> r == ""
    ensures Lookup(cfg, "url").Str? ==> r == Lookup(cfg, "url").s
  {
    ToJsString(Or(Lookup(cfg, "url"), Str("")))
  }

  /** `cfg.params ? JSON.stringify(cfg.params) : ''`. */
  function KeyParams(cfg: Fields): (r: string)
    ensures !Truthy(Lookup(cfg, "params")) ==> r == ""
    ensures Truthy(Lookup(cfg, "params")) ==> Json.Stringify(Lookup(cfg, "params")) == Some(r)
  {
    var p := Lookup(cfg, "params");
    if Truthy(p) then Json.Stringify(p).value else ""
  }

  /** `cfg.data ? (typeof cfg.data === 'string' ? cfg.data : JSON.stringify(cfg.data)) : ''`. */
  function KeyData(cfg: Fields): (r: string)
    ensures !Truthy(Lookup(cfg, "data")) ==> r == ""
    ensures Lookup(cfg, "data").Str? ==> r == Lookup(cfg, "data").s
    ensures Truthy(Lookup(cfg, "data")) && !Lookup(cfg, "data").Str? ==> Json.Stringify(Lookup(cfg, "data")) == Some(r)
  {
    var d := Lookup(cfg, "data");
    if !Truthy(d) then "" else if d.Str? then d.s else Json.Stringify(d).value
  }

  /** `buildRequestKey`: the four fields joined by `|`. */
  function BuildRequestKey(cfg: Fields): (r: string)
    ensures r == KeyMethod(cfg) + "|" + KeyUrl(cfg) + "|" + KeyParams(cfg) + "|" + KeyData(cfg)
    ensures |r| >= 3
  {
    JoinFour(KeyMethod(cfg), KeyUrl(cfg), KeyParams(cfg), KeyData(cfg), "|");
    Join([KeyMethod(cfg), KeyUrl(cfg), KeyParams(cfg), KeyData(cfg)], "|")
  }

  /** The four fields a key was built from, when none of them holds a `|`. */
  predicate Unambiguous(cfg: Fields) {
    '|' !in KeyMethod(cfg) && '|' !in KeyUrl(cfg) && '|' !in KeyParams(cfg) && '|' !in KeyData(cfg)
  }

  /** Splitting a key on `|` gives back exactly its four fields. */
  lemma KeySplits(cfg: Fields)
    requires Unambiguous(cfg)
    ensures Split(BuildRequestKey(cfg), '|') == [KeyMethod(cfg), KeyUrl(cfg), KeyParams(cfg), KeyData(cfg)]
  {
    var parts := [KeyMethod(cfg), KeyUrl(cfg), KeyParams(cfg), KeyData(cfg)];
    SplitJoin(parts, '|');
  }

  /**
   * Two configurations get the same key only when their method, url, params
   * and data fields print the same (as long as no field holds a `|`).
   */
  lemma SameKeySameFields(a: Fields, b: Fields)
    requires Unambiguous(a) && Unambiguous(b)
    requires BuildRequestKey(a) == BuildRequestKey(b)
    ensures KeyMethod(a) == KeyMethod(b) && KeyUrl(a) == KeyUrl(b)
    ensures KeyParams(a) == KeyParams(b) && KeyData(a) == KeyData(b)
  {
    KeySplits(a);
    KeySplits(b);
  }

  /** The params field of a key is JSON that decodes to the params object. */
  lemma KeyParamsDecode(cfg: Fields)
    requires Truthy(Lookup(cfg, "params")) && Json.WellFormedValue(Lookup(cfg, "params"))
    ensures Json.Parse(KeyParams(cfg)) == Json.ToJson(Lookup(cfg, "params"))
  {
    Json.StringifyParse(Lookup(cfg, "params"));
  }
}
