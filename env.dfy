/**
 * `createClientForEnv`: picks the base URL for the running environment and
 * builds a client whose defaults carry it. The environment name
 * (`process.env.NODE_ENV`) is an argument; the `setup` callback is not
 * part of this model.
 */
module Env {
  import opened Common
  import opened JsValue
  import Client

  /** `{ dev, staging?, prod }`. */
  datatype EnvBase = EnvBase(dev: string, staging: Option<string>, prod: string)

  /** `process.env.NODE_ENV || 'development'`. */
  function EnvName(nodeEnv: Option<string>): (e: string)
    ensures e != ""
    ensures nodeEnv.None? || nodeEnv.value == "" ==> e == "development"
    ensures nodeEnv.Some? && nodeEnv.value != "" ==> e == nodeEnv.value
  {
    if nodeEnv.Some? && nodeEnv.value != "" then nodeEnv.value else "development"
  }

  /** `production` takes `prod`, `staging` takes `staging || prod`, anything else `dev`. */
  function BaseUrl(envBase: EnvBase, nodeEnv: Option<string>): (url: string)
    ensures EnvName(nodeEnv) == "production" ==> url == envBase.prod
    ensures EnvName(nodeEnv) == "staging" && envBase.staging.Some? && envBase.staging.value != "" ==> url == envBase.staging.value
    ensures EnvName(nodeEnv) == "staging" && (envBase.staging.None? || envBase.staging.value == "") ==> url == envBase.prod
    ensures EnvName(nodeEnv) != "production" && EnvName(nodeEnv) != "staging" ==> url == envBase.dev
  {
    var env := EnvName(nodeEnv);
    if env == "production" then envBase.prod
    else if env == "staging" then (if envBase.staging.Some? && envBase.staging.value != "" then envBase.staging.value else envBase.prod)
    else envBase.dev
  }

  /** `{ ...defaults, baseURL }`. */
  function EnvDefaults(envBase: EnvBase, defaults: Fields, nodeEnv: Option<string>): Fields {
    Spread(defaults, [("baseURL", Str(BaseUrl(envBase, nodeEnv)))])
  }

  /** The chosen base URL replaces any `baseURL` in `defaults`; every other default is kept. */
  lemma EnvDefaultsLookup(envBase: EnvBase, defaults: Fields, nodeEnv: Option<string>, k: string)
    ensures Lookup(EnvDefaults(envBase, defaults, nodeEnv), k) ==
      if k == "baseURL" then Str(BaseUrl(envBase, nodeEnv)) else Lookup(defaults, k)
  {
    var b := [("baseURL", Str(BaseUrl(envBase, nodeEnv)))];
    assert Spread(defaults, b) == Put(defaults, "baseURL", b[0].1) by {
      assert b[1..] == [];
    }
    LookupPut(defaults, "baseURL", b[0].1, k);
  }

  /** An unset or empty `NODE_ENV` counts as development and takes the `dev` URL. */
  lemma UnsetIsDevelopment(envBase: EnvBase, nodeEnv: Option<string>)
    requires nodeEnv.None? || nodeEnv.value == ""
    ensures BaseUrl(envBase, nodeEnv) == envBase.dev
  {
    assert EnvName(nodeEnv) == "development";
  }

  /** `createClientForEnv(envBase, defaults)`: a fresh client over the base defaults, the caller's defaults and the URL. */
  method CreateClientForEnv(envBase: EnvBase, defaults: Fields, nodeEnv: Option<string>) returns (c: Client.AxiosClient)
    ensures fresh(c)
    ensures c.defaults == Spread(Client.BaseDefaults(), EnvDefaults(envBase, defaults, nodeEnv))
    ensures c.controllers == map[] && c.plugins == []
  {
    c := new Client.AxiosClient(EnvDefaults(envBase, defaults, nodeEnv));
  }
}
