/**
 * `createErrorTipsPlugin`: classifies business codes and HTTP errors into a
 * toast message. The toast is the only effect, so each hook is modelled by
 * the message it would show (`None` when nothing is shown); both hooks hand
 * their input on unchanged.
 */
module ErrorTips {
  import opened Common
  import opened JsValue
  import Client

  /** The plugin's options as given: whether a `toast` function was supplied, and the optional fields. */
  datatype TipOptions = TipOptions(
    hasToast: bool,
    bizCodeField: Option<string>,
    bizMsgField: Option<string>,
    successCode: Option<int>,
    defaultSilent: Option<bool>)

  datatype Settings = Settings(hasToast: bool, codeField: string, msgField: string, successCode: int, defaultSilent: bool)

  /** The defaults: business code in `code`, message in `message`, success code 0, not silent. */
  function Configure(o: TipOptions): (s: Settings)
    ensures o.bizCodeField.None? ==> s.codeField == "code"
    ensures o.bizMsgField.None? ==> s.msgField == "message"
    ensures o.successCode.None? ==> s.successCode == 0
    ensures o.defaultSilent.None? ==> !s.defaultSilent
    ensures s.hasToast == o.hasToast
  {
    Settings(o.hasToast, o.bizCodeField.GetOr("code"), o.bizMsgField.GetOr("message"),
             o.successCode.GetOr(0), o.defaultSilent.GetOr(false))
  }

  /** `config?.__silent ?? defaultSilent`. */
  function SilentFlag(s: Settings, config: Option<Fields>): Value {
    var flag := if config.Some? then Lookup(config.value, "__silent") else Undefined;
    OrElse(flag, Bool(s.defaultSilent))
  }

  /** `tip(config, msg)`: the message, when the request is not silent and there is a toast function. */
  function Tip(s: Settings, config: Option<Fields>, msg: Value): (r: Option<Value>)
    ensures r.Some? <==> s.hasToast && !Truthy(SilentFlag(s, config))
    ensures r.Some? ==> r.value == msg
  {
    if !Truthy(SilentFlag(s, config)) && s.hasToast then Some(msg) else None
  }

  /** `onResponse`: a numeric business code other than the success code shows the business message or `业务错误`. */
  function ResponseTip(s: Settings, response: Client.Response): (r: Option<Value>)
    ensures r.Some? ==> PropertyOf(response.data, s.codeField).Num? && PropertyOf(response.data, s.codeField).n != s.successCode
    ensures r.Some? ==> r.value == OrElse(PropertyOf(response.data, s.msgField), Str("业务错误"))
    ensures (PropertyOf(response.data, s.codeField).Num? && PropertyOf(response.data, s.codeField).n != s.successCode) ==>
      r == Tip(s, Some(response.config), OrElse(PropertyOf(response.data, s.msgField), Str("业务错误")))
  {
    var code := PropertyOf(response.data, s.codeField);
    if code.Num? && code.n != s.successCode then
      Tip(s, Some(response.config), OrElse(PropertyOf(response.data, s.msgField), Str("业务错误")))
    else None
  }

  /**
   * The message `onError` picks: no response means a network failure
   * (checked first), then 401 means an expired login, then a status of 500
   * or more a server failure; anything else shows the response's message, the
   * error's message or `请求失败`, the first that is truthy.
   */
  function ErrorMessage(e: Client.HttpError): (m: Value)
    ensures e.response.None? ==> m == Str("网络异常，稍后重试")
    ensures e.response.Some? && e.response.value.status == 401 ==> m == Str("未授权或登录已过期")
    ensures e.response.Some? && e.response.value.status >= 500 ==> m == Str("服务异常，请联系管理员")
    ensures e.response.Some? && e.response.value.status != 401 && e.response.value.status < 500 ==>
      m == Or(Or(PropertyOf(e.response.value.data, "message"), Str(e.message)), Str("请求失败"))
    ensures Truthy(m)
  {
    if e.response.None? then Str("网络异常，稍后重试")
    else
      var status := e.response.value.status;
      if status == 401 then Str("未授权或登录已过期")
      else if status != 0 && status >= 500 then Str("服务异常，请联系管理员")
      else Or(Or(PropertyOf(e.response.value.data, "message"), Str(e.message)), Str("请求失败"))
  }

  /** `onError`: the chosen message, subject to the error config's silent flag. */
  function ErrorTip(s: Settings, e: Client.HttpError): Option<Value> {
    Tip(s, e.config, ErrorMessage(e))
  }

  /** The plugin's hooks: both return their input, so they never change what the chain carries. */
  function TipsPlugin(): (p: Client.Plugin)
    ensures forall r :: Client.Step(p.onResponse, r) == r
    ensures forall e :: Client.Step(p.onError, e) == e
    ensures p.onRequest.None?
  {
    Client.Plugin(None, Some((r: Client.Response) => Some(r)), Some((e: Client.HttpError) => Some(e)))
  }

  /** A request sent with `silent: true` never shows a toast, whatever went wrong. */
  lemma SilentNeverToasts(s: Settings, e: Client.HttpError)
    requires e.config.Some? && Lookup(e.config.value, "__silent") == Bool(true)
    ensures ErrorTip(s, e) == None
  {
  }

  /** Without a `__silent` flag the default decides: an unsilenced plugin with a toast function shows every error. */
  lemma DefaultSilenceDecides(s: Settings, e: Client.HttpError)
    requires e.config.None? || IsNullish(Lookup(e.config.value, "__silent"))
    ensures ErrorTip(s, e).Some? <==> s.hasToast && !s.defaultSilent
  {
  }
}
