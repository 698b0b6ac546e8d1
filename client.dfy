/**
 * `AxiosClient`: a map of abort handles keyed by request key, an ordered list
 * of plugins whose hooks rewrite the config, response or error, and a request
 * loop that retries failed attempts with a back-off delay.
 *
 * The network is an oracle `Transport` that answers attempt number `n` for
 * the config the request hooks produced; the random jitter of the default
 * back-off is the `jitter` argument (its draw for each attempt number); the waits themselves are returned as the
 * list of delays slept.
 */
module Client {
  import opened Common
  import opened JsValue
  import RequestKey
  import Retry

  datatype Response = Response(status: int, data: Value, config: Fields)

  /** An axios error: optional `code`, a message, and the response and config when there are some. */
  datatype HttpError = HttpError(code: Option<string>, message: string, response: Option<Response>, config: Option<Fields>)

  datatype Outcome = Success(response: Response) | Failure(error: HttpError)

  /** The network: the answer to attempt `n` (counted from 0) for the config sent. */
  type Transport = (nat, Fields) -> Outcome

  /** A hook returns a replacement value, or `None` for a falsy return (keep the current value). */
  type Hook<!T> = Option<T -> Option<T>>

  datatype Plugin = Plugin(onRequest: Hook<Fields>, onResponse: Hook<Response>, onError: Hook<HttpError>)

  datatype Strategy = Exponential(backoff: Retry.Backoff) | Custom(nextDelay: int -> real)

  datatype RetryOptions = RetryOptions(times: Option<int>, strategy: Option<Strategy>, retryOn: Option<HttpError -> bool>)

  /** The part of `RequestExtras` the client reads. */
  datatype ClientOptions = ClientOptions(key: Option<string>, autoCancel: Option<bool>, retry: Option<RetryOptions>)

  // ---- plugin chains ----

  function Step<T>(h: Hook<T>, x: T): T {
    match h
    case None => x
    case Some(f) => f(x).GetOr(x)
  }

  /** The hooks run in list order, each on the value the previous one left. */
  function Chain<T>(hs: seq<Hook<T>>, x: T): T
    decreases |hs|
  {
    if |hs| == 0 then x else Step(hs[|hs| - 1], Chain(hs[..|hs| - 1], x))
  }

  function RequestHooks(ps: seq<Plugin>): (hs: seq<Hook<Fields>>)
    ensures |hs| == |ps| && forall i :: 0 <= i < |ps| ==> hs[i] == ps[i].onRequest
  {
    seq(|ps|, i requires 0 <= i < |ps| => ps[i].onRequest)
  }

  function ResponseHooks(ps: seq<Plugin>): (hs: seq<Hook<Response>>)
    ensures |hs| == |ps| && forall i :: 0 <= i < |ps| ==> hs[i] == ps[i].onResponse
  {
    seq(|ps|, i requires 0 <= i < |ps| => ps[i].onResponse)
  }

  function ErrorHooks(ps: seq<Plugin>): (hs: seq<Hook<HttpError>>)
    ensures |hs| == |ps| && forall i :: 0 <= i < |ps| ==> hs[i] == ps[i].onError
  {
    seq(|ps|, i requires 0 <= i < |ps| => ps[i].onError)
  }

  /** A hook appended to the list runs after all the others. */
  lemma ChainAppend<T>(hs: seq<Hook<T>>, h: Hook<T>, x: T)
    ensures Chain(hs + [h], x) == Step(h, Chain(hs, x))
  {
    assert (hs + [h])[..|hs|] == hs;
  }

  /** The first hook of the list runs first, on the original value. */
  lemma {:induction false} ChainCons<T>(h: Hook<T>, hs: seq<Hook<T>>, x: T)
    ensures Chain([h] + hs, x) == Chain(hs, Step(h, x))
    decreases |hs|
  {
    if |hs| > 0 {
      var init := hs[..|hs| - 1];
      ChainCons(h, init, x);
      assert ([h] + hs)[..|hs|] == [h] + init;
    } else {
      assert [h][..0] == [];
    }
  }

  /** Hooks that are absent or decline (falsy return) leave the value as it was. */
  lemma {:induction false} ChainDeclines<T>(hs: seq<Hook<T>>, x: T)
    requires forall i :: 0 <= i < |hs| ==> hs[i].None? || hs[i].value(x).None?
    ensures Chain(hs, x) == x
    decreases |hs|
  {
    if |hs| > 0 {
      ChainDeclines(hs[..|hs| - 1], x);
    }
  }

  /**
   * One attempt through the interceptors: the request hooks, the network,
   * then the response hooks or the error hooks. A network failure stays a
   * failure whatever the error hooks return.
   */
  function Dispatch(ps: seq<Plugin>, transport: Transport, attempt: nat, cfg: Fields): (o: Outcome)
    ensures o.Success? <==> Answer(transport, attempt, Chain(RequestHooks(ps), cfg)).Success?
    ensures o.Failure? ==> o.error == Chain(ErrorHooks(ps), Answer(transport, attempt, Chain(RequestHooks(ps), cfg)).error)
    ensures o.Success? ==> o.response == Chain(ResponseHooks(ps), Answer(transport, attempt, Chain(RequestHooks(ps), cfg)).response)
  {
    match Answer(transport, attempt, Chain(RequestHooks(ps), cfg))
    case Success(res) => Success(Chain(ResponseHooks(ps), res))
    case Failure(e) => Failure(Chain(ErrorHooks(ps), e))
  }

  // ---- request keys and retry policy ----

  /** `opts.key || buildRequestKey(config)`: never empty. */
  function RequestKeyOf(config: Fields, opts: ClientOptions): (k: string)
    ensures k != ""
    ensures opts.key.Some? && opts.key.value != "" ==> k == opts.key.value
    ensures opts.key.None? || opts.key.value == "" ==> k == RequestKey.BuildRequestKey(config)
  {
    if opts.key.Some? && opts.key.value != "" then opts.key.value else RequestKey.BuildRequestKey(config)
  }

  /** The key the request interceptor registers under: `config.__requestKey || buildRequestKey(config)`. */
  function InterceptorKey(cfg: Fields): string {
    var rk := Lookup(cfg, "__requestKey");
    if Truthy(rk) then ToJsString(rk) else RequestKey.BuildRequestKey(cfg)
  }

  /** The config carries the request key `key` under `__requestKey`, as `request` tags it. */
  predicate Tagged(cfg: Fields, key: string) {
    key != "" && Lookup(cfg, "__requestKey") == Str(key)
  }

  /** On a tagged config the interceptor registers under the tag. */
  lemma TaggedKey(cfg: Fields, key: string)
    requires Tagged(cfg, key)
    ensures InterceptorKey(cfg) == key
  {
  }

  /** Whether the config already carries an abort signal (`config.signal` truthy). */
  predicate HasSignal(cfg: Fields) {
    Truthy(Lookup(cfg, "signal"))
  }

  /**
   * The default `retryOn`: retry when the error has no code, when its code is
   * `ECONNABORTED`, or when its response status is in 500..599.
   */
  predicate DefaultRetryOn(e: HttpError) {
    var s := if e.response.Some? then Some(e.response.value.status) else None;
    e.code.None? || e.code.value == "" || e.code.value == "ECONNABORTED" || (s.Some? && 500 <= s.value < 600)
  }

  /** An error whose code is neither empty nor `ECONNABORTED` is retried only for a 5xx response. */
  lemma DefaultRetryOnCoded(e: HttpError)
    requires e.code.Some? && e.code.value != "" && e.code.value != "ECONNABORTED"
    ensures DefaultRetryOn(e) <==> e.response.Some? && 500 <= e.response.value.status < 600
  {
  }

  /**
   * The resolved retry options of one request: how many retries, the
   * strategy's `nextDelay`, and the `retryOn` predicate.
   */
  datatype Policy = Policy(times: int, nextDelay: int -> real, retryOn: HttpError -> bool)

  /** `strategy.nextDelay(attempt)`, with `jitter(attempt)` standing for the default strategy's random draw. */
  function DelayFor(s: Strategy, jitter: int -> real): int -> real {
    match s
    case Exponential(b) => (n: int) => Retry.NextDelay(b, n, jitter(n))
    case Custom(f) => f
  }

  /** The back-off in force when the strategy is the default one or an `ExponentialBackoffStrategy`. */
  function BackoffOf(opts: ClientOptions): Option<Retry.Backoff> {
    var r := opts.retry.GetOr(RetryOptions(None, None, None));
    match r.strategy.GetOr(Exponential(Retry.NewBackoff(None, None)))
    case Exponential(b) => Some(b)
    case Custom(_) => None
  }

  /** `times ?? 0`, `strategy ?? new ExponentialBackoffStrategy()`, `retryOn` or the default. */
  function PolicyOf(opts: ClientOptions, jitter: int -> real): Policy {
    var r := opts.retry.GetOr(RetryOptions(None, None, None));
    Policy(r.times.GetOr(0),
           DelayFor(r.strategy.GetOr(Exponential(Retry.NewBackoff(None, None))), jitter),
           if r.retryOn.Some? then r.retryOn.value else (e: HttpError) => DefaultRetryOn(e))
  }

  /**
   * The defaults of the retry options: no retries, the exponential back-off
   * of 200 ms up to 8000 ms, and the default `retryOn`; a custom strategy's
   * `nextDelay` is used as it is.
   */
  lemma PolicyOfDefaults(opts: ClientOptions, jitter: int -> real)
    ensures var p := PolicyOf(opts, jitter);
      (opts.retry.None? || opts.retry.value.times.None? ==> p.times == 0) &&
      (opts.retry.Some? && opts.retry.value.times.Some? ==> p.times == opts.retry.value.times.value) &&
      (opts.retry.Some? && opts.retry.value.retryOn.Some? ==> p.retryOn == opts.retry.value.retryOn.value) &&
      (opts.retry.Some? && opts.retry.value.strategy.Some? && opts.retry.value.strategy.value.Custom? ==>
         p.nextDelay == opts.retry.value.strategy.value.nextDelay)
    ensures opts.retry.None? || opts.retry.value.strategy.None? ==>
      forall n :: PolicyOf(opts, jitter).nextDelay(n) == Retry.NextDelay(Retry.Backoff(200.0, 8000.0), n, jitter(n))
    ensures opts.retry.None? || opts.retry.value.retryOn.None? ==>
      forall e :: PolicyOf(opts, jitter).retryOn(e) == DefaultRetryOn(e)
  {
  }

  /** Under an exponential back-off no wait exceeds its `max`. */
  lemma ExponentialPolicyCapped(opts: ClientOptions, jitter: int -> real)
    requires BackoffOf(opts).Some?
    ensures forall n :: PolicyOf(opts, jitter).nextDelay(n) <= BackoffOf(opts).value.max
  {
    var b := BackoffOf(opts).value;
    forall n
      ensures PolicyOf(opts, jitter).nextDelay(n) <= b.max
    {
      assert PolicyOf(opts, jitter).nextDelay(n) == Retry.NextDelay(b, n, jitter(n));
    }
  }

  datatype Run = Run(outcome: Outcome, calls: nat, delays: seq<real>)

  /** The answers the interceptors hand the retry loop: attempt `n` is `Dispatch(.., n, ..)`. */
  function Answers(ps: seq<Plugin>, transport: Transport, cfg: Fields): nat -> Outcome {
    (n: nat) => Dispatch(ps, transport, n, cfg)
  }

  /**
   * The retry loop from attempt `attempt` on: stop at the first success, at
   * an error `retryOn` rejects, or once the failure count exceeds `times`;
   * otherwise wait `nextDelay(failures)` and try again.
   */
  function RunFrom(answer: nat -> Outcome, p: Policy, attempt: nat): (r: Run)
    decreases if attempt <= p.times then p.times - attempt + 1 else 0
  {
    var o := answer(attempt);
    if Stops(p, o, attempt) then Run(o, 1, [])
    else
      var rest := RunFrom(answer, p, attempt + 1);
      Run(rest.outcome, rest.calls + 1, [WaitBefore(p, attempt + 1)] + rest.delays)
  }

  /** After attempt `attempt` answered `o`, the loop ends: success, an error `retryOn` rejects, or no retries left. */
  predicate Stops(p: Policy, o: Outcome, attempt: nat) {
    o.Success? || !p.retryOn(o.error) || attempt + 1 > p.times
  }

  /** The wait before attempt `failures` (after that many failures). */
  function WaitBefore(p: Policy, failures: nat): real {
    p.nextDelay(failures)
  }

  /** The network's answer to one attempt. */
  function Answer(transport: Transport, attempt: nat, sent: Fields): Outcome {
    transport(attempt, sent)
  }

  /** The network is asked at most `times + 1` times, with one wait between consecutive attempts. */
  lemma {:induction false} RunBounds(answer: nat -> Outcome, p: Policy, attempt: nat)
    ensures var r := RunFrom(answer, p, attempt);
      1 <= r.calls && |r.delays| == r.calls - 1 &&
      (attempt <= p.times ==> r.calls <= p.times - attempt + 1) &&
      (attempt > p.times ==> r.calls == 1)
    decreases if attempt <= p.times then p.times - attempt + 1 else 0
  {
    var o := answer(attempt);
    if !Stops(p, o, attempt) {
      RunBounds(answer, p, attempt + 1);
    }
  }

  /** The outcome is the answer of the last attempt made, and a failure is terminal for a reason. */
  lemma {:induction false} RunOutcome(answer: nat -> Outcome, p: Policy, attempt: nat)
    ensures var r := RunFrom(answer, p, attempt);
      r.calls >= 1 && r.outcome == answer(attempt + r.calls - 1) &&
      (r.outcome.Failure? ==> !p.retryOn(r.outcome.error) || attempt + r.calls > p.times) &&
      (forall n :: attempt <= n < attempt + r.calls - 1 ==>
         answer(n).Failure? && p.retryOn(answer(n).error))
    decreases if attempt <= p.times then p.times - attempt + 1 else 0
  {
    var o := answer(attempt);
    if !Stops(p, o, attempt) {
      RunOutcome(answer, p, attempt + 1);
    }
  }

  /** When `retryOn` rejects the first error, the network is asked exactly once. */
  lemma NoRetryOnRejectedError(answer: nat -> Outcome, p: Policy)
    requires answer(0).Failure?
    requires !p.retryOn(answer(0).error)
    ensures RunFrom(answer, p, 0) == Run(answer(0), 1, [])
  {
  }

  /** When `nextDelay` never exceeds `cap` (the exponential strategy's `max`), no wait of the run does. */
  lemma {:induction false} RunDelaysCapped(answer: nat -> Outcome, p: Policy, cap: real, attempt: nat)
    requires forall n :: p.nextDelay(n) <= cap
    ensures forall i :: 0 <= i < |RunFrom(answer, p, attempt).delays| ==>
      RunFrom(answer, p, attempt).delays[i] <= cap
    decreases if attempt <= p.times then p.times - attempt + 1 else 0
  {
    var o := answer(attempt);
    if !Stops(p, o, attempt) {
      RunDelaysCapped(answer, p, cap, attempt + 1);
    }
  }

  /**
   * Loop bookkeeping for `Request`: after `attempt` failed attempts and the
   * waits `delays`, the rest of the run is `RunFrom(.., attempt)`.
   */
  predicate RunSoFar(answer: nat -> Outcome, p: Policy, attempt: nat, delays: seq<real>) {
    var rest := RunFrom(answer, p, attempt);
    RunFrom(answer, p, 0) == Run(rest.outcome, attempt + rest.calls, delays + rest.delays)
  }

  lemma RunStart(answer: nat -> Outcome, p: Policy)
    ensures RunSoFar(answer, p, 0, [])
  {
    assert [] + RunFrom(answer, p, 0).delays == RunFrom(answer, p, 0).delays;
  }

  lemma RunStops(answer: nat -> Outcome, p: Policy, attempt: nat, delays: seq<real>)
    requires RunSoFar(answer, p, attempt, delays)
    requires Stops(p, answer(attempt), attempt)
    ensures RunFrom(answer, p, 0) == Run(answer(attempt), attempt + 1, delays)
  {
    assert delays + [] == delays;
  }

  lemma RunContinues(answer: nat -> Outcome, p: Policy, attempt: nat, delays: seq<real>)
    requires RunSoFar(answer, p, attempt, delays)
    requires !Stops(p, answer(attempt), attempt)
    ensures RunSoFar(answer, p, attempt + 1, delays + [WaitBefore(p, attempt + 1)])
  {
    var d := WaitBefore(p, attempt + 1);
    var rest := RunFrom(answer, p, attempt + 1);
    assert delays + ([d] + rest.delays) == (delays + [d]) + rest.delays;
  }

  /** The two maps agree on every key but `key`. */
  ghost predicate SameOutside(a: map<string, AbortHandle>, b: map<string, AbortHandle>, key: string) {
    forall k :: k != key ==> (k in a <==> k in b) && (k in a ==> a[k] == b[k])
  }

  /** Agreement outside `key` composes. */
  lemma SameOutsideTrans(a: map<string, AbortHandle>, b: map<string, AbortHandle>, c: map<string, AbortHandle>, key: string)
    requires SameOutside(a, b, key) && SameOutside(b, c, key)
    ensures SameOutside(a, c, key)
  {
  }

  // ---- the client ----

  class AbortHandle {
    var aborted: bool

    constructor ()
      ensures !aborted
    {
      aborted := false;
    }

    method Abort()
      modifies this
      ensures aborted
    {
      aborted := true;
    }
  }

  /** The instance defaults: a 15 s timeout and a JSON content type. */
  function BaseDefaults(): Fields {
    [("timeout", Num(15000)), ("headers", Obj([("Content-Type", Str("application/json"))]))]
  }

  class AxiosClient {
    var defaults: Fields
    var controllers: map<string, AbortHandle>
    var plugins: seq<Plugin>

    /** The caller's defaults are laid over the base defaults; no controllers, no plugins. */
    constructor (defaults: Fields)
      ensures this.defaults == Spread(BaseDefaults(), defaults)
      ensures controllers == map[] && plugins == []
    {
      this.defaults := Spread(BaseDefaults(), defaults);
      controllers := map[];
      plugins := [];
    }

    /** `use(plugin)`: appends to the plugin list. */
    method Use(p: Plugin)
      modifies this
      ensures plugins == old(plugins) + [p]
      ensures controllers == old(controllers) && defaults == old(defaults)
    {
      plugins := plugins + [p];
    }

    method UseRequest(f: Fields -> Option<Fields>)
      modifies this
      ensures plugins == old(plugins) + [Plugin(Some(f), None, None)]
      ensures controllers == old(controllers) && defaults == old(defaults)
    {
      Use(Plugin(Some(f), None, None));
    }

    method UseResponse(f: Response -> Option<Response>)
      modifies this
      ensures plugins == old(plugins) + [Plugin(None, Some(f), None)]
      ensures controllers == old(controllers) && defaults == old(defaults)
    {
      Use(Plugin(None, Some(f), None));
    }

    method UseError(f: HttpError -> Option<HttpError>)
      modifies this
      ensures plugins == old(plugins) + [Plugin(None, None, Some(f))]
      ensures controllers == old(controllers) && defaults == old(defaults)
    {
      Use(Plugin(None, None, Some(f)));
    }

    /** `cancel(key)`: aborts and forgets the handle under `key`; no other entry is touched. */
    method Cancel(key: string)
      modifies this, if key in controllers then {controllers[key]} else {}
      ensures plugins == old(plugins) && defaults == old(defaults)
      ensures key in old(controllers) ==> old(controllers)[key].aborted
      ensures controllers == old(controllers) - {key}
    {
      if key in controllers {
        controllers[key].Abort();
        controllers := controllers - {key};
      }
    }

    /** `cancelAll()`: aborts every registered handle and empties the map. */
    method CancelAll()
      modifies this, controllers.Values
      ensures plugins == old(plugins) && defaults == old(defaults)
      ensures forall k :: k in old(controllers) ==> old(controllers)[k].aborted
      ensures controllers == map[]
    {
      var pending := controllers.Keys;
      while pending != {}
        invariant pending <= controllers.Keys
        invariant plugins == old(plugins) && defaults == old(defaults)
        invariant controllers == old(controllers)
        invariant forall k :: k in controllers && k !in pending ==> controllers[k].aborted
        decreases pending
      {
        var k :| k in pending;
        controllers[k].Abort();
        pending := pending - {k};
      }
      controllers := map[];
    }

    /** The request-hook loop of the request interceptor. */
    method RunRequestHooks(c: Fields) returns (r: Fields)
      ensures r == Chain(RequestHooks(plugins), c)
    {
      var hs := RequestHooks(plugins);
      r := c;
      for i := 0 to |hs|
        invariant r == Chain(hs[..i], c)
      {
        assert hs[..i + 1][..i] == hs[..i];
        r := Step(hs[i], r);
      }
      assert hs[..|hs|] == hs;
    }

    /** The response-hook loop of the response interceptor. */
    method RunResponseHooks(res: Response) returns (r: Response)
      ensures r == Chain(ResponseHooks(plugins), res)
    {
      var hs := ResponseHooks(plugins);
      r := res;
      for i := 0 to |hs|
        invariant r == Chain(hs[..i], res)
      {
        assert hs[..i + 1][..i] == hs[..i];
        r := Step(hs[i], r);
      }
      assert hs[..|hs|] == hs;
    }

    /** The error-hook loop of the error interceptor (the caller then rejects). */
    method RunErrorHooks(e: HttpError) returns (r: HttpError)
      ensures r == Chain(ErrorHooks(plugins), e)
    {
      var hs := ErrorHooks(plugins);
      r := e;
      for i := 0 to |hs|
        invariant r == Chain(hs[..i], e)
      {
        assert hs[..i + 1][..i] == hs[..i];
        r := Step(hs[i], r);
      }
      assert hs[..|hs|] == hs;
    }

    /**
     * One attempt: the request interceptor registers a fresh handle under the
     * config's key unless the config already has a signal, runs the request
     * hooks, sends, and runs the response or error hooks.
     */
    method Send(cfg: Fields, attempt: nat, transport: Transport) returns (o: Outcome, ghost handle: AbortHandle?)
      modifies this
      ensures o == Dispatch(plugins, transport, attempt, cfg)
      ensures plugins == old(plugins) && defaults == old(defaults)
      ensures HasSignal(cfg) ==> controllers == old(controllers)
      ensures !HasSignal(cfg) ==>
        (handle != null && fresh(handle) && !handle.aborted && controllers == old(controllers)[InterceptorKey(cfg) := handle])
    {
      var rk := InterceptorKey(cfg);
      handle := null;
      if !HasSignal(cfg) {
        var h := new AbortHandle();
        controllers := controllers[rk := h];
        handle := h;
      }
      var sent := RunRequestHooks(cfg);
      match Answer(transport, attempt, sent)
      case Success(res) =>
        var r := RunResponseHooks(res);
        o := Success(r);
      case Failure(e) =>
        var r := RunErrorHooks(e);
        o := Failure(r);
    }

    /**
     * One pass of the `while (true)` body of `request`: send; on success
     * forget the key's handle and stop; on an error stop when `retryOn`
     * rejects it or the failure count exceeds `times`, otherwise go on.
     */
    method Attempt(ghost answer: nat -> Outcome, cfg: Fields, key: string, policy: Policy, transport: Transport, attempt: nat, ghost delays: seq<real>)
      returns (o: Outcome, stop: bool, delay: real, ghost handle: AbortHandle?)
      requires Tagged(cfg, key) && answer == Answers(plugins, transport, cfg)
      requires RunSoFar(answer, policy, attempt, delays)
      modifies this
      ensures plugins == old(plugins) && defaults == old(defaults)
      ensures stop ==> RunFrom(answer, policy, 0) == Run(o, attempt + 1, delays)
      ensures !stop ==>
        (attempt + 1 <= policy.times && RunSoFar(answer, policy, attempt + 1, delays + [delay]))
      ensures o.Success? ==> stop
      ensures SameOutside(controllers, old(controllers), key)
      ensures o.Success? ==> key !in controllers
      ensures o.Failure? && HasSignal(cfg) ==> controllers == old(controllers)
      ensures o.Failure? && !HasSignal(cfg) ==>
        (handle != null && fresh(handle) && !handle.aborted && key in controllers && controllers[key] == handle)
    {
      TaggedKey(cfg, key);
      o, handle := Send(cfg, attempt, transport);
      assert o == answer(attempt);
      if o.Success? {
        RunStops(answer, policy, attempt, delays);
        controllers := controllers - {key};
        return o, true, 0.0, handle;
      }
      var failures := attempt + 1;
      if Stops(policy, o, attempt) {
        RunStops(answer, policy, attempt, delays);
        return o, true, 0.0, handle;
      }
      RunContinues(answer, policy, attempt, delays);
      stop, delay := false, WaitBefore(policy, failures);
    }

    /**
     * The retry loop of `request`: attempts until one stops the run, waiting
     * `nextDelay(failures)` between attempts.
     */
    method RetryLoop(cfg: Fields, key: string, policy: Policy, transport: Transport)
      returns (outcome: Outcome, calls: nat, delays: seq<real>, ghost last: AbortHandle?)
      requires Tagged(cfg, key)
      modifies this
      ensures Run(outcome, calls, delays) == RunFrom(Answers(plugins, transport, cfg), policy, 0)
      ensures plugins == old(plugins) && defaults == old(defaults)
      ensures SameOutside(controllers, old(controllers), key)
      ensures outcome.Success? ==> key !in controllers
      ensures outcome.Failure? && HasSignal(cfg) ==> controllers == old(controllers)
      ensures outcome.Failure? && !HasSignal(cfg) ==>
        (last != null && fresh(last) && !last.aborted && key in controllers && controllers[key] == last)
    {
      ghost var answer := Answers(plugins, transport, cfg);
      var attempt: nat := 0;
      calls := 0;
      delays := [];
      RunStart(answer, policy);
      while true
        invariant plugins == old(plugins) && defaults == old(defaults)
        invariant calls == attempt && |delays| == attempt
        invariant attempt == 0 || attempt <= policy.times
        invariant RunSoFar(answer, policy, attempt, delays)
        invariant SameOutside(controllers, old(controllers), key)
        invariant HasSignal(cfg) ==> controllers == old(controllers)
        decreases policy.times - attempt
      {
        ghost var before := controllers;
        var o, stop, d;
        o, stop, d, last := Attempt(answer, cfg, key, policy, transport, attempt, delays);
        SameOutsideTrans(controllers, before, old(controllers), key);
        calls := calls + 1;
        if stop {
          return o, calls, delays, last;
        }
        attempt, delays := attempt + 1, delays + [d];
      }
    }

    /**
     * `request(config, opts)`: tags the config with its key, cancels an older
     * request under the same key when `autoCancel` is set, and runs the retry
     * loop. A success forgets the key's handle; a terminal failure leaves the
     * handle of its last attempt registered.
     */
    method Request(config: Fields, opts: ClientOptions, transport: Transport, jitter: int -> real)
      returns (outcome: Outcome, calls: nat, delays: seq<real>)
      modifies this, set k | k in controllers && k == RequestKeyOf(config, opts) :: controllers[k]
      ensures var key := RequestKeyOf(config, opts);
        Run(outcome, calls, delays) ==
          RunFrom(Answers(plugins, transport, Put(config, "__requestKey", Str(key))), PolicyOf(opts, jitter), 0)
      ensures plugins == old(plugins) && defaults == old(defaults)
      ensures var key := RequestKeyOf(config, opts);
        opts.autoCancel == Some(true) && key in old(controllers) ==> old(controllers)[key].aborted
      ensures SameOutside(controllers, old(controllers), RequestKeyOf(config, opts))
      ensures outcome.Success? ==> RequestKeyOf(config, opts) !in controllers
      ensures var key := RequestKeyOf(config, opts);
        outcome.Failure? && !HasSignal(config) ==>
          key in controllers && fresh(controllers[key]) && !controllers[key].aborted
      ensures var key := RequestKeyOf(config, opts);
        outcome.Failure? && HasSignal(config) ==>
          (key in controllers <==> key in old(controllers) && opts.autoCancel != Some(true)) &&
          (key in controllers ==> controllers[key] == old(controllers)[key])
    {
      var key := RequestKeyOf(config, opts);
      var cfg := Put(config, "__requestKey", Str(key));
      LookupPut(config, "__requestKey", Str(key), "__requestKey");
      LookupPut(config, "__requestKey", Str(key), "signal");
      if opts.autoCancel == Some(true) {
        Cancel(key);
      }
      ghost var before := controllers;
      assert SameOutside(before, old(controllers), key);
      ghost var last;
      outcome, calls, delays, last := RetryLoop(cfg, key, PolicyOf(opts, jitter), transport);
      SameOutsideTrans(controllers, before, old(controllers), key);
    }
  }
}
