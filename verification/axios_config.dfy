/**
 * The authenticated request pipeline of src/utils/Axiosconfig.ts.
 *
 * The module-level state of the source (`isRefreshing`, `refreshSubscribers`), the three
 * browser-storage keys, the forced redirect to `/login` and the log of requests handed to the
 * network form a `Session`. Each interceptor invocation is one event:
 *   - `ReceiveStep`: a reply (or a network failure) arrives for a request;
 *   - `RefreshStep`: the refresh call awaited by a 401 handler settles.
 * Promise interleaving is not modelled: events happen one after another.
 * The class `HttpClient` holds the same state in mutable fields; its methods are proved to
 * perform exactly the transitions the functions describe, and the lemmas at the end state the
 * properties of whole event sequences (single flight, FIFO draining, what a failed refresh leaves).
 */
module AxiosConfig {
  import opened Wrappers
  import opened Json
  import JsText

  const RefreshUrl: string := "/auth/refresh-token"

  datatype StorageKey = AccessToken | RefreshToken | UserKey

  const AllKeys: set<StorageKey> := {AccessToken, RefreshToken, UserKey}

  /** Browser storage: a missing key is what `getItem` reports as `null`. */
  type Storage = map<StorageKey, string>

  /** `if (localStorage.getItem(key))`: present and not the empty string. */
  predicate Stored(storage: Storage, key: StorageKey)
  {
    key in storage && storage[key] != ""
  }

  function Bearer(token: string): string
  {
    "Bearer " + token
  }

  /** A request configuration: HTTP method, URL, body and the `Authorization` header. */
  datatype Request = Request(verb: string, url: string, body: Option<Json>, authorization: Option<string>)

  /** What came back for a request: an HTTP status and decoded body, or no response (`status == None`). */
  datatype Reply = Reply(status: Option<int>, body: Option<Json>)

  /** axios resolves a reply with a 2xx status and rejects every other one. */
  predicate IsSuccessStatus(reply: Reply)
  {
    reply.status.Some? && 200 <= reply.status.value < 300
  }

  /** `error.response?.data`: the body, when there was a response at all. */
  function ResponseData(reply: Reply): Option<Json>
  {
    if reply.status.Some? then reply.body else None
  }

  /** The values a promise of the pipeline rejects with. */
  datatype Rejection =
    | ApiError(code: Option<Json>, message: Json)   // the plain object `{code, message}`
    | AxiosError(config: Request, reply: Reply)      // axios's own error for `config`, passed on unchanged
    | MissingAccessToken                             // `new Error('No access token in refresh response')`

  /** What an interceptor invocation leaves the caller with. */
  datatype Outcome =
    | Resolved(envelope: Json)             // the promise resolves with the envelope
    | Rejected(reason: Rejection)          // the promise rejects
    | AwaitingRefresh(refreshCall: Request) // the handler posted `refreshCall` and awaits its reply
    | Subscribed                           // the handler waits in `refreshSubscribers`
    | Retrying(retry: Request)             // the handler resolves with the result of re-sending `retry`

  datatype Session = Session(
    isRefreshing: bool,
    subscribers: seq<Request>,  // each subscriber re-sends its captured request with the new token
    storage: Storage,
    redirectedToLogin: bool,    // `window.location.href = '/login'` has happened
    sent: seq<Request>)         // every request handed to the network, in order

  // ---------------------------------------------------------------------------------------------
  // Request interceptor and sending

  /** The request interceptor: sets `Authorization: Bearer <token>` when an access token is stored. */
  function Authorize(config: Request, storage: Storage): (r: Request)
    ensures r.verb == config.verb && r.url == config.url && r.body == config.body
    ensures Stored(storage, AccessToken) ==> r.authorization == Some(Bearer(storage[AccessToken]))
    ensures !Stored(storage, AccessToken) ==> r == config
  {
    if Stored(storage, AccessToken) then config.(authorization := Some(Bearer(storage[AccessToken])))
    else config
  }

  /** `httpClient(config)`: the request passes the request interceptor and goes to the network. */
  function Dispatch(s: Session, config: Request): Session
  {
    s.(sent := s.sent + [Authorize(config, s.storage)])
  }

  // ---------------------------------------------------------------------------------------------
  // Response interceptors

  /** The success interceptor: only an envelope whose `status` is `"success"` resolves. */
  function OnFulfilled(body: Option<Json>): (r: Outcome)
    ensures r.Resolved? <==> Get(body, "status") == Some(JStr("success"))
    ensures r.Resolved? ==> Some(r.envelope) == body
    ensures r.Rejected? <==> !r.Resolved?
    ensures r.Rejected? ==> r.reason.ApiError? && r.reason.code == Get(body, "code")
    ensures r.Rejected? && Truthy(Get(body, "message")) ==> Some(r.reason.message) == Get(body, "message")
    ensures r.Rejected? && !Truthy(Get(body, "message")) ==> r.reason.message == JStr("An error occurred")
  {
    if Get(body, "status") == Some(JStr("success")) then Resolved(body.value)
    else Rejected(ApiError(Get(body, "code"), OrElse(Get(body, "message"), JStr("An error occurred"))))
  }

  /** The refresh call the 401 handler posts, before the request interceptor runs. */
  function RefreshRequest(refreshToken: string): Request
  {
    Request("post", RefreshUrl, Some(JObj(map["refreshToken" := JStr(refreshToken)])), None)
  }

  /** Forced logout: the given keys are removed and the browser is sent to `/login`. */
  function Logout(s: Session, keys: set<StorageKey>): (r: Session)
    ensures r.storage.Keys == s.storage.Keys - keys
    ensures forall k :: k in r.storage ==> r.storage[k] == s.storage[k]
    ensures r.redirectedToLogin
    ensures r.isRefreshing == s.isRefreshing && r.subscribers == s.subscribers && r.sent == s.sent
  {
    s.(storage := s.storage - keys, redirectedToLogin := true)
  }

  /**
   * The error interceptor, for a reply axios rejected. Only a 401 touches the session:
   * without a refresh token it logs out keeping nothing but the refresh-token slot; on the refresh
   * endpoint itself it clears the flag and logs out; otherwise it either starts the one refresh
   * call or, while one is running, queues the request. A 403 or any other failure changes nothing.
   */
  function OnRejected(s: Session, config: Request, reply: Reply): (r: (Session, Outcome))
    ensures reply.status != Some(401) ==> r.0 == s && r.1.Rejected? && r.1.reason.ApiError?
    ensures reply.status == Some(403) ==> r.1.reason.code == Some(JNum(403))
    ensures reply.status == Some(403) && Truthy(Get(ResponseData(reply), "message")) ==>
      Some(r.1.reason.message) == Get(ResponseData(reply), "message")
    ensures reply.status == Some(403) && !Truthy(Get(ResponseData(reply), "message")) ==>
      r.1.reason.message == JStr("Access denied")
    ensures reply.status != Some(401) && reply.status != Some(403) ==>
      r.1.reason.code == Some(JNum(if reply.status.Some? && reply.status.value != 0 then reply.status.value else 500))
    ensures reply.status != Some(401) && reply.status != Some(403) && Truthy(Get(ResponseData(reply), "message")) ==>
      Some(r.1.reason.message) == Get(ResponseData(reply), "message")
    ensures reply.status != Some(401) && reply.status != Some(403) && !Truthy(Get(ResponseData(reply), "message")) ==>
      r.1.reason.message == JStr("Network error occurred")
    ensures reply.status == Some(401) && !Stored(s.storage, RefreshToken) ==>
      && r.0 == Logout(s, {AccessToken, UserKey})
      && r.1 == Rejected(AxiosError(config, reply))
    ensures reply.status == Some(401) && Stored(s.storage, RefreshToken) && JsText.Includes(config.url, RefreshUrl) ==>
      && r.0 == Logout(s.(isRefreshing := false), AllKeys)
      && r.1 == Rejected(AxiosError(config, reply))
    ensures reply.status == Some(401) && Stored(s.storage, RefreshToken) && !JsText.Includes(config.url, RefreshUrl) ==>
      && r.0.storage == s.storage && r.0.redirectedToLogin == s.redirectedToLogin && r.0.isRefreshing
      && (s.isRefreshing ==> r.1 == Subscribed && r.0.sent == s.sent && r.0.subscribers == s.subscribers + [config])
      && (!s.isRefreshing ==>
            && r.1.AwaitingRefresh? && r.1.refreshCall.url == RefreshUrl
            && r.0.sent == s.sent + [r.1.refreshCall] && r.0.subscribers == s.subscribers)
  {
    if reply.status == Some(401) then
      if !Stored(s.storage, RefreshToken) then
        (Logout(s, {AccessToken, UserKey}), Rejected(AxiosError(config, reply)))
      else if JsText.Includes(config.url, RefreshUrl) then
        (Logout(s.(isRefreshing := false), AllKeys), Rejected(AxiosError(config, reply)))
      else if !s.isRefreshing then
        var post := RefreshRequest(s.storage[RefreshToken]);
        (Dispatch(s.(isRefreshing := true), post), AwaitingRefresh(Authorize(post, s.storage)))
      else
        (s.(subscribers := s.subscribers + [config]), Subscribed)
    else if reply.status == Some(403) then
      (s, Rejected(ApiError(Some(JNum(403)), OrElse(Get(ResponseData(reply), "message"), JStr("Access denied")))))
    else
      var code := if reply.status.Some? && reply.status.value != 0 then reply.status.value else 500;
      (s, Rejected(ApiError(Some(JNum(code)), OrElse(Get(ResponseData(reply), "message"), JStr("Network error occurred")))))
  }

  /** A reply arrives for `config`: a 2xx reply goes to the success interceptor, any other to the error interceptor. */
  function ReceiveStep(s: Session, config: Request, reply: Reply): (Session, Outcome)
  {
    if IsSuccessStatus(reply) then (s, OnFulfilled(ResponseData(reply))) else OnRejected(s, config, reply)
  }

  // ---------------------------------------------------------------------------------------------
  // Refresh completion

  /** `refreshResponse?.data?.data?.accessToken || refreshResponse?.data?.accessToken`. */
  function NewAccessToken(envelope: Json): Option<Json>
  {
    var data := Get(Some(envelope), "data");
    Or(Get(Get(data, "data"), "accessToken"), Get(data, "accessToken"))
  }

  /** `onRefreshed(token)`: every subscriber re-sends its request with the new token, in order; the list is emptied. */
  function RefreshedState(s: Session, token: string): (r: Session)
    ensures r.subscribers == [] && r.isRefreshing == s.isRefreshing
    ensures r.storage == s.storage && r.redirectedToLogin == s.redirectedToLogin
    ensures |r.sent| == |s.sent| + |s.subscribers| && r.sent[..|s.sent|] == s.sent
    ensures AccessToken in s.storage && s.storage[AccessToken] == token ==>
      forall i :: 0 <= i < |s.subscribers| ==>
        r.sent[|s.sent| + i] == s.subscribers[i].(authorization := Some(Bearer(token)))
  {
    s.(sent := s.sent + RetryAll(s.subscribers, token, s.storage), subscribers := [])
  }

  /** The requests the subscribers re-send: each with `Bearer <token>`, then through the request interceptor. */
  function RetryAll(subscribers: seq<Request>, token: string, storage: Storage): (r: seq<Request>)
    ensures |r| == |subscribers|
    ensures forall i :: 0 <= i < |r| ==> r[i] == Authorize(subscribers[i].(authorization := Some(Bearer(token))), storage)
  {
    seq(|subscribers|, i requires 0 <= i < |subscribers| => Authorize(subscribers[i].(authorization := Some(Bearer(token))), storage))
  }

  /** Re-sending one more subscriber appends its retry to those already re-sent. */
  lemma RetryAllGrows(subscribers: seq<Request>, k: int, token: string, storage: Storage)
    requires 0 <= k < |subscribers|
    ensures RetryAll(subscribers[..k + 1], token, storage)
      == RetryAll(subscribers[..k], token, storage) + [Authorize(subscribers[k].(authorization := Some(Bearer(token))), storage)]
  {
  }

  /**
   * The refresh call `refreshCall`, posted by the handler of `original`, settles with `reply`.
   * The reply first passes the interceptors like any other (for a 401 on the refresh endpoint they
   * already log out); then either the token is stored, the flag cleared, the subscribers drained
   * and `original` re-sent, or the `catch` block logs out. On failure the subscribers stay queued.
   */
  function RefreshStep(s: Session, original: Request, refreshCall: Request, reply: Reply): (Session, Outcome)
  {
    var (s1, settled) := ReceiveStep(s, refreshCall, reply);
    if settled.Resolved? && Truthy(NewAccessToken(settled.envelope)) then
      var token := ToJsString(NewAccessToken(settled.envelope).value);
      var s2 := RefreshedState(s1.(storage := s1.storage[AccessToken := token], isRefreshing := false), token);
      var retry := original.(authorization := Some(Bearer(token)));
      (Dispatch(s2, retry), Retrying(retry))
    else
      var reason := if settled.Rejected? then settled.reason else MissingAccessToken;
      (Logout(s1.(isRefreshing := false), AllKeys), Rejected(reason))
  }

  /** The token a refresh reply carries, as it is stored; `None` when the refresh counts as failed. */
  function RefreshedToken(reply: Reply): Option<string>
  {
    var settled := OnFulfilled(ResponseData(reply));
    if IsSuccessStatus(reply) && settled.Resolved? && Truthy(NewAccessToken(settled.envelope))
    then Some(ToJsString(NewAccessToken(settled.envelope).value))
    else None
  }

  /** Every request of `rs` with its `Authorization` header set to `Bearer <token>`. */
  function WithToken(rs: seq<Request>, token: string): (r: seq<Request>)
    ensures |r| == |rs|
    ensures forall i :: 0 <= i < |rs| ==> r[i] == rs[i].(authorization := Some(Bearer(token)))
  {
    seq(|rs|, i requires 0 <= i < |rs| => rs[i].(authorization := Some(Bearer(token))))
  }

  /**
   * The two ways a refresh ends. Success: the token is stored, the flag cleared, every
   * subscriber re-sent with the new token in order, then the original request; the list is empty.
   * Failure: the flag is cleared, all three keys are gone and the browser goes to `/login`, but the
   * subscribers stay queued and nothing is re-sent.
   */
  lemma RefreshStepOutcomes(s: Session, original: Request, refreshCall: Request, reply: Reply)
    requires refreshCall.url == RefreshUrl
    ensures var (r, o) := RefreshStep(s, original, refreshCall, reply);
      && (o.Retrying? <==> RefreshedToken(reply).Some?)
      && (o.Retrying? ==>
            var token := RefreshedToken(reply).value;
            && o.retry == original.(authorization := Some(Bearer(token)))
            && r.storage == s.storage[AccessToken := token]
            && !r.isRefreshing && r.subscribers == []
            && r.redirectedToLogin == s.redirectedToLogin
            && r.sent == s.sent + WithToken(s.subscribers, token) + [o.retry])
      && (!o.Retrying? ==>
            && o.Rejected?
            && r.storage == map[] && !r.isRefreshing && r.redirectedToLogin
            && r.subscribers == s.subscribers && r.sent == s.sent)
  {
    var (s1, settled) := ReceiveStep(s, refreshCall, reply);
    var (r, o) := RefreshStep(s, original, refreshCall, reply);
    if IsSuccessStatus(reply) {
      assert s1 == s;
    } else {
      // a 401 on the refresh endpoint itself never starts or joins a refresh
      assert JsText.OccursAt(refreshCall.url, RefreshUrl, 0);
    }
    if o.Retrying? {
      var token := RefreshedToken(reply).value;
      var s2 := s.(storage := s.storage[AccessToken := token], isRefreshing := false);
      var s3 := RefreshedState(s2, token);
      assert s3.sent == s.sent + WithToken(s.subscribers, token);
    } else {
      forall k: StorageKey ensures k !in r.storage {
        assert k in AllKeys by { match k { case AccessToken => case RefreshToken => case UserKey => } }
      }
    }
  }

  /**
   * No retry-once guard: the request re-sent after a successful refresh goes through the same
   * error interceptor, so a second 401 for it starts another refresh call.
   */
  lemma NoRetryOnceGuard(s: Session, original: Request, refreshCall: Request, reply: Reply, unauthorized: Reply)
    requires refreshCall.url == RefreshUrl
    requires RefreshedToken(reply).Some? && Stored(s.storage, RefreshToken)
    requires !JsText.Includes(original.url, RefreshUrl) && unauthorized.status == Some(401)
    ensures var (s1, o1) := RefreshStep(s, original, refreshCall, reply);
      var retry := original.(authorization := Some(Bearer(RefreshedToken(reply).value)));
      var (s2, o2) := ReceiveStep(s1, retry, unauthorized);
      && o1 == Retrying(retry)
      && o2.AwaitingRefresh? && s2.isRefreshing
      && s2.sent == s1.sent + [o2.refreshCall]
  {
    RefreshStepOutcomes(s, original, refreshCall, reply);
  }

  // ---------------------------------------------------------------------------------------------
  // Sequences of replies

  /** A reply arriving for a request. */
  datatype Arrival = Arrival(config: Request, reply: Reply)

  /** The session after the replies `arrivals` reach the interceptors one after another. */
  function ReceiveAll(s: Session, arrivals: seq<Arrival>): Session
    decreases |arrivals|
  {
    if arrivals == [] then s
    else ReceiveAll(ReceiveStep(s, arrivals[0].config, arrivals[0].reply).0, arrivals[1..])
  }

  /** The requests among `arrivals` whose reply is a 401, in arrival order. */
  function Unauthorized(arrivals: seq<Arrival>): seq<Request>
    decreases |arrivals|
  {
    if arrivals == [] then []
    else (if arrivals[0].reply.status == Some(401) then [arrivals[0].config] else []) + Unauthorized(arrivals[1..])
  }

  /** The same reply arriving for each of `configs`. */
  function SameReply(configs: seq<Request>, reply: Reply): (r: seq<Arrival>)
    ensures |r| == |configs|
    ensures forall i :: 0 <= i < |r| ==> r[i] == Arrival(configs[i], reply)
  {
    seq(|configs|, i requires 0 <= i < |configs| => Arrival(configs[i], reply))
  }

  /** When every arrival is a 401, the queued requests are exactly the configs, in order. */
  lemma {:induction false} UnauthorizedSameReply(configs: seq<Request>, reply: Reply)
    requires reply.status == Some(401)
    ensures Unauthorized(SameReply(configs, reply)) == configs
    decreases |configs|
  {
    if configs != [] {
      assert SameReply(configs, reply)[1..] == SameReply(configs[1..], reply);
      UnauthorizedSameReply(configs[1..], reply);
    }
  }

  /**
   * Single flight: while a refresh is running, no reply sends anything. Every 401 (except one
   * on the refresh endpoint) only queues its request behind the ones already waiting; every other
   * reply leaves the session as it was.
   */
  lemma {:induction false} SingleFlight(s: Session, arrivals: seq<Arrival>)
    requires s.isRefreshing && Stored(s.storage, RefreshToken)
    requires forall i :: 0 <= i < |arrivals| && arrivals[i].reply.status == Some(401) ==>
      !JsText.Includes(arrivals[i].config.url, RefreshUrl)
    ensures ReceiveAll(s, arrivals) == s.(subscribers := s.subscribers + Unauthorized(arrivals))
    decreases |arrivals|
  {
    if arrivals != [] {
      var s1 := ReceiveStep(s, arrivals[0].config, arrivals[0].reply).0;
      var head := if arrivals[0].reply.status == Some(401) then [arrivals[0].config] else [];
      ReceiveWhileRefreshing(s, arrivals[0]);
      assert forall i :: 0 <= i < |arrivals[1..]| ==> arrivals[1..][i] == arrivals[i + 1];
      SingleFlight(s1, arrivals[1..]);
      assert Unauthorized(arrivals) == head + Unauthorized(arrivals[1..]);
      assert s.subscribers + head + Unauthorized(arrivals[1..]) == s.subscribers + Unauthorized(arrivals);
    }
  }

  /** One reply during a refresh: a 401 queues its request, anything else changes nothing. */
  lemma ReceiveWhileRefreshing(s: Session, a: Arrival)
    requires s.isRefreshing && Stored(s.storage, RefreshToken)
    requires a.reply.status == Some(401) ==> !JsText.Includes(a.config.url, RefreshUrl)
    ensures ReceiveStep(s, a.config, a.reply).0
      == s.(subscribers := s.subscribers + if a.reply.status == Some(401) then [a.config] else [])
  {
  }

  /**
   * A burst of 401s shares one refresh call. The first 401 posts the refresh call; the others
   * queue. When the refresh succeeds, the network sees the refresh call, then every queued request
   * (those left from an earlier failed refresh first, then the burst, in arrival order) with the new
   * token, then the first request with the new token.
   */
  lemma ConcurrentUnauthorizedShareOneRefresh(s: Session, first: Request, others: seq<Request>, unauthorized: Reply, refreshReply: Reply)
    requires !s.isRefreshing && Stored(s.storage, RefreshToken)
    requires unauthorized.status == Some(401)
    requires !JsText.Includes(first.url, RefreshUrl)
    requires forall i :: 0 <= i < |others| ==> !JsText.Includes(others[i].url, RefreshUrl)
    requires RefreshedToken(refreshReply).Some?
    ensures
      var post := Authorize(RefreshRequest(s.storage[RefreshToken]), s.storage);
      var (s1, o1) := ReceiveStep(s, first, unauthorized);
      var s2 := ReceiveAll(s1, SameReply(others, unauthorized));
      var (s3, o3) := RefreshStep(s2, first, post, refreshReply);
      var token := RefreshedToken(refreshReply).value;
      && o1 == AwaitingRefresh(post)
      && o3 == Retrying(first.(authorization := Some(Bearer(token))))
      && s3.sent == s.sent + [post] + WithToken(s.subscribers + others, token) + [o3.retry]
      && s3.subscribers == [] && !s3.isRefreshing
  {
    var post := Authorize(RefreshRequest(s.storage[RefreshToken]), s.storage);
    var (s1, o1) := ReceiveStep(s, first, unauthorized);
    assert s1 == s.(isRefreshing := true, sent := s.sent + [post]);
    SingleFlight(s1, SameReply(others, unauthorized));
    UnauthorizedSameReply(others, unauthorized);
    var s2 := ReceiveAll(s1, SameReply(others, unauthorized));
    RefreshStepOutcomes(s2, first, post, refreshReply);
  }

  // ---------------------------------------------------------------------------------------------
  // The exported `request` helper

  /** What `request` hands its callback: `onSuccess(envelope.data)`, or `onError` with the reply body or the error itself. */
  datatype Callback = OnSuccess(data: Option<Json>) | OnErrorBody(body: Option<Json>) | OnErrorValue(reason: Rejection)

  /**
   * `request`, once the pipeline has settled with `settled`: exactly one callback runs, then the
   * envelope is returned or the same rejection is re-thrown. An axios error gives `onError` the
   * reply body; any other rejection (an `{code, message}` object or the missing-token error) is
   * passed as it is.
   */
  function RequestCall(settled: Outcome): (r: (Callback, Outcome))
    requires settled.Resolved? || settled.Rejected?
    ensures r.1 == settled
    ensures settled.Resolved? ==> r.0 == OnSuccess(Get(Some(settled.envelope), "data"))
    ensures settled.Rejected? && settled.reason.AxiosError? ==> r.0 == OnErrorBody(ResponseData(settled.reason.reply))
    ensures settled.Rejected? && !settled.reason.AxiosError? ==> r.0 == OnErrorValue(settled.reason)
  {
    if settled.Resolved? then (OnSuccess(Get(Some(settled.envelope), "data")), settled)
    else if settled.reason.AxiosError? then (OnErrorBody(ResponseData(settled.reason.reply)), settled)
    else (OnErrorValue(settled.reason), settled)
  }

  /**
   * A reply other than a 401, seen through `request`: `onSuccess` runs exactly when the status is
   * 2xx and the envelope says `"success"`, and then gets the envelope's `data`; otherwise `onError`
   * gets an `{code, message}` object, never axios's raw error, and the same object is thrown.
   */
  lemma RequestOnDirectReply(s: Session, config: Request, reply: Reply)
    requires reply.status != Some(401)
    ensures var o := ReceiveStep(s, config, reply).1;
      && (o.Resolved? || o.Rejected?)
      && var (callback, result) := RequestCall(o);
      && (callback.OnSuccess? <==> IsSuccessStatus(reply) && Get(reply.body, "status") == Some(JStr("success")))
      && (callback.OnSuccess? ==> callback.data == Get(reply.body, "data") && result == Resolved(reply.body.value))
      && (!callback.OnSuccess? ==> callback.OnErrorValue? && callback.reason.ApiError? && result == Rejected(callback.reason))
      && ReceiveStep(s, config, reply).0 == s
  {
  }

  /**
   * A 401 that forces a logout (no refresh token stored, or the refresh call itself refused), seen
   * through `request`: `onError` gets the reply body from axios's own error, that same error is
   * re-thrown, and the browser is sent to `/login`.
   */
  lemma RequestOnForcedLogout(s: Session, config: Request, reply: Reply)
    requires reply.status == Some(401)
    requires !Stored(s.storage, RefreshToken) || JsText.Includes(config.url, RefreshUrl)
    ensures var (s1, o) := ReceiveStep(s, config, reply);
      && o == Rejected(AxiosError(config, reply))
      && RequestCall(o) == (OnErrorBody(reply.body), o)
      && s1.redirectedToLogin && AccessToken !in s1.storage && UserKey !in s1.storage
  {
  }

  // ---------------------------------------------------------------------------------------------
  // The same pipeline over mutable state

  /** The module-level state of the source and the browser around it, updated in place. */
  class HttpClient {
    var isRefreshing: bool
    var refreshSubscribers: seq<Request>
    var storage: Storage
    var redirectedToLogin: bool
    var sent: seq<Request>

    function State(): Session
      reads this
    {
      Session(isRefreshing, refreshSubscribers, storage, redirectedToLogin, sent)
    }

    /** A fresh page: no refresh running, nobody waiting, nothing sent yet. */
    constructor (initial: Storage)
      ensures State() == Session(false, [], initial, false, [])
    {
      isRefreshing := false;
      refreshSubscribers := [];
      storage := initial;
      redirectedToLogin := false;
      sent := [];
    }

    /** `httpClient(config)`: the request interceptor runs, then the request goes out. */
    method Send(config: Request)
      modifies this
      ensures State() == Dispatch(old(State()), config)
      ensures |sent| == |old(sent)| + 1 && sent[|sent| - 1].url == config.url
    {
      var authorized := config;
      var token := if AccessToken in storage then storage[AccessToken] else "";
      if token != "" {
        authorized := config.(authorization := Some(Bearer(token)));
      }
      sent := sent + [authorized];
    }

    /** `subscribeTokenRefresh`: the request waits at the end of the list. */
    method SubscribeTokenRefresh(config: Request)
      modifies this
      ensures State() == old(State()).(subscribers := old(refreshSubscribers) + [config])
    {
      refreshSubscribers := refreshSubscribers + [config];
    }

    /** `onRefreshed(token)`: each waiting request is re-sent with the token, first come first served. */
    method OnRefreshed(token: string)
      modifies this
      ensures State() == RefreshedState(old(State()), token)
    {
      var i := 0;
      while i < |refreshSubscribers|
        invariant refreshSubscribers == old(refreshSubscribers) && 0 <= i <= |refreshSubscribers|
        invariant isRefreshing == old(isRefreshing) && storage == old(storage)
        invariant redirectedToLogin == old(redirectedToLogin)
        invariant sent == old(sent) + RetryAll(old(refreshSubscribers)[..i], token, old(storage))
      {
        Send(refreshSubscribers[i].(authorization := Some(Bearer(token))));
        RetryAllGrows(refreshSubscribers, i, token, storage);
        i := i + 1;
      }
      assert old(refreshSubscribers)[..i] == old(refreshSubscribers);
      refreshSubscribers := [];
    }

    /** The reply for `config` arrives and passes the response interceptors. */
    method Receive(config: Request, reply: Reply) returns (outcome: Outcome)
      modifies this
      ensures (State(), outcome) == ReceiveStep(old(State()), config, reply)
    {
      var data := ResponseData(reply);
      if reply.status.Some? && 200 <= reply.status.value < 300 {
        outcome := OnFulfilled(data);
      } else if reply.status == Some(401) {
        if !Stored(storage, RefreshToken) {
          storage := storage - {AccessToken, UserKey};
          redirectedToLogin := true;
          outcome := Rejected(AxiosError(config, reply));
        } else if JsText.Includes(config.url, RefreshUrl) {
          isRefreshing := false;
          storage := storage - AllKeys;
          redirectedToLogin := true;
          outcome := Rejected(AxiosError(config, reply));
        } else if !isRefreshing {
          isRefreshing := true;
          var post := RefreshRequest(storage[RefreshToken]);
          outcome := AwaitingRefresh(Authorize(post, storage));
          Send(post);
        } else {
          SubscribeTokenRefresh(config);
          outcome := Subscribed;
        }
      } else if reply.status == Some(403) {
        outcome := Rejected(ApiError(Some(JNum(403)), OrElse(Get(data, "message"), JStr("Access denied"))));
      } else {
        var code := if reply.status.Some? && reply.status.value != 0 then reply.status.value else 500;
        outcome := Rejected(ApiError(Some(JNum(code)), OrElse(Get(data, "message"), JStr("Network error occurred"))));
      }
    }

    /** The refresh call posted for `original` settles with `reply`. */
    method CompleteRefresh(original: Request, refreshCall: Request, reply: Reply) returns (outcome: Outcome)
      modifies this
      ensures (State(), outcome) == RefreshStep(old(State()), original, refreshCall, reply)
    {
      var settled := Receive(refreshCall, reply);
      var newToken := if settled.Resolved? then NewAccessToken(settled.envelope) else None;
      if settled.Resolved? && Truthy(newToken) {
        var token := ToJsString(newToken.value);
        storage := storage[AccessToken := token];
        isRefreshing := false;
        OnRefreshed(token);
        var retry := original.(authorization := Some(Bearer(token)));
        Send(retry);
        outcome := Retrying(retry);
      } else {
        isRefreshing := false;
        storage := storage - AllKeys;
        redirectedToLogin := true;
        outcome := Rejected(if settled.Rejected? then settled.reason else MissingAccessToken);
      }
    }
  }
}
