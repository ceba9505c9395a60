/**
 * The authenticated request pipeline of `HttpProtocol` (packages/util/src/config/http.ts).
 *
 * Every `getApi()` call builds a fresh instance that owns its own refresh
 * coordinator: the flag `isRefreshing` and the queue `refreshSubscribers`.
 * Its request interceptor attaches `Bearer <token>` read from localStorage;
 * its response interceptor turns a first 401 into a refresh (when none is in
 * flight) or into a queued replay callback.
 *
 * JavaScript runs one callback at a time and yields only at `await`, so the
 * interceptors are modelled as atomic steps on an `ApiInstance`:
 * `Attach` (request interceptor), `OnResponseError` (response interceptor up
 * to its `await` or its return), and `RefreshSucceeded` / `RefreshFailed`
 * (the same interceptor call resuming after the refresh POST). The POST
 * itself is not modelled; its outcome is the choice between the last two.
 * A replay `instance(originalRequest)` is recorded as a `Replay` event.
 */
module Http {
  import opened Wrappers
  import opened Seqs

  /** The storage keys, the values of the `ETokenName` enum. */
  const ACCESS_TOKEN: string := "access-token"
  const REFRESH_TOKEN: string := "refresh-token"

  const AUTHORIZATION: string := "Authorization"

  function Bearer(token: string): string {
    "Bearer " + token
  }

  /** `if (headers) headers['Authorization'] = Bearer(token)`, as the replay callback does it. */
  function WithBearer(headers: Option<map<string, string>>, token: string): (h: Option<map<string, string>>)
    ensures h.Some? <==> headers.Some?
    ensures h.Some? ==> AUTHORIZATION in h.value && h.value[AUTHORIZATION] == Bearer(token)
    ensures h.Some? ==> h.value.Keys == headers.value.Keys + {AUTHORIZATION}
    ensures h.Some? ==> forall k :: k in headers.value && k != AUTHORIZATION ==> h.value[k] == headers.value[k]
  {
    if headers.Some? then Some(headers.value[AUTHORIZATION := Bearer(token)]) else None
  }

  /**
   * The headers the request interceptor leaves on a config, given the value
   * localStorage holds under `ACCESS_TOKEN` (`None` when the key is absent).
   */
  function Authorized(headers: Option<map<string, string>>, stored: Option<string>): (h: Option<map<string, string>>)
    ensures h.Some? <==> headers.Some?
    ensures Truthy(stored) && headers.Some? ==>
      AUTHORIZATION in h.value && h.value[AUTHORIZATION] == Bearer(stored.value)
    ensures h.Some? ==> forall k :: k in headers.value && k != AUTHORIZATION ==>
      k in h.value && h.value[k] == headers.value[k]
    ensures h.Some? ==> h.value.Keys <= headers.value.Keys + {AUTHORIZATION}
    ensures !Truthy(stored) ==> h == headers
  {
    if Truthy(stored) then WithBearer(headers, stored.value) else headers
  }

  /**
   * A replayed request passes through the request interceptor again. Once the
   * refreshed token is in localStorage, that second pass leaves the header the
   * replay callback wrote untouched.
   */
  lemma ReplayKeepsRefreshedToken(headers: Option<map<string, string>>, token: string)
    ensures Authorized(WithBearer(headers, token), Some(token)) == WithBearer(headers, token)
  {
    if token != "" && headers.Some? {
      var h := WithBearer(headers, token).value;
      assert h[AUTHORIZATION := Bearer(token)] == h;
    }
  }

  /** The browser's sessionStorage and localStorage, shared by everything in the page. */
  class Storage {
    var session: map<string, string>
    var local: map<string, string>

    constructor (session: map<string, string>, local: map<string, string>)
      ensures this.session == session && this.local == local
    {
      this.session := session;
      this.local := local;
    }
  }

  /** The axios request config, with the `_retry` marker of `CustomAxiosRequestConfig`. */
  class RequestConfig {
    var headers: Option<map<string, string>>
    /** `_retry`; a config starts without it, which reads as false. */
    var retry: bool

    constructor (headers: Option<map<string, string>>)
      ensures this.headers == headers && !retry
    {
      this.headers := headers;
      retry := false;
    }
  }

  /** What the response interceptor does with an error. */
  datatype ErrorOutcome =
    | Rejected        // `Promise.reject(error)`: the caller sees the original error
    | StartedRefresh  // this call set `isRefreshing` and awaits the refresh POST
    | Joined          // a refresh was in flight: a replay callback was queued

  /** `instance(originalRequest)` issued by a subscriber callback with the refreshed token. */
  datatype Replay = Replay(request: RequestConfig, token: string)

  function Replays(requests: seq<RequestConfig>, token: string): (r: seq<Replay>)
    ensures |r| == |requests|
    ensures forall i :: 0 <= i < |r| ==> r[i] == Replay(requests[i], token)
  {
    seq(|requests|, i requires 0 <= i < |requests| => Replay(requests[i], token))
  }

  /** The instance `getApi()` returns, with the closure state its interceptors share. */
  class ApiInstance {
    const storage: Storage

    var isRefreshing: bool
    /** `refreshSubscribers`: each callback is identified by the config it replays. */
    var subscribers: seq<RequestConfig>
    /** The interceptor call suspended at the refresh POST, by its `originalRequest`. */
    var awaitingRefresh: RequestConfig?
    /** Every replay the subscriber callbacks have issued, in order. */
    var dispatched: seq<Replay>
    /** Refresh POSTs issued by this instance and not yet settled. */
    ghost var inFlight: nat

    /** The configs the coordinator knows about. */
    ghost function Tracked(): set<RequestConfig>
      reads this
    {
      (set r | r in subscribers) + (set e | e in dispatched :: e.request)
        + (if awaitingRefresh == null then {} else {awaitingRefresh})
    }

    /**
     * The coordinator's invariant: a refresh is in flight exactly while
     * `isRefreshing` holds, and then there is one, so at most one per
     * instance; every config it queued, awaits or replayed carries `_retry`,
     * and none of them is queued twice, queued after its replay, or replayed
     * twice.
     */
    ghost predicate Valid()
      reads this, Tracked()
    {
      && inFlight == (if isRefreshing then 1 else 0)
      && (isRefreshing <==> awaitingRefresh != null)
      && (awaitingRefresh != null ==> awaitingRefresh.retry && awaitingRefresh !in subscribers)
      && Distinct(subscribers)
      && (forall r :: r in subscribers ==> r.retry)
      && (forall i, j :: 0 <= i < j < |dispatched| ==> dispatched[i].request != dispatched[j].request)
      && (forall e :: e in dispatched ==> e.request.retry && e.request != awaitingRefresh && e.request !in subscribers)
    }

    /** `getApi()`: a new instance starts idle with no subscribers. */
    constructor (storage: Storage)
      ensures Valid()
      ensures this.storage == storage
      ensures !isRefreshing && subscribers == [] && awaitingRefresh == null && dispatched == []
      ensures inFlight == 0
    {
      this.storage := storage;
      isRefreshing := false;
      subscribers := [];
      awaitingRefresh := null;
      dispatched := [];
      inFlight := 0;
    }

    /**
     * The request interceptor: when localStorage holds a non-empty token and
     * the config has headers, `Authorization` becomes `Bearer <token>`;
     * otherwise the config is passed on unchanged.
     */
    method Attach(req: RequestConfig)
      requires Valid()
      modifies req
      ensures Valid()
      ensures req.headers == Authorized(old(req.headers), Lookup(storage.local, ACCESS_TOKEN))
      ensures req.retry == old(req.retry)
    {
      var accessToken := Lookup(storage.local, ACCESS_TOKEN);
      if Truthy(accessToken) && req.headers.Some? {
        req.headers := Some(req.headers.value[AUTHORIZATION := Bearer(accessToken.value)]);
      }
    }

    /** `subscribeTokenRefresh`: append a replay callback. */
    method SubscribeTokenRefresh(req: RequestConfig)
      modifies this`subscribers
      ensures subscribers == old(subscribers) + [req]
    {
      subscribers := subscribers + [req];
    }

    /**
     * `onRefreshed(token)`: call every queued callback in insertion order (each
     * sets its config's `Authorization` and replays it), then empty the queue.
     */
    method OnRefreshed(token: string)
      requires Distinct(subscribers)
      modifies this`subscribers, this`dispatched, set r | r in subscribers
      ensures subscribers == []
      ensures dispatched == old(dispatched) + Replays(old(subscribers), token)
      ensures forall r :: r in old(subscribers) ==> r.headers == WithBearer(old(r.headers), token) && r.retry == old(r.retry)
    {
      var i := 0;
      while i < |subscribers|
        invariant 0 <= i <= |subscribers|
        invariant subscribers == old(subscribers)
        invariant dispatched == old(dispatched) + Replays(subscribers[..i], token)
        invariant forall k :: 0 <= k < |subscribers| ==> subscribers[k].retry == old(subscribers[k].retry)
        invariant forall k :: 0 <= k < i ==> subscribers[k].headers == WithBearer(old(subscribers[k].headers), token)
        invariant forall k :: i <= k < |subscribers| ==> subscribers[k].headers == old(subscribers[k].headers)
      {
        var cb := subscribers[i];
        cb.headers := WithBearer(cb.headers, token);
        assert subscribers[..i + 1] == subscribers[..i] + [cb];
        dispatched := dispatched + [Replay(cb, token)];
        i := i + 1;
      }
      assert subscribers[..i] == subscribers;
      subscribers := [];
    }

    /**
     * The response interceptor. A 401 on a config without `_retry` marks it;
     * then it either starts the refresh (none in flight) or queues a replay.
     * Anything else, including a second 401 on a replayed config, is rejected
     * with no change to the coordinator.
     */
    method OnResponseError(req: RequestConfig, status: Option<int>) returns (outcome: ErrorOutcome)
      requires Valid()
      modifies this, req
      ensures Valid()
      ensures req.headers == old(req.headers)
      ensures dispatched == old(dispatched)
      ensures if status == Some(401) && !old(req.retry) then
          && req.retry
          && isRefreshing
          && (if old(isRefreshing) then
                && outcome == Joined
                && subscribers == old(subscribers) + [req]
                && awaitingRefresh == old(awaitingRefresh)
                && inFlight == old(inFlight)
              else
                && outcome == StartedRefresh
                && subscribers == old(subscribers)
                && awaitingRefresh == req
                && inFlight == old(inFlight) + 1)
        else
          && outcome == Rejected
          && req.retry == old(req.retry)
          && isRefreshing == old(isRefreshing)
          && subscribers == old(subscribers)
          && awaitingRefresh == old(awaitingRefresh)
          && inFlight == old(inFlight)
    {
      if status == Some(401) && !req.retry {
        // A config without `_retry` is in none of the coordinator's lists.
        assert req !in Tracked();
        req.retry := true;
        if !isRefreshing {
          isRefreshing := true;
          awaitingRefresh := req;
          inFlight := inFlight + 1;
          outcome := StartedRefresh;
        } else {
          SubscribeTokenRefresh(req);
          outcome := Joined;
        }
      } else {
        outcome := Rejected;
      }
    }

    /**
     * The refresh POST answered with `tokens.ACCESS_TOKEN == token`: store it
     * in localStorage, flush the queue, clear the flag, and only then queue the
     * triggering config, which that flush therefore did not replay.
     */
    method RefreshSucceeded(token: string)
      requires Valid() && isRefreshing
      modifies this, storage, set r | r in subscribers
      ensures Valid()
      ensures storage.local == old(storage.local)[ACCESS_TOKEN := token]
      ensures storage.session == old(storage.session)
      ensures dispatched == old(dispatched) + Replays(old(subscribers), token)
      ensures forall r :: r in old(subscribers) ==> r.headers == WithBearer(old(r.headers), token)
      ensures subscribers == [old(awaitingRefresh)]
      ensures !isRefreshing && awaitingRefresh == null && inFlight == 0
    {
      var trigger: RequestConfig := awaitingRefresh;
      storage.local := storage.local[ACCESS_TOKEN := token];
      OnRefreshed(token);
      isRefreshing := false;
      awaitingRefresh := null;
      inFlight := inFlight - 1;
      SubscribeTokenRefresh(trigger);
    }

    /**
     * The refresh POST failed: clear the flag and reject the triggering call
     * with the refresh error. Queued callbacks stay queued and uncalled, and
     * the stored tokens are not touched.
     */
    method RefreshFailed() returns (rejected: RequestConfig)
      requires Valid() && isRefreshing
      modifies this
      ensures Valid()
      ensures rejected == old(awaitingRefresh)
      ensures subscribers == old(subscribers) && dispatched == old(dispatched)
      ensures !isRefreshing && awaitingRefresh == null && inFlight == 0
      ensures unchanged(storage)
    {
      rejected := awaitingRefresh;
      isRefreshing := false;
      awaitingRefresh := null;
      inFlight := inFlight - 1;
    }
  }

  /** `HttpProtocol`: the token getters and savers, and the instance factory. */
  class HttpProtocol {
    const storage: Storage

    constructor (storage: Storage)
      ensures this.storage == storage
    {
      this.storage := storage;
    }

    /** `getAccessToken()` reads sessionStorage. */
    function GetAccessToken(): (t: Option<string>)
      reads storage
      ensures t.Some? <==> ACCESS_TOKEN in storage.session
      ensures t.Some? ==> t.value == storage.session[ACCESS_TOKEN]
    {
      Lookup(storage.session, ACCESS_TOKEN)
    }

    /** `getRefreshToken()` reads localStorage. */
    function GetRefreshToken(): (t: Option<string>)
      reads storage
      ensures t.Some? <==> REFRESH_TOKEN in storage.local
      ensures t.Some? ==> t.value == storage.local[REFRESH_TOKEN]
    {
      Lookup(storage.local, REFRESH_TOKEN)
    }

    /** `saveAccessToken()` writes sessionStorage, which the request interceptor never reads. */
    method SaveAccessToken(token: string)
      modifies storage
      ensures GetAccessToken() == Some(token)
      ensures GetRefreshToken() == old(GetRefreshToken())
      ensures storage.session == old(storage.session)[ACCESS_TOKEN := token]
      ensures storage.local == old(storage.local)
    {
      storage.session := storage.session[ACCESS_TOKEN := token];
    }

    /** `saveRefreshToken()` writes localStorage under a key the request interceptor does not read. */
    method SaveRefreshToken(token: string)
      modifies storage
      ensures GetRefreshToken() == Some(token)
      ensures GetAccessToken() == old(GetAccessToken())
      ensures Lookup(storage.local, ACCESS_TOKEN) == old(Lookup(storage.local, ACCESS_TOKEN))
      ensures storage.local == old(storage.local)[REFRESH_TOKEN := token]
      ensures storage.session == old(storage.session)
    {
      storage.local := storage.local[REFRESH_TOKEN := token];
    }

    /** `getApi()`: every call yields a new instance with its own idle coordinator. */
    method GetApi() returns (api: ApiInstance)
      ensures fresh(api) && api.Valid()
      ensures api.storage == storage
      ensures !api.isRefreshing && api.subscribers == [] && api.dispatched == [] && api.inFlight == 0
    {
      api := new ApiInstance(storage);
    }
  }
}
