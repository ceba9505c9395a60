/**
 * Concrete runs of the request pipeline of module Http, each stated as the
 * state it ends in. They pin down what the code does where a textbook
 * single-flight refresher would behave otherwise.
 */
module HttpScenarios {
  import opened Wrappers
  import opened Http

  const NO_HEADERS: map<string, string> := map[]

  /**
   * Three calls on one instance get a 401 while no refresh is in flight; the
   * refresh answers `A2`. Exactly one refresh was started, the two joiners are
   * replayed with `Bearer A2`, and the call that started the refresh is not
   * replayed: it was queued after the flush and stays queued.
   */
  method BurstOfThree() returns (api: ApiInstance, r1: RequestConfig, r2: RequestConfig, r3: RequestConfig)
    ensures fresh(api) && api.Valid()
    ensures api.dispatched == [Replay(r2, "A2"), Replay(r3, "A2")]
    ensures api.subscribers == [r1]
    ensures r2.headers == Some(map[AUTHORIZATION := "Bearer A2"]) && r3.headers == r2.headers
    ensures r1.headers == Some(NO_HEADERS)
    ensures api.storage.local == map[ACCESS_TOKEN := "A2"]
    ensures !api.isRefreshing
  {
    var storage := new Storage(map[], map[]);
    var protocol := new HttpProtocol(storage);
    api := protocol.GetApi();
    r1 := new RequestConfig(Some(NO_HEADERS));
    r2 := new RequestConfig(Some(NO_HEADERS));
    r3 := new RequestConfig(Some(NO_HEADERS));
    var o1 := api.OnResponseError(r1, Some(401));
    var o2 := api.OnResponseError(r2, Some(401));
    var o3 := api.OnResponseError(r3, Some(401));
    assert o1 == StartedRefresh && o2 == Joined && o3 == Joined;
    assert api.subscribers == [r2, r3];
    api.RefreshSucceeded("A2");
    assert r2.headers == WithBearer(Some(NO_HEADERS), "A2");
    assert r3.headers == WithBearer(Some(NO_HEADERS), "A2");
    assert Bearer("A2") == "Bearer A2";
  }

  /**
   * A refresh fails while a second call waits: only the starter is rejected,
   * the waiter stays queued with no callback run, and the stored tokens are
   * what they were.
   */
  method FailedRefreshStrandsWaiter() returns (api: ApiInstance, r1: RequestConfig, r2: RequestConfig, rejected: RequestConfig)
    ensures fresh(api) && api.Valid()
    ensures rejected == r1
    ensures api.subscribers == [r2] && api.dispatched == []
    ensures api.storage.local == map[ACCESS_TOKEN := "A1", REFRESH_TOKEN := "R1"]
    ensures !api.isRefreshing
  {
    var storage := new Storage(map[], map[ACCESS_TOKEN := "A1", REFRESH_TOKEN := "R1"]);
    var protocol := new HttpProtocol(storage);
    api := protocol.GetApi();
    r1 := new RequestConfig(Some(NO_HEADERS));
    r2 := new RequestConfig(Some(NO_HEADERS));
    var o1 := api.OnResponseError(r1, Some(401));
    var o2 := api.OnResponseError(r2, Some(401));
    rejected := api.RefreshFailed();
  }

  /**
   * The starter of a successful refresh is replayed only by a later refresh
   * of the same instance, with that refresh's token; the later starter is in
   * turn left queued.
   */
  method TriggerReplayedByNextRefresh() returns (api: ApiInstance, r1: RequestConfig, r2: RequestConfig)
    ensures fresh(api) && api.Valid()
    ensures api.dispatched == [Replay(r1, "A3")]
    ensures api.subscribers == [r2]
  {
    var storage := new Storage(map[], map[]);
    var protocol := new HttpProtocol(storage);
    api := protocol.GetApi();
    r1 := new RequestConfig(Some(NO_HEADERS));
    r2 := new RequestConfig(Some(NO_HEADERS));
    var o1 := api.OnResponseError(r1, Some(401));
    api.RefreshSucceeded("A2");
    assert api.dispatched == [] && api.subscribers == [r1];
    var o2 := api.OnResponseError(r2, Some(401));
    assert o2 == StartedRefresh;
    api.RefreshSucceeded("A3");
  }

  /**
   * `BaseApiService` makes each call through an instance of its own, and
   * nothing else ever uses that instance. A call whose 401 starts a refresh
   * that succeeds is queued behind the flush of its own instance, and that
   * instance never refreshes again: the call is never replayed and its
   * promise never settles, although the new token is stored.
   */
  method OwnInstanceCallNeverReplayed() returns (api: ApiInstance, req: RequestConfig)
    ensures fresh(api) && api.Valid()
    ensures api.subscribers == [req] && !api.isRefreshing
    ensures forall e :: e in api.dispatched ==> e.request != req
    ensures api.storage.local == map[ACCESS_TOKEN := "A2"]
  {
    var storage := new Storage(map[], map[]);
    var protocol := new HttpProtocol(storage);
    api := protocol.GetApi();
    req := new RequestConfig(Some(NO_HEADERS));
    var o := api.OnResponseError(req, Some(401));
    assert o == StartedRefresh && api.subscribers == [];
    api.RefreshSucceeded("A2");
  }

  /**
   * A replayed config carries `_retry`: its request interceptor pass attaches
   * the refreshed token, and a second 401 on it is rejected without touching
   * the coordinator.
   */
  method SecondUnauthorizedIsRejected() returns (api: ApiInstance, r2: RequestConfig, outcome: ErrorOutcome)
    ensures fresh(api) && api.Valid()
    ensures outcome == Rejected
    ensures r2.headers == Some(map[AUTHORIZATION := "Bearer A2"])
    ensures !api.isRefreshing && api.dispatched == [Replay(r2, "A2")]
  {
    var storage := new Storage(map[], map[]);
    var protocol := new HttpProtocol(storage);
    api := protocol.GetApi();
    var r1 := new RequestConfig(Some(NO_HEADERS));
    r2 := new RequestConfig(Some(NO_HEADERS));
    var o1 := api.OnResponseError(r1, Some(401));
    var o2 := api.OnResponseError(r2, Some(401));
    api.RefreshSucceeded("A2");
    assert r2.headers == WithBearer(Some(NO_HEADERS), "A2");
    assert Bearer("A2") == "Bearer A2";
    ReplayKeepsRefreshedToken(Some(NO_HEADERS), "A2");
    api.Attach(r2);
    outcome := api.OnResponseError(r2, Some(401));
  }

  /**
   * Two service calls each go through their own `getApi()` instance, so two
   * 401s on them start two refreshes at once: single flight holds per
   * instance only.
   */
  method TwoServiceCalls() returns (a: ApiInstance, b: ApiInstance)
    ensures fresh(a) && fresh(b) && a != b
    ensures a.Valid() && b.Valid()
    ensures a.isRefreshing && b.isRefreshing
    ensures a.inFlight + b.inFlight == 2
  {
    var storage := new Storage(map[], map[]);
    var protocol := new HttpProtocol(storage);
    a := protocol.GetApi();
    b := protocol.GetApi();
    var r1 := new RequestConfig(Some(NO_HEADERS));
    var r2 := new RequestConfig(Some(NO_HEADERS));
    var o1 := a.OnResponseError(r1, Some(401));
    var o2 := b.OnResponseError(r2, Some(401));
  }

  /**
   * A token saved with `saveAccessToken` lands in sessionStorage, which the
   * request interceptor does not read: the request leaves without
   * `Authorization`.
   */
  method SavedAccessTokenNotAttached() returns (req: RequestConfig)
    ensures req.headers == Some(NO_HEADERS)
  {
    var storage := new Storage(map[], map[]);
    var protocol := new HttpProtocol(storage);
    protocol.SaveAccessToken("A1");
    assert protocol.GetAccessToken() == Some("A1");
    var api := protocol.GetApi();
    req := new RequestConfig(Some(NO_HEADERS));
    api.Attach(req);
  }
}
