/** The daemon's request side (src/weather_daemon/daemon.py): the display
    location, the three endpoint URLs, the merge of the three replies into
    the raw dict the parser reads, and the retry policy wrapped around it.
    The HTTP client is replaced by the outcome of each request. */
module Fetch {
  import opened Text
  import opened PyJson

  // ------------------------------------------------------------- location

  /** `location_name or f"{latitude},{longitude}"`: None and "" are both
      falsy and fall back to the coordinates. */
  function LocationName(name: Option<string>, latitude: PyFloat, longitude: PyFloat): (shown: string)
    ensures name.Some? && name.value != "" ==> shown == name.value
    ensures name.None? || name.value == "" ==> shown == FloatRepr(latitude) + "," + FloatRepr(longitude)
  {
    if name.Some? && name.value != "" then name.value else FloatRepr(latitude) + "," + FloatRepr(longitude)
  }

  /** The location shown in the feed is never empty. */
  lemma LocationNameNonEmpty(name: Option<string>, latitude: PyFloat, longitude: PyFloat)
    ensures LocationName(name, latitude, longitude) != ""
  {
    var shown := LocationName(name, latitude, longitude);
    if name.None? || name.value == "" {
      assert shown[|FloatRepr(latitude)|] == ',';
    }
  }

  // ----------------------------------------------------------------- URLs

  /** What the constructor keeps of api_base_url: trailing slashes removed. */
  function BaseUrl(apiBaseUrl: string): (base: string)
    ensures base <= apiBaseUrl
    ensures base == [] || base[|base| - 1] != '/'
    ensures forall i | |base| <= i < |apiBaseUrl| :: apiBaseUrl[i] == '/'
  {
    RStrip(apiBaseUrl, '/')
  }

  /** The query string every endpoint URL ends with. */
  function Query(apiKey: string, latitude: PyFloat, longitude: PyFloat): string
  {
    "?key=" + apiKey + LocationQuery(latitude, longitude)
  }

  /** The coordinate parameters that follow the key. */
  function LocationQuery(latitude: PyFloat, longitude: PyFloat): string
  {
    "&location.latitude=" + FloatRepr(latitude) + "&location.longitude=" + FloatRepr(longitude)
  }

  /** The shape shared by _build_current_conditions_url,
      _build_hourly_forecast_url and _build_daily_forecast_url. */
  function EndpointUrl(base: string, endpoint: string, apiKey: string, latitude: PyFloat, longitude: PyFloat)
    : (url: string)
    ensures |url| == |base| + 1 + |endpoint| + |Query(apiKey, latitude, longitude)|
    ensures url[..|base|] == base && url[|base|] == '/'
    ensures url[|base| + 1..|base| + 1 + |endpoint|] == endpoint
    ensures url[|base| + 1 + |endpoint|..] == Query(apiKey, latitude, longitude)
  {
    JoinShape(base, endpoint, Query(apiKey, latitude, longitude));
    base + "/" + endpoint + Query(apiKey, latitude, longitude)
  }

  /** Trailing slashes on the configured base URL make no difference to the
      requests: "https://h/v1", "https://h/v1/" and "https://h/v1//" give the
      same URLs. */
  lemma {:induction false} BaseUrlIgnoresTrailingSlashes(apiBaseUrl: string, k: nat)
    ensures BaseUrl(apiBaseUrl + seq(k, _ => '/')) == BaseUrl(apiBaseUrl)
    decreases k
  {
    var s := apiBaseUrl + seq(k, _ => '/');
    if k == 0 {
      assert s == apiBaseUrl;
    } else {
      assert s[|s| - 1] == '/';
      assert s[..|s| - 1] == apiBaseUrl + seq(k - 1, _ => '/');
      BaseUrlIgnoresTrailingSlashes(apiBaseUrl, k - 1);
    }
  }

  /** Positions in base + "/" + path + rest. */
  lemma JoinShape(base: string, path: string, rest: string)
    ensures var url := base + "/" + path + rest;
      && url[..|base|] == base
      && url[|base|] == '/'
      && url[|base| + 1..|base| + 1 + |path|] == path
      && url[|base| + 1 + |path|..] == rest
  {
    var tail := "/" + path + rest;
    var url := base + "/" + path + rest;
    assert url == base + tail;
    assert url[|base|..] == tail;
    assert tail[1..1 + |path|] == path;
    assert tail[1 + |path|..] == rest;
  }

  /** Every endpoint URL is the stored base URL, exactly one '/' (the base
      never ends in one), the endpoint path, then the query string. */
  lemma EndpointUrlShape(apiBaseUrl: string, endpoint: string, apiKey: string, latitude: PyFloat, longitude: PyFloat)
    ensures var base := BaseUrl(apiBaseUrl);
      var url := EndpointUrl(base, endpoint, apiKey, latitude, longitude);
      && url[..|base|] == base
      && url[|base|] == '/'
      && (|base| == 0 || url[|base| - 1] != '/')
      && url[|base| + 1..|base| + 1 + |endpoint|] == endpoint
      && url[|base| + 1 + |endpoint|..] == Query(apiKey, latitude, longitude)
  {
    var base := BaseUrl(apiBaseUrl);
    JoinShape(base, endpoint, Query(apiKey, latitude, longitude));
    var url := EndpointUrl(base, endpoint, apiKey, latitude, longitude);
    if |base| > 0 {
      assert url[|base| - 1] == url[..|base|][|base| - 1];
    }
  }

  /** The query string starts "?key=" followed by the API key. */
  lemma QueryStartsWithKey(apiKey: string, latitude: PyFloat, longitude: PyFloat)
    ensures Query(apiKey, latitude, longitude)[..5 + |apiKey|] == "?key=" + apiKey
  {
    PrefixOfJoin("?key=" + apiKey, LocationQuery(latitude, longitude));
  }

  /** A string is the prefix of its concatenation with another. */
  lemma PrefixOfJoin(a: string, b: string)
    ensures (a + b)[..|a|] == a
  {
    assert forall i | 0 <= i < |a| :: (a + b)[i] == a[i];
  }

  // ---------------------------------------------------------- the replies

  /** What asyncio.gather(..., return_exceptions=True) yields for one GET:
      the exception it raised, or the response. body is None when .json()
      would raise on it. */
  datatype Reply =
    | Raised(exception: PyException)
    | Response(isSuccess: bool, body: Option<Json>)

  /** `isinstance(resp, httpx.Response) and resp.is_success`. */
  predicate Succeeded(reply: Reply)
  {
    reply.Response? && reply.isSuccess
  }

  /** A successful response whose body does not decode: .json() raises,
      and the enclosing `except Exception` turns the whole fetch into None. */
  predicate Undecodable(reply: Reply)
  {
    Succeeded(reply) && reply.body.None?
  }

  /** One `if ...: result[key] = resp.json()` step. */
  function Include(result: map<string, Json>, key: string, reply: Reply): map<string, Json>
  {
    if Succeeded(reply) && reply.body.Some? then result[key := reply.body.value] else result
  }

  /** _fetch_weather as an expression: the specification FetchWeather is
      proved against. clientOk is false when creating the client raised. */
  function FetchSpec(clientOk: bool, current: Reply, hourly: Reply, daily: Reply): (r: Option<map<string, Json>>)
    ensures !clientOk ==> r.None?
    ensures r.Some? ==> r.value != map[] && r.value.Keys <= {"current", "hourly", "daily"}
  {
    if !clientOk || Undecodable(current) || Undecodable(hourly) || Undecodable(daily) then None
    else
      var result := Include(Include(Include(map[], "current", current), "hourly", hourly), "daily", daily);
      if result == map[] then None else Some(result)
  }

  /** _fetch_weather: fills `result` endpoint by endpoint. It has no error
      result: every exception in its body is caught and becomes None. */
  method FetchWeather(clientOk: bool, current: Reply, hourly: Reply, daily: Reply)
    returns (r: Option<map<string, Json>>)
    ensures r == FetchSpec(clientOk, current, hourly, daily)
  {
    if !clientOk {
      return None;
    }
    var result: map<string, Json> := map[];
    if Succeeded(current) {
      if current.body.None? {
        return None;
      }
      result := result["current" := current.body.value];
    }
    if Succeeded(hourly) {
      if hourly.body.None? {
        return None;
      }
      result := result["hourly" := hourly.body.value];
    }
    if Succeeded(daily) {
      if daily.body.None? {
        return None;
      }
      result := result["daily" := daily.body.value];
    }
    if result == map[] {
      return None;
    }
    r := Some(result);
  }

  /** The merged dict holds exactly the endpoints whose response succeeded,
      each under its own key with its decoded body; a partial result is
      returned as it is. */
  lemma FetchKeys(clientOk: bool, current: Reply, hourly: Reply, daily: Reply)
    requires FetchSpec(clientOk, current, hourly, daily).Some?
    ensures var m := FetchSpec(clientOk, current, hourly, daily).value;
      && (forall k :: k in m <==>
            (k == "current" && Succeeded(current)) || (k == "hourly" && Succeeded(hourly))
            || (k == "daily" && Succeeded(daily)))
      && ("current" in m ==> m["current"] == current.body.value)
      && ("hourly" in m ==> m["hourly"] == hourly.body.value)
      && ("daily" in m ==> m["daily"] == daily.body.value)
  {
  }

  /** The fetch yields None exactly when the client could not be created, a
      successful body did not decode, or all three requests failed. */
  lemma FetchNoneIff(clientOk: bool, current: Reply, hourly: Reply, daily: Reply)
    ensures FetchSpec(clientOk, current, hourly, daily).None? <==>
      || !clientOk
      || Undecodable(current) || Undecodable(hourly) || Undecodable(daily)
      || (!Succeeded(current) && !Succeeded(hourly) && !Succeeded(daily))
  {
    if clientOk && !Undecodable(current) && !Undecodable(hourly) && !Undecodable(daily) {
      var result := Include(Include(Include(map[], "current", current), "hourly", hourly), "daily", daily);
      if Succeeded(current) {
        assert "current" in result;
      } else if Succeeded(hourly) {
        assert "hourly" in result;
      } else if Succeeded(daily) {
        assert "daily" in result;
      }
    }
  }

  // ---------------------------------------------------------------- retry

  /** The retry decorator's parameters: at most 3 attempts, exponential
      waits kept between 4 and 10 seconds, re-raising the last exception. */
  const RetryAttempts := 3
  const RetryWaitMin := 4
  const RetryWaitMax := 10

  /** httpx.TimeoutException and httpx.NetworkError with their subclasses:
      the only exceptions the decorator retries on. */
  const RetryableKinds: set<string> := {
    "TimeoutException", "ConnectTimeout", "ReadTimeout", "WriteTimeout", "PoolTimeout",
    "NetworkError", "ConnectError", "ReadError", "WriteError", "CloseError"
  }

  /** How one call of the decorated coroutine ended. */
  datatype Attempt<T> = Returned(value: T) | Threw(exception: PyException)

  /** The decorator's outcome given the successive attempts' outcomes, with
      the number of attempts it made: the first return, the first exception
      it does not retry, or the third retryable exception re-raised. */
  function Retried<T>(attempts: seq<Attempt<T>>, made: nat): (r: (Attempt<T>, nat))
    requires 1 <= made <= RetryAttempts <= |attempts|
    ensures made <= r.1 <= RetryAttempts
    ensures r.0 == attempts[r.1 - 1]
    ensures r.0.Threw? && r.1 < RetryAttempts ==> r.0.exception.kind !in RetryableKinds
    ensures forall i | made - 1 <= i < r.1 - 1 :: attempts[i].Threw? && attempts[i].exception.kind in RetryableKinds
    decreases RetryAttempts - made
  {
    var outcome := attempts[made - 1];
    if outcome.Returned? || outcome.exception.kind !in RetryableKinds || made == RetryAttempts then (outcome, made)
    else Retried(attempts, made + 1)
  }

  /** Since _fetch_weather never raises, the decorator calls it exactly once
      and returns its result: no retry ever happens. */
  lemma FetchIsNeverRetried(attempts: seq<Attempt<Option<map<string, Json>>>>)
    requires |attempts| >= RetryAttempts
    requires forall i | 0 <= i < |attempts| :: attempts[i].Returned?
    ensures Retried(attempts, 1) == (attempts[0], 1)
  {
  }

  /** A retryable exception on every attempt: the decorator gives up after
      the third attempt and re-raises that attempt's exception. */
  lemma RetryGivesUpAfterThree<T>(attempts: seq<Attempt<T>>)
    requires |attempts| >= RetryAttempts
    requires forall i | 0 <= i < |attempts| :: attempts[i].Threw? && attempts[i].exception.kind in RetryableKinds
    ensures Retried(attempts, 1) == (attempts[2], 3)
  {
  }
}
