/** src/weather_daemon/config.py: the WeatherConfig record, its construction
    from the environment (a map from variable names to values) and its
    validation. float(), int() and urlparse are parameters: each returns
    its result or the exception it raises. */
module Config {
  import opened Text
  import opened PyJson

  datatype WeatherConfig = WeatherConfig(
    apiKey: string,
    outputDir: string,
    latitude: PyFloat,
    longitude: PyFloat,
    locationName: Option<string>,
    pollInterval: int,
    timeout: int,
    logLevel: string,
    logFormat: string,
    apiBaseUrl: string,
    currentConditionsEndpoint: string,
    hourlyForecastEndpoint: string,
    dailyForecastEndpoint: string,
    healthCheckEnabled: bool,
    healthCheckHost: string,
    healthCheckPort: int)

  const DefaultPollInterval := 3600
  const DefaultTimeout := 30
  const DefaultLogLevel := "INFO"
  const DefaultLogFormat := "text"
  const DefaultApiBaseUrl := "https://weather.googleapis.com/v1"
  const DefaultCurrentEndpoint := "currentConditions:lookup"
  const DefaultHourlyEndpoint := "forecast/hours:lookup"
  const DefaultDailyEndpoint := "forecast/days:lookup"
  const DefaultHealthCheckHost := "127.0.0.1"
  const DefaultHealthCheckPort := 8080
  const DefaultOutputDir := "/opt/weather-daemon/cache"

  /** The dataclass constructor given only the four required fields. */
  function WithDefaults(apiKey: string, outputDir: string, latitude: PyFloat, longitude: PyFloat): (c: WeatherConfig)
    ensures c.apiKey == apiKey && c.outputDir == outputDir && c.latitude == latitude && c.longitude == longitude
    ensures c.locationName == None
    ensures c.pollInterval == 3600 && c.timeout == 30
    ensures c.logLevel == "INFO" && c.logFormat == "text"
    ensures c.healthCheckEnabled && c.healthCheckHost == "127.0.0.1" && c.healthCheckPort == 8080
    ensures c.apiBaseUrl == "https://weather.googleapis.com/v1"
    ensures c.currentConditionsEndpoint == "currentConditions:lookup"
    ensures c.hourlyForecastEndpoint == "forecast/hours:lookup" && c.dailyForecastEndpoint == "forecast/days:lookup"
  {
    WeatherConfig(apiKey, outputDir, latitude, longitude, None, DefaultPollInterval, DefaultTimeout,
      DefaultLogLevel, DefaultLogFormat, DefaultApiBaseUrl, DefaultCurrentEndpoint, DefaultHourlyEndpoint,
      DefaultDailyEndpoint, true, DefaultHealthCheckHost, DefaultHealthCheckPort)
  }

  function ValueError(message: string): PyException
  {
    PyException("ValueError", message)
  }

  // ------------------------------------------------------------- from_env

  /** os.getenv(name, default). */
  function GetEnv(env: map<string, string>, name: string, default: string): (value: string)
    ensures name in env ==> value == env[name]
    ensures name !in env ==> value == default
  {
    if name in env then env[name] else default
  }

  /** `not value` for os.getenv(name): unset or empty. */
  predicate Blank(env: map<string, string>, name: string)
  {
    name !in env || env[name] == ""
  }

  const ApiKeyRequired := "WEATHER_API_KEY environment variable is required. Set it in environment or .env file."
  const CoordinatesRequired :=
    "WEATHER_LATITUDE and WEATHER_LONGITUDE are required. Set them in environment or .env file."

  /** The accepted spellings of an enabled health check, after lower(). */
  predicate Truthy(value: string)
    ensures value in {"true", "1", "yes"} ==> Truthy(value)
    ensures Truthy(value) ==> |value| in {1, 3, 4}
  {
    LowerCaseWords();
    Lower(value) in {"true", "1", "yes"}
  }

  /** The three accepted spellings are already lower case. */
  lemma LowerCaseWords()
    ensures Lower("true") == "true" && Lower("1") == "1" && Lower("yes") == "yes"
  {
    assert Lower("true") == "true";
    assert Lower("yes") == "yes";
    assert Lower("1") == "1";
  }

  /** Letter case makes no difference: a value enables the health check
      exactly when its lower-case form does. */
  lemma TruthyIgnoresCase(value: string)
    ensures Truthy(Lower(value)) == Truthy(value)
  {
    LowerIdempotent(value);
  }

  /** int(os.getenv(name, default)); int() raising ValueError is not caught. */
  function IntSetting(env: map<string, string>, name: string, default: string,
                      parseInt: string -> Result<int>): Result<int>
  {
    parseInt(GetEnv(env, name, default))
  }

  /** WeatherConfig.from_env, after the optional .env file has been merged
      into env. */
  function FromEnv(env: map<string, string>, parseFloat: string -> Result<PyFloat>,
                   parseInt: string -> Result<int>): (r: Result<WeatherConfig>)
    ensures r.Ok? ==> !Blank(env, "WEATHER_API_KEY") && r.value.apiKey == env["WEATHER_API_KEY"]
    ensures r.Ok? ==> !Blank(env, "WEATHER_LATITUDE") && !Blank(env, "WEATHER_LONGITUDE")
    ensures r.Ok? ==> r.value.healthCheckEnabled == Truthy(GetEnv(env, "WEATHER_HEALTH_CHECK_ENABLED", "true"))
    ensures r.Ok? ==> (Ok(r.value.latitude) == parseFloat(env["WEATHER_LATITUDE"])
                       && Ok(r.value.longitude) == parseFloat(env["WEATHER_LONGITUDE"]))
    ensures r.Ok? ==> (r.value.outputDir == GetEnv(env, "WEATHER_OUTPUT_DIR", DefaultOutputDir)
                       && r.value.locationName
                          == (if "WEATHER_LOCATION_NAME" in env then Some(env["WEATHER_LOCATION_NAME"]) else None))
    ensures r.Ok? ==> (Ok(r.value.pollInterval) == parseInt(GetEnv(env, "WEATHER_POLL_INTERVAL", "3600"))
                       && Ok(r.value.timeout) == parseInt(GetEnv(env, "WEATHER_TIMEOUT", "30"))
                       && Ok(r.value.healthCheckPort) == parseInt(GetEnv(env, "WEATHER_HEALTH_CHECK_PORT", "8080")))
    ensures r.Ok? ==> (r.value.logLevel == GetEnv(env, "WEATHER_LOG_LEVEL", DefaultLogLevel)
                       && r.value.logFormat == GetEnv(env, "WEATHER_LOG_FORMAT", DefaultLogFormat)
                       && r.value.healthCheckHost == GetEnv(env, "WEATHER_HEALTH_CHECK_HOST", DefaultHealthCheckHost))
    ensures r.Ok? ==> (r.value.apiBaseUrl == GetEnv(env, "WEATHER_API_BASE_URL", DefaultApiBaseUrl)
                       && r.value.currentConditionsEndpoint
                          == GetEnv(env, "WEATHER_CURRENT_ENDPOINT", DefaultCurrentEndpoint)
                       && r.value.hourlyForecastEndpoint == GetEnv(env, "WEATHER_HOURLY_ENDPOINT", DefaultHourlyEndpoint)
                       && r.value.dailyForecastEndpoint == GetEnv(env, "WEATHER_DAILY_ENDPOINT", DefaultDailyEndpoint))
  {
    if Blank(env, "WEATHER_API_KEY") then Err(ValueError(ApiKeyRequired))
    else
      var outputDir := GetEnv(env, "WEATHER_OUTPUT_DIR", DefaultOutputDir);
      if Blank(env, "WEATHER_LATITUDE") || Blank(env, "WEATHER_LONGITUDE") then Err(ValueError(CoordinatesRequired))
      else
        var lat := parseFloat(env["WEATHER_LATITUDE"]);
        var lon := parseFloat(env["WEATHER_LONGITUDE"]);
        if lat.Err? then Err(ValueError("Invalid latitude/longitude values: " + lat.error.message))
        else if lon.Err? then Err(ValueError("Invalid latitude/longitude values: " + lon.error.message))
        else
          var locationName := if "WEATHER_LOCATION_NAME" in env then Some(env["WEATHER_LOCATION_NAME"]) else None;
          var pollInterval :- IntSetting(env, "WEATHER_POLL_INTERVAL", "3600", parseInt);
          var timeout :- IntSetting(env, "WEATHER_TIMEOUT", "30", parseInt);
          var enabled := Truthy(GetEnv(env, "WEATHER_HEALTH_CHECK_ENABLED", "true"));
          var port :- IntSetting(env, "WEATHER_HEALTH_CHECK_PORT", "8080", parseInt);
          Ok(WeatherConfig(
            env["WEATHER_API_KEY"], outputDir, lat.value, lon.value, locationName, pollInterval, timeout,
            GetEnv(env, "WEATHER_LOG_LEVEL", DefaultLogLevel),
            GetEnv(env, "WEATHER_LOG_FORMAT", DefaultLogFormat),
            GetEnv(env, "WEATHER_API_BASE_URL", DefaultApiBaseUrl),
            GetEnv(env, "WEATHER_CURRENT_ENDPOINT", DefaultCurrentEndpoint),
            GetEnv(env, "WEATHER_HOURLY_ENDPOINT", DefaultHourlyEndpoint),
            GetEnv(env, "WEATHER_DAILY_ENDPOINT", DefaultDailyEndpoint),
            enabled,
            GetEnv(env, "WEATHER_HEALTH_CHECK_HOST", DefaultHealthCheckHost),
            port))
  }

  /** from_env succeeds exactly when the key and both coordinates are set
      and non-empty and every value it converts parses. */
  lemma FromEnvOkIff(env: map<string, string>, parseFloat: string -> Result<PyFloat>,
                     parseInt: string -> Result<int>)
    ensures FromEnv(env, parseFloat, parseInt).Ok? <==>
      && !Blank(env, "WEATHER_API_KEY")
      && !Blank(env, "WEATHER_LATITUDE") && !Blank(env, "WEATHER_LONGITUDE")
      && parseFloat(env["WEATHER_LATITUDE"]).Ok? && parseFloat(env["WEATHER_LONGITUDE"]).Ok?
      && parseInt(GetEnv(env, "WEATHER_POLL_INTERVAL", "3600")).Ok?
      && parseInt(GetEnv(env, "WEATHER_TIMEOUT", "30")).Ok?
      && parseInt(GetEnv(env, "WEATHER_HEALTH_CHECK_PORT", "8080")).Ok?
  {
  }

  /** A missing or empty API key is reported first, whatever else the
      environment holds. */
  lemma MissingApiKeyFirst(env: map<string, string>, parseFloat: string -> Result<PyFloat>,
                           parseInt: string -> Result<int>)
    requires Blank(env, "WEATHER_API_KEY")
    ensures FromEnv(env, parseFloat, parseInt) == Err(ValueError(ApiKeyRequired))
  {
  }

  /** With an API key, a missing or empty coordinate is reported before any
      value is parsed. */
  lemma MissingCoordinates(env: map<string, string>, parseFloat: string -> Result<PyFloat>,
                           parseInt: string -> Result<int>)
    requires !Blank(env, "WEATHER_API_KEY")
    requires Blank(env, "WEATHER_LATITUDE") || Blank(env, "WEATHER_LONGITUDE")
    ensures FromEnv(env, parseFloat, parseInt) == Err(ValueError(CoordinatesRequired))
  {
  }

  /** Only the three required variables set, the numbers reading as
      themselves: every other field takes the dataclass default, the output
      directory its own default. */
  lemma FromEnvDefaults(apiKey: string, lat: string, lon: string, latitude: PyFloat, longitude: PyFloat,
                        parseFloat: string -> Result<PyFloat>, parseInt: string -> Result<int>)
    requires apiKey != "" && lat != "" && lon != ""
    requires parseFloat(lat) == Ok(latitude) && parseFloat(lon) == Ok(longitude)
    requires parseInt("3600") == Ok(3600) && parseInt("30") == Ok(30) && parseInt("8080") == Ok(8080)
    ensures FromEnv(map["WEATHER_API_KEY" := apiKey, "WEATHER_LATITUDE" := lat, "WEATHER_LONGITUDE" := lon],
                    parseFloat, parseInt)
      == Ok(WithDefaults(apiKey, DefaultOutputDir, latitude, longitude))
  {
    var env := map["WEATHER_API_KEY" := apiKey, "WEATHER_LATITUDE" := lat, "WEATHER_LONGITUDE" := lon];
    assert Truthy("true") by {
      assert Lower("true") == "true";
    }
    assert "WEATHER_LOCATION_NAME" !in env && "WEATHER_OUTPUT_DIR" !in env;
    assert "WEATHER_POLL_INTERVAL" !in env && "WEATHER_TIMEOUT" !in env && "WEATHER_HEALTH_CHECK_PORT" !in env;
    assert "WEATHER_HEALTH_CHECK_ENABLED" !in env && "WEATHER_HEALTH_CHECK_HOST" !in env;
    assert "WEATHER_LOG_LEVEL" !in env && "WEATHER_LOG_FORMAT" !in env && "WEATHER_API_BASE_URL" !in env;
    assert "WEATHER_CURRENT_ENDPOINT" !in env && "WEATHER_HOURLY_ENDPOINT" !in env && "WEATHER_DAILY_ENDPOINT" !in env;
  }

  /** The health check is enabled exactly for "true", "1" and "yes" in any
      letter case; "false", "0", "no" and the empty string disable it. */
  lemma TruthyExamples()
    ensures Truthy("true") && Truthy("TRUE") && Truthy("True") && Truthy("1") && Truthy("yes") && Truthy("YES")
    ensures !Truthy("false") && !Truthy("0") && !Truthy("no") && !Truthy("") && !Truthy("on")
  {
    assert Lower("TRUE") == "true";
    assert Lower("True") == "true";
    assert Lower("true") == "true";
    assert Lower("YES") == "yes";
    assert Lower("yes") == "yes";
    assert Lower("1") == "1";
    assert Lower("false") == "false";
    assert Lower("0") == "0";
    assert Lower("no") == "no";
    assert Lower("on") == "on";
  }

  // ------------------------------------------------------------- validate

  /** The parts of urlparse's result the validator reads. */
  datatype ParsedUrl = ParsedUrl(scheme: string, netloc: string)

  /** The validation outcome when nothing raised: whether the short-interval
      warning was logged. */
  datatype Validated = Validated(rateLimitWarning: bool)

  function UrlError(url: string, inner: string): PyException
  {
    ValueError("Invalid API base URL '" + url + "': " + inner)
  }

  /** The URL check: urlparse's own exception and the two checks' errors are
      all caught and re-raised inside "Invalid API base URL ...". */
  function CheckUrl(url: string, urlparse: string -> Result<ParsedUrl>): (r: Option<PyException>)
    ensures r.Some? ==> r.value.kind == "ValueError"
    ensures r.None? <==> urlparse(url).Ok? && urlparse(url).value.scheme in {"http", "https"}
                         && urlparse(url).value.netloc != ""
  {
    match urlparse(url)
    case Err(e) => Some(UrlError(url, e.message))
    case Ok(parsed) =>
      if parsed.scheme !in {"http", "https"} then
        Some(UrlError(url, "API base URL must use http or https: " + url))
      else if parsed.netloc == "" then
        Some(UrlError(url, "API base URL must include a hostname: " + url))
      else None
  }

  /** WeatherConfig.validate: the guards in source order, each raising
      ValueError. */
  function Validate(c: WeatherConfig, urlparse: string -> Result<ParsedUrl>): (r: Result<Validated>)
    ensures r.Err? ==> r.error.kind == "ValueError"
  {
    if c.apiKey == "" then Err(ValueError("API key cannot be empty"))
    else if !FloatBetween(c.latitude, -90, 90) then Err(ValueError("Invalid latitude: " + FloatRepr(c.latitude)))
    else if !FloatBetween(c.longitude, -180, 180) then Err(ValueError("Invalid longitude: " + FloatRepr(c.longitude)))
    else if c.pollInterval < 60 then Err(ValueError("Poll interval must be at least 60 seconds"))
    else
      var warned := c.pollInterval < 300;
      if c.timeout < 1 then Err(ValueError("Timeout must be at least 1 second"))
      else if CheckUrl(c.apiBaseUrl, urlparse).Some? then Err(CheckUrl(c.apiBaseUrl, urlparse).value)
      else if !(1 <= c.healthCheckPort <= 65535) then
        Err(ValueError("Health check port must be between 1-65535: " + IntToString(c.healthCheckPort)))
      else Ok(Validated(warned))
  }

  /** The guards as a list, independent of how validate chains them: the
      error guard i raises, or None when it passes. */
  function Guards(c: WeatherConfig, urlparse: string -> Result<ParsedUrl>): (gs: seq<Option<PyException>>)
    ensures |gs| == 7
  {
    [ if c.apiKey == "" then Some(ValueError("API key cannot be empty")) else None,
      if FloatBetween(c.latitude, -90, 90) then None else Some(ValueError("Invalid latitude: " + FloatRepr(c.latitude))),
      if FloatBetween(c.longitude, -180, 180) then None
      else Some(ValueError("Invalid longitude: " + FloatRepr(c.longitude))),
      if c.pollInterval >= 60 then None else Some(ValueError("Poll interval must be at least 60 seconds")),
      if c.timeout >= 1 then None else Some(ValueError("Timeout must be at least 1 second")),
      CheckUrl(c.apiBaseUrl, urlparse),
      if 1 <= c.healthCheckPort <= 65535 then None
      else Some(ValueError("Health check port must be between 1-65535: " + IntToString(c.healthCheckPort))) ]
  }

  /** Validation passes exactly when every guard passes. */
  lemma ValidatePassesIff(c: WeatherConfig, urlparse: string -> Result<ParsedUrl>)
    ensures Validate(c, urlparse).Ok? <==> forall i | 0 <= i < 7 :: Guards(c, urlparse)[i].None?
  {
    var gs := Guards(c, urlparse);
    if forall i | 0 <= i < 7 :: gs[i].None? {
      assert gs[0].None? && gs[1].None? && gs[2].None? && gs[3].None?;
      assert gs[4].None? && gs[5].None? && gs[6].None?;
    }
  }

  /** Validation raises exactly the first failing guard's error. */
  lemma ValidateFirstFailure(c: WeatherConfig, urlparse: string -> Result<ParsedUrl>)
    ensures var gs := Guards(c, urlparse);
      forall i | 0 <= i < 7 && gs[i].Some? && (forall j | 0 <= j < i :: gs[j].None?) ::
        Validate(c, urlparse) == Err(gs[i].value)
  {
    var gs := Guards(c, urlparse);
    forall i | 0 <= i < 7 && gs[i].Some? && (forall j | 0 <= j < i :: gs[j].None?)
      ensures Validate(c, urlparse) == Err(gs[i].value)
    {
      if i < 4 {
        FirstFailureEarly(c, urlparse, i);
      } else {
        FirstFailureLate(c, urlparse, i);
      }
    }
  }

  /** ValidateFirstFailure for the key and coordinate guards and the poll
      interval. */
  lemma FirstFailureEarly(c: WeatherConfig, urlparse: string -> Result<ParsedUrl>, i: int)
    requires 0 <= i < 4
    requires Guards(c, urlparse)[i].Some? && forall j | 0 <= j < i :: Guards(c, urlparse)[j].None?
    ensures Validate(c, urlparse) == Err(Guards(c, urlparse)[i].value)
  {
    var gs := Guards(c, urlparse);
    if i == 0 {
    } else if i == 1 {
      assert gs[0].None?;
    } else if i == 2 {
      assert gs[0].None? && gs[1].None?;
    } else {
      assert gs[0].None? && gs[1].None? && gs[2].None?;
    }
  }

  /** ValidateFirstFailure for the timeout, URL and port guards. */
  lemma FirstFailureLate(c: WeatherConfig, urlparse: string -> Result<ParsedUrl>, i: int)
    requires 4 <= i < 7
    requires Guards(c, urlparse)[i].Some? && forall j | 0 <= j < i :: Guards(c, urlparse)[j].None?
    ensures Validate(c, urlparse) == Err(Guards(c, urlparse)[i].value)
  {
    var gs := Guards(c, urlparse);
    assert gs[0].None? && gs[1].None? && gs[2].None? && gs[3].None?;
    if i == 5 {
      assert gs[4].None?;
    } else if i == 6 {
      assert gs[4].None? && gs[5].None?;
    }
  }

  /** A configuration passing the checks before the coordinates is accepted
      past them exactly when -90 <= latitude <= 90 and -180 <= longitude <=
      180, bounds included; nan never is. */
  lemma CoordinateBounds(c: WeatherConfig, urlparse: string -> Result<ParsedUrl>)
    requires c.apiKey != ""
    ensures Validate(c, urlparse) == Err(ValueError("Invalid latitude: " + FloatRepr(c.latitude)))
      <== !FloatBetween(c.latitude, -90, 90)
    ensures FloatBetween(c.latitude, -90, 90) && !FloatBetween(c.longitude, -180, 180)
      ==> Validate(c, urlparse) == Err(ValueError("Invalid longitude: " + FloatRepr(c.longitude)))
    ensures FloatBetween(Finite(Decimal(-90, 0)), -90, 90) && FloatBetween(Finite(Decimal(900, 1)), -90, 90)
    ensures !FloatBetween(Finite(Decimal(1000, 1)), -90, 90) && !FloatBetween(NaN, -90, 90)
    ensures FloatBetween(Finite(Decimal(-180, 0)), -180, 180) && !FloatBetween(Finite(Decimal(2000, 1)), -180, 180)
  {
  }

  /** Intervals under 60 s are rejected; 60 to 299 s pass with a warning;
      300 s and more pass silently. */
  lemma PollIntervalRule(c: WeatherConfig, urlparse: string -> Result<ParsedUrl>)
    requires c.apiKey != "" && FloatBetween(c.latitude, -90, 90) && FloatBetween(c.longitude, -180, 180)
    ensures c.pollInterval < 60 ==> Validate(c, urlparse) == Err(ValueError("Poll interval must be at least 60 seconds"))
    ensures c.pollInterval >= 60 && Validate(c, urlparse).Ok? ==>
      Validate(c, urlparse).value.rateLimitWarning == (c.pollInterval < 300)
  {
  }

  /** The health-check port is accepted exactly in 1..65535 (when every
      earlier guard passes). */
  lemma PortRange(c: WeatherConfig, urlparse: string -> Result<ParsedUrl>)
    requires forall i | 0 <= i < 6 :: Guards(c, urlparse)[i].None?
    ensures Validate(c, urlparse).Ok? <==> 1 <= c.healthCheckPort <= 65535
  {
    ValidatePassesIff(c, urlparse);
  }

  /** The test suite's "not-a-url": no scheme, so the URL guard fails with
      the rewrapped message. */
  lemma NotAUrlRejected(c: WeatherConfig, urlparse: string -> Result<ParsedUrl>)
    requires c.apiKey != "" && FloatBetween(c.latitude, -90, 90) && FloatBetween(c.longitude, -180, 180)
    requires c.pollInterval >= 60 && c.timeout >= 1
    requires c.apiBaseUrl == "not-a-url" && urlparse("not-a-url") == Ok(ParsedUrl("", ""))
    ensures Validate(c, urlparse)
      == Err(UrlError("not-a-url", "API base URL must use http or https: not-a-url"))
  {
  }
}
