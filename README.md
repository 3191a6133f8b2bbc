# weather-daemon in Dafny

A model of the core of weather-daemon, a Python service with four parts:

- **Poller.** It polls a weather provider (current conditions, an hourly forecast and a daily forecast) on an interval.
- **Parser.** It turns the provider's JSON into a fixed snapshot record.
- **Writer.** It publishes the snapshot as `weather_forecast.json` with an atomic temp-file-and-rename write.
- **Health servers.** Two small HTTP handlers report whether the feed is fresh.

The configuration record `WeatherConfig`, read from the environment and validated, feeds it all.

The modules follow the source files:

| module | file | what it holds |
|---|---|---|
| `PyJson`, `Text`, `Http` | (shared) | Python values as the daemon sees them: decoded JSON, exact decimals, Python floats with `inf`/`nan`, exceptions, `dict.get`; `str()` of ints, `rstrip`, `lower`, UTF-8 length; an HTTP reply |
| `Units` | `src/weather_daemon/daemon.py` | Celsius to Fahrenheit with `round()` (ties to even), the icon table, the 12-hour label, the proleptic Gregorian weekday |
| `Parser`, `ParserProperties` | `src/weather_daemon/daemon.py` | `_parse_weather_response` as a specification function and as the imperative loops, with its properties and the test fixture |
| `Fetch` | `src/weather_daemon/daemon.py` | location name, URL builders, the merge in `_fetch_weather`, the retry decorator's policy |
| `AtomicFile` | `src/weather_daemon/daemon.py` | `_write_json_atomic` over a `FileSystem` object holding a path-to-entry map |
| `Daemon` | `src/weather_daemon/daemon.py` | the `WeatherDaemon` class: `_poll_once`, `run`, `stop`, with the cycle and the run as specification functions |
| `Health` | `src/weather_daemon/health.py` | the handler's shared class attributes as a class, `record_success`/`record_error`, the status and metrics records |
| `HealthCheck` | `src/weather_daemon/healthcheck.py` | the `/health` and `/metrics` decisions as pure functions of the daemon, a file probe and the time |
| `Config` | `src/weather_daemon/config.py` | `WeatherConfig`, `from_env` over an environment map, `validate` |

The outside world is passed in as data:

- **HTTP replies.** Each of the three requests yields a `Reply`: the exception it raised, or a response with its success flag and its decoded body.
- **Time.** The clock is an integer number of microseconds, given to each cycle.
- **Temp-file name.** The random part of the name `mkstemp` picks is a `token`.
- **Write failures.** A `WriteFault` says which step of the write raises.
- **Serialisation.** `json.dump`'s text is a function parameter `render`.
- **The loop's sleeps.** The sequence of `Tick`s says how each sleep ended: cancellation, `stop()`, or a wake with the next cycle's input.

`Config` takes Python's parsers as parameters: `float()`, `int()` and `urlparse`.

Temperatures are exact decimals, a mantissa over a power of ten. `round()` is specified as the nearest integer with ties to even, and proved to be unique.

`WeatherDaemon.health_server` is set to `None` by the constructor. No code in `daemon.py` assigns it. The model keeps it as a nullable reference to a `Health.HealthCheckServer`, so the reporting branch of `_poll_once` is modelled and proved for both cases.

Two behaviours of the code are easy to miss:

- A fetch with only some endpoints answering is returned as a partial dict and parsed with defaults. It does not fail the cycle.
- `_fetch_weather` catches every exception, and `gather` returns request exceptions as values. So the retry decorator never sees an exception and never retries (`Fetch.FetchIsNeverRetried`). The policy itself is modelled on its own (`Fetch.Retried`).

## Model

| member | source | states |
|---|---|---|
| Text.DigitChar | src/weather_daemon/daemon.py:252 | the digit character has the given digit value |
| Text.NatToString | src/weather_daemon/daemon.py:252 | `str(n)` is a non-empty run of digits without a leading zero |
| Text.NatToStringRoundTrip | src/weather_daemon/daemon.py:252 | reading back the digits of `str(n)` gives `n` |
| Text.IntToString | src/weather_daemon/daemon.py:256 | `str(i)` is non-empty and starts with `-` exactly for negatives |
| Text.IntToStringRoundTrip | src/weather_daemon/daemon.py:256 | `str(i)` of any integer reads back as `i` |
| Text.IntToStringInjective | src/weather_daemon/daemon.py:252-256 | different integers have different decimal texts |
| Text.RStrip | src/weather_daemon/daemon.py:68 | `rstrip(c)` is a prefix, does not end in `c`, and only `c`s were removed |
| Text.Lower | src/weather_daemon/config.py:94 | `lower()` keeps the length, leaves no capital A-Z, and changes a character only when it is a capital, into its lower-case letter |
| Text.LowerIdempotent | src/weather_daemon/config.py:94 | lowering an already lowered text changes nothing |
| Text.Utf8Length | src/weather_daemon/health.py:102 | the byte size of a text lies between its number of characters and four times that, and equals it for an ASCII text |
| Text.Utf8LengthAppend | src/weather_daemon/daemon.py:339 | the size of two texts written one after the other is the sum of their sizes |
| PyJson.Pow10 | src/weather_daemon/daemon.py:169 | powers of ten are positive |
| PyJson.Normalize | src/weather_daemon/daemon.py:81 | dropping trailing fraction zeros keeps the value, and no trailing zero is left |
| PyJson.ZeroPad | src/weather_daemon/daemon.py:81 | a shorter digit string gets exactly enough leading zeros to reach the width; a long enough one is kept as it is |
| PyJson.Get | src/weather_daemon/daemon.py:215-232 | `.get` succeeds exactly on a dict; it gives the bound value, even null, or else the default |
| PyJson.Lookup | src/weather_daemon/daemon.py:219-224 | `.get` on a known dict cannot raise |
| Units.RoundHalfEven | src/weather_daemon/daemon.py:169 | the result is the nearest integer to the fraction, with ties to even |
| Units.NearestTiesEvenUnique | src/weather_daemon/daemon.py:169 | the nearest-with-ties-to-even rule fixes exactly one integer |
| Units.NoTwoNearest | src/weather_daemon/daemon.py:169 | two integers that both meet the rule are equal |
| Units.CelsiusToFahrenheit | src/weather_daemon/daemon.py:167-169 | the result is the nearest integer to `c*9/5+32` computed exactly, ties to even |
| Units.FahrenheitIs | src/weather_daemon/daemon.py:167-169 | any integer nearest to the exact value is the conversion |
| Units.FahrenheitExamples | tests/test_daemon.py:133-138 | 0→32, 100→212, −40→−40, 20→68, 16.9→62, 7.2→45, 7.8→46, and the tie 2.5→36 |
| Units.MapWeatherIcon | src/weather_daemon/daemon.py:171-201 | a listed type gets its own table glyph, any other type the fallback glyph; the icon is always one of the table's glyphs |
| Units.FallbackExactlyForUnknown | src/weather_daemon/daemon.py:180-201 | the fallback glyph is given exactly for unlisted types and for MOSTLY_CLEAR |
| Units.IconExamplesSky | src/weather_daemon/daemon.py:181-186 | CLEAR, MOSTLY_CLEAR, PARTLY_CLOUDY, MOSTLY_CLOUDY, CLOUDY and OVERCAST with their glyphs |
| Units.IconExamplesRain | src/weather_daemon/daemon.py:187-191 | RAIN, SHOWERS, LIGHT_RAIN, HEAVY_RAIN and THUNDERSTORM with their glyphs |
| Units.IconExamplesSnow | src/weather_daemon/daemon.py:192-196 | SNOW, LIGHT_SNOW, HEAVY_SNOW, SLEET and FREEZING_RAIN with their glyphs |
| Units.IconExamplesOther | tests/test_daemon.py:141-147 | FOG, HAZE and WINDY with their glyphs; the tested UNKNOWN, SUNNY and "" with the fallback |
| Units.GlyphBytes | src/weather_daemon/daemon.py:339 | written unescaped, the fallback glyph takes 7 bytes, ⛅ 3, and every glyph between 3 and 7 |
| Units.HourLabel | src/weather_daemon/daemon.py:248-256 | the label ends in " AM" before noon and " PM" from noon on, after a clock hour that does not start with 0 |
| Units.HourLabelClock | src/weather_daemon/daemon.py:248-256 | for hours 0..23 the label is the 12-hour clock reading, then AM before noon and PM from noon on |
| Units.HourLabelInjective | src/weather_daemon/daemon.py:248-256 | no two hours of a day share a label |
| Units.SameLabelSameReading | src/weather_daemon/daemon.py:248-256 | equal labels show the same clock hour on the same side of noon |
| Units.ClockReadingInjective | src/weather_daemon/daemon.py:248-256 | clock hour and side of noon determine the hour |
| Units.WeekdayIndex | src/weather_daemon/daemon.py:287-288 | the weekday index is 0..6 |
| Units.Ordinal | src/weather_daemon/daemon.py:287 | the ordinal of a valid date lies within its year: after the days of earlier years and within the year's length |
| Units.MonthsWithinYear | src/weather_daemon/daemon.py:287 | every month ends no later than its year |
| Units.WeekdayName | src/weather_daemon/daemon.py:288 | `strftime("%A")` is one of the seven names, and Monday exactly for ordinals one more than a multiple of seven |
| Units.YearLength | src/weather_daemon/daemon.py:287 | a year has 366 days when it is a leap year, else 365 |
| Units.MonthsFillYear | src/weather_daemon/daemon.py:287 | the months add up to the year's length |
| Units.NextDateOrdinal | src/weather_daemon/daemon.py:287 | the day after a valid date is valid and has the next ordinal |
| Units.NextDateWeekday | src/weather_daemon/daemon.py:287-288 | the weekday advances by one each day |
| Units.WeekdayExamples | tests/test_daemon.py:171 | 0001-01-01 is a Monday, 2026-01-01 a Thursday, 2026-01-28 a Wednesday |
| Parser.DegreesAt | src/weather_daemon/daemon.py:216 | a missing temperature record reads as null; a non-dict raises |
| Parser.FahrenheitOf | src/weather_daemon/daemon.py:217 | null stays None; numbers convert; any other type raises TypeError |
| Parser.IconOf | src/weather_daemon/daemon.py:201 | `icon_map.get` raises exactly on an unhashable list or dict; otherwise it gives a table glyph, the fallback for non-strings |
| Parser.HourLabelOf | src/weather_daemon/daemon.py:245-256 | an int hour gets `HourLabel`; the label fails exactly for values `<` cannot compare |
| Parser.CIntArg | src/weather_daemon/daemon.py:287 | `datetime()` accepts only C ints and gives them back unchanged |
| Parser.DayNameOf | src/weather_daemon/daemon.py:286-290 | raises exactly when an argument is not a C int; a valid date gives its weekday name; an invalid date of C ints gives "" |
| Parser.HourEntryOf | src/weather_daemon/daemon.py:238-262 | an hourly entry's icon is always a table glyph |
| Parser.DayConditionOf | src/weather_daemon/daemon.py:269-272 | the condition reads succeed only on a dict entry |
| Parser.DayTemperaturesOf | src/weather_daemon/daemon.py:274-277 | the reads succeed only on a dict entry; a day without max and min temperatures gets None for both |
| Parser.DayNameAt | src/weather_daemon/daemon.py:280-290 | a day without displayDate is named after 2026-01-01, a Thursday; a non-empty name is a weekday name |
| Parser.DayEntryOf | src/weather_daemon/daemon.py:269-298 | a daily entry's icon is always a table glyph |
| Parser.MapAll | src/weather_daemon/daemon.py:237-262 | conversion succeeds exactly when every item converts; the result has the same length, and entry i converts item i |
| Parser.MapAllFirstError | src/weather_daemon/daemon.py:237-298 | the first failing item's exception is the loop's exception |
| Parser.ForecastItems | src/weather_daemon/daemon.py:236-237 | the slice holds at most `cap` items |
| Parser.CurrentNowOf | src/weather_daemon/daemon.py:215-221 | the current block's reads succeed only on a dict |
| Parser.CurrentHistoryOf | src/weather_daemon/daemon.py:224-228 | without currentConditionsHistory the high and low are None |
| Parser.CurrentPrecipOf | src/weather_daemon/daemon.py:231-232 | without precipitation the chance is 0; a present percent is passed through unchanged |
| Parser.ReadCurrent | src/weather_daemon/daemon.py:215-232 | the reads succeed only on a dict current block; without one every field takes its default |
| Parser.ListSpec | src/weather_daemon/daemon.py:235-298 | the converted list is at most `cap` long; a missing section gives the empty list |
| Parser.ParseSpec | src/weather_daemon/daemon.py:203-321 | a parsed snapshot echoes the location, coordinates and time, has the fixed feed path, at most 12 hourly and 7 daily entries, and a table glyph as its icon |
| Parser.BuildList | src/weather_daemon/daemon.py:235-298 | the append loop builds exactly the capped list converted in order, or raises the first entry's error |
| Parser.ParseWeatherResponse | src/weather_daemon/daemon.py:203-321 | the imperative parse returns exactly the specification `ParseSpec` |
| ParserProperties.ParsedLists | src/weather_daemon/daemon.py:316-317 | the snapshot's lists are the converted hourly and daily lists |
| ParserProperties.ListSpecEntries | src/weather_daemon/daemon.py:236-237 | a converted list is at most `cap` long, and entry i converts item i |
| ParserProperties.ListFollowsItems | src/weather_daemon/daemon.py:236-237 | from a list of n items, the converted list has min(cap, n) entries, in order |
| ParserProperties.SnapshotShape | src/weather_daemon/daemon.py:300-321 | the constant feed path; the location, coordinates and time echoed; at most 12 hourly and 7 daily entries; only table glyphs |
| ParserProperties.HourlyFollowsForecast | src/weather_daemon/daemon.py:236-262 | the hourly list has min(12, n) entries, entry i from provider entry i |
| ParserProperties.DailyFollowsForecast | src/weather_daemon/daemon.py:266-298 | the daily list has min(7, n) entries, entry i from provider entry i |
| ParserProperties.EmptyHourEntry | src/weather_daemon/daemon.py:238-262 | an empty hourly entry is "12 AM", null temperature, fallback icon |
| ParserProperties.EmptyDayEntry | src/weather_daemon/daemon.py:269-298 | an empty daily entry is Thursday (2026-01-01), null temperatures, "" summary, fallback icon |
| ParserProperties.InvalidDateNamesNoDay | src/weather_daemon/daemon.py:286-290 | 2026-02-30, 2026-13-01, 2026-01-00 and 2025-02-29 give ""; 2024-02-29 is a Thursday |
| ParserProperties.EmptyResponseDefaults | src/weather_daemon/daemon.py:215-232 | an empty response parses: null temperatures, "" summary, precipitation 0, fallback icon, empty lists |
| ParserProperties.DegreesOk | src/weather_daemon/daemon.py:216-217 | a well-typed or missing temperature converts |
| ParserProperties.HourShapedParses | src/weather_daemon/daemon.py:238-262 | an hourly entry whose present fields are well typed converts |
| ParserProperties.DayShapedParses | src/weather_daemon/daemon.py:269-298 | a daily entry whose present fields are well typed converts |
| ParserProperties.CurrentShapedParses | src/weather_daemon/daemon.py:215-232 | a well-typed current block reads and maps its icon |
| ParserProperties.ListShapedParses | src/weather_daemon/daemon.py:236-237 | a missing or well-typed list converts |
| ParserProperties.HourlyShapedParses | src/weather_daemon/daemon.py:236-262 | a missing or well-typed hourly list converts |
| ParserProperties.DailyShapedParses | src/weather_daemon/daemon.py:266-298 | a missing or well-typed daily list converts |
| ParserProperties.ShapedResponseParses | src/weather_daemon/daemon.py:203-321 | missing fields never make the parse fail: any response whose present fields are well typed parses |
| ParserProperties.ParsesFromParts | src/weather_daemon/daemon.py:300-321 | the parse succeeds once its parts do |
| ParserProperties.FixtureCurrentTemperatures | tests/test_daemon.py:161 | 16.9→62, 15.9→61, 4.8→41 |
| ParserProperties.FixtureForecastTemperatures | tests/test_daemon.py:168-173 | 7.2→45, 8.0→46, 20.0→68, 10.0→50, 15.0→59 |
| ParserProperties.FixtureHour | src/weather_daemon/daemon.py:238-262 | a fixture-shaped hour converts to its label, temperature and icon |
| ParserProperties.FixtureDayCondition | src/weather_daemon/daemon.py:269-272 | a fixture-shaped day gives its type and summary |
| ParserProperties.FixtureDayTemperatures | src/weather_daemon/daemon.py:275-278 | a fixture-shaped day gives its converted high and low |
| ParserProperties.FixtureDayName | src/weather_daemon/daemon.py:281-290 | a fixture-shaped day is named after its date |
| ParserProperties.FixtureDay | src/weather_daemon/daemon.py:269-298 | a fixture-shaped day converts fully |
| ParserProperties.FixtureCurrentNow | tests/test_daemon.py:161-163 | the fixture's current block is 62, CLOUDY, "Cloudy" |
| ParserProperties.FixtureCurrentHistory | src/weather_daemon/daemon.py:224-228 | the fixture's high and low are 61 and 41 |
| ParserProperties.FixtureCurrentPrecip | tests/test_daemon.py:164 | the fixture's precipitation is 10 |
| ParserProperties.FixtureCurrent | tests/test_daemon.py:161-164 | the fixture's current fields |
| ParserProperties.MapAllPair | src/weather_daemon/daemon.py:237-262 | a two-item list converts item by item |
| ParserProperties.ListSpecOf | src/weather_daemon/daemon.py:236-237 | a list spec follows from its items and their conversion |
| ParserProperties.FixtureHourItems | tests/test_daemon.py:15-82 | the fixture's hourly items |
| ParserProperties.FixtureHourlyEntries | tests/test_daemon.py:166-168 | the fixture's hours are "2 PM" 45 and "3 PM" 46 |
| ParserProperties.FixtureHourly | tests/test_daemon.py:166-168 | the fixture's hourly list |
| ParserProperties.FixtureDailyEntries | tests/test_daemon.py:170-173 | the fixture's days are Wednesday 68/50 and Thursday 59/46 |
| ParserProperties.FixtureDayItems | tests/test_daemon.py:15-82 | the fixture's daily items |
| ParserProperties.FixtureDaily | tests/test_daemon.py:170-173 | the fixture's daily list |
| ParserProperties.FixtureParse | tests/test_daemon.py:150-173 | the whole parse of the test fixture |
| Fetch.LocationName | src/weather_daemon/daemon.py:61 | a non-empty name is kept; None or "" falls back to "lat,lon" |
| Fetch.LocationNameNonEmpty | src/weather_daemon/daemon.py:61 | the shown location is never empty |
| Fetch.BaseUrl | src/weather_daemon/daemon.py:68 | the stored base URL is the configured one with its trailing '/' removed: a prefix, not ending in '/', and only '/' cut off |
| Fetch.BaseUrlIgnoresTrailingSlashes | src/weather_daemon/daemon.py:68 | any number of trailing slashes gives the same base |
| Fetch.JoinShape | src/weather_daemon/daemon.py:79 | the positions of the base, the '/', the path and the rest in a URL |
| Fetch.EndpointUrl | src/weather_daemon/daemon.py:76-101 | the URL is the base, then '/', then the endpoint, then the query string, with nothing else |
| Fetch.EndpointUrlShape | src/weather_daemon/daemon.py:76-101 | every URL is the base, one '/', the endpoint, then the query |
| Fetch.QueryStartsWithKey | src/weather_daemon/daemon.py:80 | the query starts with "?key=" and the key |
| Fetch.FetchSpec | src/weather_daemon/daemon.py:110-165 | no client gives None; a result is never the empty dict and holds only the keys current, hourly and daily |
| Fetch.FetchWeather | src/weather_daemon/daemon.py:110-165 | the imperative merge returns exactly the specification `FetchSpec` |
| Fetch.FetchKeys | src/weather_daemon/daemon.py:136-154 | the result holds exactly the succeeded endpoints' keys with their bodies; a partial result is kept |
| Fetch.FetchNoneIff | src/weather_daemon/daemon.py:118-165 | None exactly when the client fails, a body does not decode, or all three fail |
| Fetch.Retried | src/weather_daemon/daemon.py:103-109 | at most 3 attempts; each earlier attempt raised a retryable exception; stopping early means a return or a non-retryable exception |
| Fetch.FetchIsNeverRetried | src/weather_daemon/daemon.py:163-165 | a call that always returns is made once |
| Fetch.RetryGivesUpAfterThree | src/weather_daemon/daemon.py:104-108 | three retryable failures re-raise the third, with no fourth attempt |
| AtomicFile.FileSystem.constructor | src/weather_daemon/daemon.py:323 | the file system holds the given files |
| AtomicFile.TempPath | src/weather_daemon/daemon.py:331-335 | the temp file is in the target's directory |
| AtomicFile.TempPathShape | src/weather_daemon/daemon.py:331-335 | the temp name is `.<name>.<token>.tmp`, beside the target and never the target |
| AtomicFile.AtomicWriteSpec | src/weather_daemon/daemon.py:323-352 | the write raises nothing exactly when no step fails and the temp name is free; only the target and the temp file may change |
| AtomicFile.WriteJsonAtomic | src/weather_daemon/daemon.py:323-352 | the step-by-step write gives the specification's files and exception; the target only ever holds the old or the new entry |
| AtomicFile.TargetOldOrNew | src/weather_daemon/daemon.py:344-352 | the target holds the new text exactly on success, else its old entry |
| AtomicFile.NoTempLeftBehind | src/weather_daemon/daemon.py:346-351 | no temp file remains unless unlinking failed too; no other path changes |
| AtomicFile.SuccessIsPlainWrite | src/weather_daemon/daemon.py:337-345 | success means no fault and the same result as writing the target in place |
| Health.HandlerState.constructor | src/weather_daemon/health.py:18-22 | class defaults: no file, no timestamps, zero counters |
| Health.HandlerState.DoGet | src/weather_daemon/health.py:24-53 | the handler answers what the routing function gives for the current attributes |
| Health.HealthCheckServer.constructor | src/weather_daemon/health.py:118-134 | sets the monitored file and resets counters and timestamps |
| Health.HealthCheckServer.RecordSuccess | src/weather_daemon/health.py:151-154 | success count +1, last success now; error fields and file kept |
| Health.HealthCheckServer.RecordError | src/weather_daemon/health.py:156-159 | error count +1, last error the message; success fields and file kept |
| Health.HealthStatus | src/weather_daemon/health.py:55-87 | the status always has "healthy" |
| Health.HealthyIffFresh | src/weather_daemon/health.py:63-72 | healthy exactly when the file is configured, exists and is younger than 7200 s |
| Health.StatusConditionalKeys | src/weather_daemon/health.py:81-85 | last_success appears exactly when set; last_error exactly when set and non-empty |
| Health.MetricsKeys | src/weather_daemon/health.py:89-108 | both counters, last_success (its time or null), last_error (its text or null) and the timestamp; output_file, its path, exactly when configured; size and mtime, with their values, exactly when it also exists |
| Health.Metrics | src/weather_daemon/health.py:89-108 | both counters always; output_file exactly when a file is configured; its size exactly when it also exists |
| Health.Route | src/weather_daemon/health.py:24-53 | /health answers 200 or 503 with a body, /metrics 200 with a body, every other path 404 |
| Health.RouteCodes | src/weather_daemon/health.py:24-53 | /health 200 exactly when fresh, else 503; /metrics 200; other paths 404 |
| Health.HealthIgnoresCounters | src/weather_daemon/health.py:72 | recording a success does not change /health's code |
| HealthCheck.ProbeOf | src/weather_daemon/healthcheck.py:39-40 | the probe finds exactly the files present, with their entries |
| HealthCheck.TruncSeconds | src/weather_daemon/healthcheck.py:50 | `int()` truncates toward zero, for both signs |
| HealthCheck.HandleHealth | src/weather_daemon/healthcheck.py:29-67 | /health answers only 200, 500 or 503 |
| HealthCheck.HandleMetrics | src/weather_daemon/healthcheck.py:69-105 | /metrics answers only 200, 500 or 503; MetricsKeys and MetricsValues state its body |
| HealthCheck.Fresh | src/weather_daemon/healthcheck.py:44 | with a positive interval, a file under two seconds old is fresh |
| HealthCheck.FreshMonotone | src/weather_daemon/healthcheck.py:44 | a younger file or a longer interval never turns a fresh file stale |
| HealthCheck.Route | src/weather_daemon/healthcheck.py:20-27 | answers only 200, 404, 500 or 503; without a daemon both endpoints 503; other paths 404 |
| HealthCheck.NoDaemonUnavailable | src/weather_daemon/healthcheck.py:20-35 | without a daemon both endpoints answer 503; other paths 404 |
| HealthCheck.MissingFileInitializing | src/weather_daemon/healthcheck.py:53-58 | a missing file gives 503 "initializing" |
| HealthCheck.HealthIffFresh | src/weather_daemon/healthcheck.py:39-52 | 200/"healthy" exactly when younger than two intervals, else 503/"stale"; truncated age; interval echoed; last_update is the file's mtime |
| HealthCheck.TwoIntervalsIsStale | src/weather_daemon/healthcheck.py:44 | an age of exactly two intervals is stale |
| HealthCheck.MetricsKeys | src/weather_daemon/healthcheck.py:79-98 | 200 with the fixed keys; last_update, size and age exactly when the file exists |
| HealthCheck.MetricsValues | src/weather_daemon/healthcheck.py:79-96 | echoes the location, coordinates, poll interval, timeout and feed path; for an existing file, its mtime, its size in UTF-8 bytes and its age in whole seconds |
| HealthCheck.SubSecondAgeIsZero | src/weather_daemon/healthcheck.py:50 | ages under a second in either direction report 0 |
| Config.WithDefaults | src/weather_daemon/config.py:15-38 | all eleven dataclass defaults: no location name, 3600, 30, INFO, text, the Google base URL and three endpoints, enabled, 127.0.0.1, 8080 |
| Config.GetEnv | src/weather_daemon/config.py:64 | a set variable's value, even when empty; otherwise the default |
| Config.Truthy | src/weather_daemon/config.py:94 | "true", "1" and "yes" enable; an enabling value has 1, 3 or 4 characters |
| Config.TruthyIgnoresCase | src/weather_daemon/config.py:94 | letter case makes no difference to whether a value enables the check |
| Config.FromEnv | src/weather_daemon/config.py:40-115 | success needs a non-empty key and coordinates; every field is the variable's value (or its parse) when set, else its default; the health check is enabled exactly for a truthy value |
| Config.FromEnvOkIff | src/weather_daemon/config.py:57-96 | from_env succeeds exactly when key and coordinates are set and non-empty and every converted value parses |
| Config.MissingApiKeyFirst | src/weather_daemon/config.py:57-62 | a missing or empty key is the first error, whatever else is set |
| Config.MissingCoordinates | src/weather_daemon/config.py:65-72 | with a key, a missing or empty coordinate errors before any parsing |
| Config.FromEnvDefaults | src/weather_daemon/config.py:64-115 | with only the three required variables, every other field takes its default |
| Config.TruthyExamples | src/weather_daemon/config.py:94 | true/1/yes in any case enable; false, 0, no, "" and on do not |
| Config.CheckUrl | src/weather_daemon/config.py:145-153 | the URL passes exactly with scheme http/https and a host; every failure is a ValueError |
| Config.Validate | src/weather_daemon/config.py:117-157 | validation only ever raises ValueError |
| Config.Guards | src/weather_daemon/config.py:117-157 | there are seven guards |
| Config.ValidatePassesIff | src/weather_daemon/config.py:117-157 | validation passes exactly when every guard passes |
| Config.ValidateFirstFailure | src/weather_daemon/config.py:117-157 | validation raises exactly the first failing guard's error |
| Config.FirstFailureEarly | src/weather_daemon/config.py:123-133 | the first-failure rule for the first four guards |
| Config.FirstFailureLate | src/weather_daemon/config.py:142-157 | the first-failure rule for the last three guards |
| Config.CoordinateBounds | src/weather_daemon/config.py:126-130 | latitude in [−90, 90] and longitude in [−180, 180], bounds included; nan rejected |
| Config.PollIntervalRule | src/weather_daemon/config.py:132-140 | under 60 rejected; 60..299 accepted with a warning; 300 and up silent |
| Config.PortRange | src/weather_daemon/config.py:156-157 | the port is accepted exactly in 1..65535 |
| Config.NotAUrlRejected | tests/test_config.py:87-98 | "not-a-url" fails with the rewrapped scheme message |
| Daemon.Cycle | src/weather_daemon/daemon.py:354-379 | the cycle fails to fetch exactly when the fetch gives None, and publishes only the parse of what was fetched |
| Daemon.AfterFetch | src/weather_daemon/daemon.py:359-379 | success is reported exactly when the snapshot is published, at the cycle's time; a cycle that does not publish leaves the feed file as it was |
| Daemon.Recorded | src/weather_daemon/health.py:151-159 | no contract of its own (it would burden the run proofs); RecordedEffect states it |
| Daemon.RecordedEffect | src/weather_daemon/health.py:151-159 | a success sets last_success and adds one to success_count; an error sets last_error and adds one to error_count; nothing else changes |
| Daemon.CycleReportsOnce | src/weather_daemon/daemon.py:354-379 | each cycle reports once: success exactly when it published, at the cycle's time; otherwise the fixed message or the exception's text |
| Daemon.PublishedIsParsedFetch | src/weather_daemon/daemon.py:357-366 | the cycle publishes exactly the parse of what it fetched, and fails to fetch exactly when the fetch gives None |
| Daemon.FeedChangesOnlyOnPublish | src/weather_daemon/daemon.py:359-374 | the feed changes only on publish, to the rendered snapshot; nothing is written after a failed fetch or parse; no other path changes |
| Daemon.PublishedFeedIsHealthy | src/weather_daemon/healthcheck.py:38-44 | right after a publish, both health endpoints see the file the daemon wrote and judge it by its age |
| Daemon.Then | src/weather_daemon/daemon.py:391-398 | one more cycle adds one outcome and one report |
| Daemon.CyclesUpTo | src/weather_daemon/daemon.py:391-398 | n cycles give n outcomes and n reports |
| Daemon.Cycles | src/weather_daemon/daemon.py:391-398 | a run over n inputs gives n outcomes and n reports |
| Daemon.CyclesReportOncePerCycle | src/weather_daemon/daemon.py:354-398 | the i-th report is a success exactly when the i-th cycle published |
| Daemon.RecordAllSnoc | src/weather_daemon/health.py:151-159 | one more report updates the attributes once more |
| Daemon.CountersCountReports | src/weather_daemon/health.py:151-159 | the counters count successes and failures; the monitored file stays |
| Daemon.PolledFrom | src/weather_daemon/daemon.py:394-401 | at most one input per tick; something is polled exactly when the next tick is a wake, starting with that wake's input |
| Daemon.StillRunningFrom | src/weather_daemon/daemon.py:394-410 | no contract of its own; StillRunningIffNoStop states it |
| Daemon.StillRunningIffNoStop | src/weather_daemon/daemon.py:394-410 | `running` ends cleared exactly when a stop() comes before any cancellation, after wakes that did not stop |
| Daemon.PolledUntilHalt | src/weather_daemon/daemon.py:394-398 | wakes without a stop each poll once, in order |
| Daemon.CyclesPrefix | src/weather_daemon/daemon.py:394-398 | earlier cycles do not depend on later inputs |
| Daemon.OneCycle | src/weather_daemon/daemon.py:391 | the first poll is one cycle |
| Daemon.CyclesSnoc | src/weather_daemon/daemon.py:394-398 | a run with one more input is the run followed by that input's cycle |
| Daemon.RunFrom | src/weather_daemon/daemon.py:394-404 | no contract of its own (it would put the loop proof over its budget); RunFromBounds and RunFromIsCycles state it |
| Daemon.RunFromBounds | src/weather_daemon/daemon.py:394-404 | the loop runs at most one cycle per tick, keeps the outcomes and reports before it, and reports once per cycle |
| Daemon.RunFromIsCycles | src/weather_daemon/daemon.py:394-404 | the loop runs exactly the cycles of the polled inputs, in order |
| Daemon.RunIsCycles | src/weather_daemon/daemon.py:381-404 | the initial poll and the loop together run the cycles of the first input and then of every polled input |
| Daemon.WeatherDaemon.constructor | src/weather_daemon/daemon.py:28-71 | stores the settings, the location name, the stripped base URL; not running; no health server |
| Daemon.WeatherDaemon.PublishesItsParse | src/weather_daemon/daemon.py:354-370 | the daemon publishes the parse at its own location and the cycle's time |
| Daemon.WeatherDaemon.PollOnce | src/weather_daemon/daemon.py:354-379 | outcome and files are the cycle specification's; the health attributes get the cycle's one report |
| Daemon.WeatherDaemon.FetchAndParse | src/weather_daemon/daemon.py:357-366 | fetch, then parse only when something was fetched |
| Daemon.WeatherDaemon.Publish | src/weather_daemon/daemon.py:366-379 | a parse error is passed on; otherwise the atomic write decides the outcome |
| Daemon.WeatherDaemon.Report | src/weather_daemon/daemon.py:361-362 | the record is reported once when there is a server, else nothing |
| Daemon.WeatherDaemon.Run | src/weather_daemon/daemon.py:381-404 | an initial poll, then one cycle per wake while running; outcomes, files and counters match the run specification; running ends cleared exactly when stop() was called |
| Daemon.WeatherDaemon.Loop | src/weather_daemon/daemon.py:394-404 | the while loop follows the run specification from the run so far |
| Daemon.WeatherDaemon.PollAgain | src/weather_daemon/daemon.py:397-398 | a poll on wake extends the run by exactly one cycle, with its outcome, files and report |
| Daemon.WeatherDaemon.Stop | src/weather_daemon/daemon.py:406-409 | `running` is cleared |
| Daemon.DistinctEndpointsDistinctUrls | src/weather_daemon/daemon.py:76-101 | different endpoints give different URLs |

## Left out

- Floats are exact decimals. Python's binary rounding before `round()` is not modelled: a value exactly on a tie in decimal may not be one in binary. `repr`'s exponent notation (for example `1e-05`) and `-0.0` are not modelled; `str()` of a float is positional.
- `json.loads` accepting `NaN`/`Infinity` in a provider body is not modelled: JSON numbers are finite decimals.
- The exact wording of Python's own exception messages is approximated. Only the kind matters to the properties, plus the messages the source writes itself.
- HTTP plumbing is not modelled: the servers, threads, `serve_forever`/`shutdown`, headers, the `send_error` pages, and the `start()`/`stop()` of both health servers.
- Concurrency between the poller and the HTTP handlers is not modelled; each request sees one state.
- `datetime.now()` is a parameter. One instant is used per cycle, although the source reads the clock separately in the parser and in `record_success`.
- `isoformat()` and `updated_display` are not rendered; `JTime` holds the instant.
- `json.dump`'s text is the parameter `render`, and `indent=2`/`ensure_ascii=False` are not modelled.
- `mkstemp` retrying on a name collision is not modelled; a taken name is reported as `FileExistsError`.
- `fsync` durability is not modelled.
- Races between `exists()` and `stat()` are not modelled. A probe either answers or raises as a whole.
- `lower()` is ASCII only.
- `Path` normalisation is not modelled; paths are a directory string plus a name.
- `load_dotenv` and the `env_file` argument: the environment map is taken after the merge.
- The tenacity wait schedule and `before_sleep` logging are not modelled. The attempt count and the retryable exception kinds are.
- `output_dir.mkdir` in the constructor: directories are not modelled.
- `health_server.stop()` inside `stop()` is not modelled.
- A `CancelledError` arriving during a poll is not modelled; only cancellation during the sleep is.
- The `except Exception` branch of the run loop is not modelled: `_poll_once` catches everything, so it cannot fire.
- Daemon.WeatherDaemon.Run: the model ends when the given ticks run out, while the source loops until stopped or cancelled.
- The parser is given to the cycle specifications as a ghost function, equal to `ParseSpec` at the daemon's location, so they do not unfold the parser.
- Config.Validate: the rate-limit warning is a flag in the result instead of a log line.
- In healthcheck's view of the daemon, the coordinates are finite decimals. The daemon the server watches comes from a validated configuration.
- Parser.ForecastItems: slicing a dict section is reported as Python 3.11's `TypeError` (unhashable slice). From Python 3.12 on, slices are hashable and the same input raises `KeyError`. Either way the cycle fails and records the error; only the exception kind and message differ.
- Units.CelsiusToFahrenheit: temperatures are exact numbers, so Python's `OverflowError` is not modelled. That error comes from `round()` of an infinite float (a JSON literal such as `1e400` decodes to infinity) or from an integer too large for a float at the division. The model returns the exact rounded value instead.
- Parser.HourEntryOf: the unused `minutes` read is dropped. It cannot raise once `displayDateTime` is known to be a dict.
- `cli.py` (argument parsing, signal handlers, event loop) and `logging_config.py` are not part of this model.
