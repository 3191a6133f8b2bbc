/** What the snapshot parser promises: the record's fixed shape, capped lists
    that keep the provider's order, defaults for whatever is missing, and no
    failure unless a present field has the wrong type. */
module ParserProperties {
  import opened PyJson
  import opened Units
  import opened Parser

  /** A successful parse holds the two converted lists. */
  lemma ParsedLists(raw: map<string, Json>, location: string, lat: PyFloat, lon: PyFloat, now: int)
    requires ParseSpec(raw, location, lat, lon, now).Ok?
    ensures ListSpec(raw, "hourly", "forecastHours", HourlyCap, HourEntryOf)
      == Ok(ParseSpec(raw, location, lat, lon, now).value.hourly)
    ensures ListSpec(raw, "daily", "forecastDays", DailyCap, DayEntryOf)
      == Ok(ParseSpec(raw, location, lat, lon, now).value.daily)
  {
    var hourly := ListSpec(raw, "hourly", "forecastHours", HourlyCap, HourEntryOf);
    var daily := ListSpec(raw, "daily", "forecastDays", DailyCap, DayEntryOf);
    assert ReadCurrent(raw).Ok? && hourly.Ok? && daily.Ok?;
  }

  /** A converted list is never longer than its cap, and each of its entries
      is the conversion of the item at the same position. */
  lemma ListSpecEntries<B>(raw: map<string, Json>, section: string, key: string, cap: nat, f: Json -> Result<B>)
    requires ListSpec(raw, section, key, cap, f).Ok?
    ensures |ListSpec(raw, section, key, cap, f).value| <= cap
    ensures var items := ForecastItems(raw, section, key, cap).value;
      && |ListSpec(raw, section, key, cap, f).value| == |items|
      && forall i | 0 <= i < |items| :: f(items[i]) == Ok(ListSpec(raw, section, key, cap, f).value[i])
  {
  }

  /** With a list of n items under section[key], the converted list has
      min(cap, n) entries, entry i converted from item i. */
  lemma {:induction false} ListFollowsItems<B>(raw: map<string, Json>, section: string, key: string, cap: nat,
                                              f: Json -> Result<B>, xs: seq<Json>)
    requires section in raw && raw[section].JObj?
    requires key in raw[section].fields && raw[section].fields[key] == JArr(xs)
    requires ListSpec(raw, section, key, cap, f).Ok?
    ensures |ListSpec(raw, section, key, cap, f).value| == (if |xs| < cap then |xs| else cap)
    ensures forall i | 0 <= i < |ListSpec(raw, section, key, cap, f).value| ::
      f(xs[i]) == Ok(ListSpec(raw, section, key, cap, f).value[i])
  {
    var items := ForecastItems(raw, section, key, cap).value;
    assert items == if |xs| <= cap then xs else xs[..cap];
    ListSpecEntries(raw, section, key, cap, f);
    assert forall i | 0 <= i < |items| :: items[i] == xs[i];
  }

  /** Every snapshot carries the constant feed path, echoes the daemon's
      location, coordinates and generation time, holds at most 12 hourly and
      7 daily entries, and only publishes icons from the glyph table. */
  lemma {:induction false} SnapshotShape(raw: map<string, Json>, location: string, lat: PyFloat, lon: PyFloat, now: int)
    requires ParseSpec(raw, location, lat, lon, now).Ok?
    ensures var s := ParseSpec(raw, location, lat, lon, now).value;
      && s.feedPath == "/weather/weather_forecast.json"
      && s.location == location && s.latitude == lat && s.longitude == lon && s.updated == now
      && |s.hourly| <= 12 && |s.daily| <= 7
      && s.now.icon in Glyphs
      && (forall i | 0 <= i < |s.hourly| :: s.hourly[i].icon in Glyphs)
      && (forall i | 0 <= i < |s.daily| :: s.daily[i].icon in Glyphs)
  {
    ParsedLists(raw, location, lat, lon, now);
    ListSpecEntries(raw, "hourly", "forecastHours", HourlyCap, HourEntryOf);
    ListSpecEntries(raw, "daily", "forecastDays", DailyCap, DayEntryOf);
  }

  /** With a forecastHours list of n entries the snapshot has min(12, n)
      hourly entries, entry i converted from the provider's entry i. */
  lemma HourlyFollowsForecast(raw: map<string, Json>, location: string, lat: PyFloat, lon: PyFloat, now: int, xs: seq<Json>)
    requires "hourly" in raw && raw["hourly"].JObj?
    requires "forecastHours" in raw["hourly"].fields && raw["hourly"].fields["forecastHours"] == JArr(xs)
    requires ParseSpec(raw, location, lat, lon, now).Ok?
    ensures var s := ParseSpec(raw, location, lat, lon, now).value;
      && |s.hourly| == (if |xs| < 12 then |xs| else 12)
      && forall i | 0 <= i < |s.hourly| :: HourEntryOf(xs[i]) == Ok(s.hourly[i])
  {
    ParsedLists(raw, location, lat, lon, now);
    ListFollowsItems(raw, "hourly", "forecastHours", HourlyCap, HourEntryOf, xs);
  }

  /** With a forecastDays list of n entries the snapshot has min(7, n) daily
      entries, entry i converted from the provider's entry i. */
  lemma DailyFollowsForecast(raw: map<string, Json>, location: string, lat: PyFloat, lon: PyFloat, now: int, xs: seq<Json>)
    requires "daily" in raw && raw["daily"].JObj?
    requires "forecastDays" in raw["daily"].fields && raw["daily"].fields["forecastDays"] == JArr(xs)
    requires ParseSpec(raw, location, lat, lon, now).Ok?
    ensures var s := ParseSpec(raw, location, lat, lon, now).value;
      && |s.daily| == (if |xs| < 7 then |xs| else 7)
      && forall i | 0 <= i < |s.daily| :: DayEntryOf(xs[i]) == Ok(s.daily[i])
  {
    ParsedLists(raw, location, lat, lon, now);
    ListFollowsItems(raw, "daily", "forecastDays", DailyCap, DayEntryOf, xs);
  }

  /** An hourly entry with nothing in it: midnight, no temperature, the
      fallback icon. */
  lemma EmptyHourEntry()
    ensures HourEntryOf(Empty) == Ok(HourEntry("12 AM", None, FallbackIcon))
  {
  }

  /** A daily entry with nothing in it is named after 2026-01-01, a
      Thursday, with no temperatures, an empty summary and the fallback
      icon. */
  lemma EmptyDayEntry()
    ensures DayEntryOf(Empty) == Ok(DayEntry("Thursday", None, None, JStr(""), FallbackIcon))
  {
    assert DayConditionOf(Empty) == Ok((JStr(""), JStr("")));
    assert DayTemperaturesOf(Empty) == Ok((None, None));
    assert DayNameAt(Empty) == Ok("Thursday") by {
      assert ValidDate(2026, 1, 1);
      WeekdayExamples();
    }
  }

  /** Dates datetime() rejects give an empty day name rather than an error:
      a 30th of February, a month 13, a day 0, and a 29th of February
      outside a leap year; the leap day of 2024 is a Thursday. */
  lemma InvalidDateNamesNoDay()
    ensures DayNameOf(JInt(2026), JInt(2), JInt(30)) == Ok("")
    ensures DayNameOf(JInt(2026), JInt(13), JInt(1)) == Ok("")
    ensures DayNameOf(JInt(2026), JInt(1), JInt(0)) == Ok("")
    ensures DayNameOf(JInt(2025), JInt(2), JInt(29)) == Ok("")
    ensures DayNameOf(JInt(2024), JInt(2), JInt(29)) == Ok("Thursday")
  {
    assert WeekdayName(2024, 2, 29) == "Thursday";
  }

  /** A response with no sections at all still parses: null temperatures,
      empty summary, 0 precipitation, fallback icon, empty lists. */
  lemma EmptyResponseDefaults(location: string, lat: PyFloat, lon: PyFloat, now: int)
    ensures ParseSpec(map[], location, lat, lon, now)
      == Ok(Snapshot(location, now, lat, lon,
           Conditions(None, JStr(""), FallbackIcon, None, None, JInt(0)),
           [], [], FeedPath))
  {
    assert ForecastItems(map[], "hourly", "forecastHours", HourlyCap) == Ok([]);
    assert ForecastItems(map[], "daily", "forecastDays", DailyCap) == Ok([]);
  }

  // ------------------------------------------- missing fields never fail

  /** key is absent from the dict obj, or bound to a value satisfying p. */
  predicate AbsentOr(obj: Json, key: string, p: Json -> bool)
    requires obj.JObj?
  {
    key !in obj.fields || p(obj.fields[key])
  }

  /** The sub-record at key, {} when absent. */
  function Sub(obj: Json, key: string): Json
    requires obj.JObj?
  {
    Lookup(obj, key, Empty)
  }

  predicate NumberOrNull(j: Json) { j.JNull? || j.JBool? || j.JInt? || j.JFloat? }
  predicate Hashable(j: Json) { !(j.JArr? || j.JObj?) }
  predicate HourValue(j: Json) { j.JInt? || j.JBool? || j.JFloat? }
  predicate CInt(j: Json) { j.JBool? || (j.JInt? && -0x8000_0000 <= j.i < 0x8000_0000) }

  /** A temperature record at key: absent, or a dict whose degrees are absent,
      null or a number. */
  predicate TemperatureShaped(obj: Json, key: string)
    requires obj.JObj?
  {
    Sub(obj, key).JObj? && AbsentOr(Sub(obj, key), "degrees", NumberOrNull)
  }

  /** Every field the hourly loop reads is either missing or of the type the
      source expects. */
  predicate HourShaped(h: Json)
  {
    && h.JObj?
    && TemperatureShaped(h, "temperature")
    && Sub(h, "weatherCondition").JObj?
    && AbsentOr(Sub(h, "weatherCondition"), "type", Hashable)
    && Sub(h, "displayDateTime").JObj?
    && AbsentOr(Sub(h, "displayDateTime"), "hours", HourValue)
  }

  /** Every field the daily loop reads is either missing or of the type the
      source expects. */
  predicate DayShaped(d: Json)
  {
    && d.JObj?
    && Sub(d, "daytimeForecast").JObj?
    && Sub(Sub(d, "daytimeForecast"), "weatherCondition").JObj?
    && AbsentOr(Sub(Sub(d, "daytimeForecast"), "weatherCondition"), "type", Hashable)
    && Sub(Sub(Sub(d, "daytimeForecast"), "weatherCondition"), "description").JObj?
    && TemperatureShaped(d, "maxTemperature")
    && TemperatureShaped(d, "minTemperature")
    && Sub(d, "displayDate").JObj?
    && AbsentOr(Sub(d, "displayDate"), "year", CInt)
    && AbsentOr(Sub(d, "displayDate"), "month", CInt)
    && AbsentOr(Sub(d, "displayDate"), "day", CInt)
  }

  /** The forecast list of a section: absent, or a list of well-shaped
      entries. */
  predicate ListShaped(raw: map<string, Json>, section: string, key: string, entry: Json -> bool)
  {
    section !in raw ||
      (raw[section].JObj? &&
        (key !in raw[section].fields ||
          (raw[section].fields[key].JArr? &&
            forall i | 0 <= i < |raw[section].fields[key].items| :: entry(raw[section].fields[key].items[i]))))
  }

  /** Every field the current-conditions block reads is either missing or of
      the type the source expects. */
  predicate CurrentShaped(raw: map<string, Json>)
  {
    var current := if "current" in raw then raw["current"] else Empty;
    && current.JObj?
    && TemperatureShaped(current, "temperature")
    && Sub(current, "weatherCondition").JObj?
    && AbsentOr(Sub(current, "weatherCondition"), "type", Hashable)
    && Sub(Sub(current, "weatherCondition"), "description").JObj?
    && Sub(current, "currentConditionsHistory").JObj?
    && TemperatureShaped(Sub(current, "currentConditionsHistory"), "maxTemperature")
    && TemperatureShaped(Sub(current, "currentConditionsHistory"), "minTemperature")
    && Sub(current, "precipitation").JObj?
    && Sub(Sub(current, "precipitation"), "probability").JObj?
  }

  predicate RawShaped(raw: map<string, Json>)
  {
    && CurrentShaped(raw)
    && ListShaped(raw, "hourly", "forecastHours", HourShaped)
    && ListShaped(raw, "daily", "forecastDays", DayShaped)
  }

  lemma DegreesOk(obj: Json, key: string)
    requires obj.JObj? && TemperatureShaped(obj, key)
    ensures DegreesAt(obj, key).Ok? && FahrenheitOf(DegreesAt(obj, key).value).Ok?
  {
  }

  lemma HourShapedParses(h: Json)
    requires HourShaped(h)
    ensures HourEntryOf(h).Ok?
  {
    DegreesOk(h, "temperature");
  }

  lemma DayShapedParses(d: Json)
    requires DayShaped(d)
    ensures DayEntryOf(d).Ok?
  {
    DegreesOk(d, "maxTemperature");
    DegreesOk(d, "minTemperature");
  }

  lemma CurrentShapedParses(raw: map<string, Json>)
    requires CurrentShaped(raw)
    ensures ReadCurrent(raw).Ok? && IconOf(ReadCurrent(raw).value.weatherType).Ok?
  {
    var current := if "current" in raw then raw["current"] else Empty;
    DegreesOk(current, "temperature");
    DegreesOk(Sub(current, "currentConditionsHistory"), "maxTemperature");
    DegreesOk(Sub(current, "currentConditionsHistory"), "minTemperature");
  }

  lemma ListShapedParses<B>(raw: map<string, Json>, section: string, key: string, cap: nat,
                            entry: Json -> bool, f: Json -> Result<B>)
    requires ListShaped(raw, section, key, entry)
    requires forall j :: entry(j) ==> f(j).Ok?
    ensures ListSpec(raw, section, key, cap, f).Ok?
  {
    var items := ForecastItems(raw, section, key, cap);
    assert items.Ok?;
    forall i | 0 <= i < |items.value|
      ensures f(items.value[i]).Ok?
    {
      var container := if section in raw then raw[section] else Empty;
      var xs := Lookup(container, key, JArr([])).items;
      assert items.value[i] == xs[i];
    }
  }

  /** The parser never fails because a field is missing: as long as each
      field that is present has the expected type, any subset of fields
      parses, the missing ones taking their defaults. */
  lemma ShapedResponseParses(raw: map<string, Json>, location: string, lat: PyFloat, lon: PyFloat, now: int)
    requires RawShaped(raw)
    ensures ParseSpec(raw, location, lat, lon, now).Ok?
  {
    CurrentShapedParses(raw);
    HourlyShapedParses(raw);
    DailyShapedParses(raw);
    ParsesFromParts(raw, location, lat, lon, now);
  }

  lemma HourlyShapedParses(raw: map<string, Json>)
    requires ListShaped(raw, "hourly", "forecastHours", HourShaped)
    ensures ListSpec(raw, "hourly", "forecastHours", HourlyCap, HourEntryOf).Ok?
  {
    forall h | HourShaped(h) ensures HourEntryOf(h).Ok? { HourShapedParses(h); }
    ListShapedParses(raw, "hourly", "forecastHours", HourlyCap, HourShaped, HourEntryOf);
  }

  lemma DailyShapedParses(raw: map<string, Json>)
    requires ListShaped(raw, "daily", "forecastDays", DayShaped)
    ensures ListSpec(raw, "daily", "forecastDays", DailyCap, DayEntryOf).Ok?
  {
    forall d | DayShaped(d) ensures DayEntryOf(d).Ok? { DayShapedParses(d); }
    ListShapedParses(raw, "daily", "forecastDays", DailyCap, DayShaped, DayEntryOf);
  }

  /** The parse succeeds once the current block, its icon and both lists
      convert. */
  lemma ParsesFromParts(raw: map<string, Json>, location: string, lat: PyFloat, lon: PyFloat, now: int)
    requires ReadCurrent(raw).Ok? && IconOf(ReadCurrent(raw).value.weatherType).Ok?
    requires ListSpec(raw, "hourly", "forecastHours", HourlyCap, HourEntryOf).Ok?
    requires ListSpec(raw, "daily", "forecastDays", DailyCap, DayEntryOf).Ok?
    ensures ParseSpec(raw, location, lat, lon, now).Ok?
  {
  }

  // ------------------------------------------------------ the test fixture

  function Degrees(mantissa: int, exp: nat): Json
  {
    JObj(map["degrees" := JFloat(Decimal(mantissa, exp)), "unit" := JStr("CELSIUS")])
  }

  function HourFixture(hours: int, weatherType: string, tenths: int): Json
  {
    JObj(map[
      "displayDateTime" := JObj(map["hours" := JInt(hours), "minutes" := JInt(0)]),
      "weatherCondition" := JObj(map["type" := JStr(weatherType)]),
      "temperature" := Degrees(tenths, 1)])
  }

  function DayFixture(day: int, weatherType: string, text: string, maxTenths: int, minTenths: int): Json
  {
    JObj(map[
      "displayDate" := JObj(map["year" := JInt(2026), "month" := JInt(1), "day" := JInt(day)]),
      "daytimeForecast" := JObj(map["weatherCondition" := JObj(map[
        "type" := JStr(weatherType), "description" := JObj(map["text" := JStr(text)])])]),
      "maxTemperature" := Degrees(maxTenths, 1),
      "minTemperature" := Degrees(minTenths, 1)])
  }

  function CurrentFixture(): Json
  {
    JObj(map[
      "currentTime" := JStr("2026-01-27T20:00:00Z"),
      "weatherCondition" := JObj(map["type" := JStr("CLOUDY"), "description" := JObj(map["text" := JStr("Cloudy")])]),
      "temperature" := Degrees(169, 1),
      "feelsLikeTemperature" := Degrees(169, 1),
      "relativeHumidity" := JInt(48),
      "precipitation" := JObj(map["probability" := JObj(map["percent" := JInt(10), "type" := JStr("RAIN")])]),
      "currentConditionsHistory" := JObj(map["maxTemperature" := Degrees(159, 1), "minTemperature" := Degrees(48, 1)])])
  }

  function HoursFixture(): seq<Json>
  {
    [HourFixture(14, "CLOUDY", 72), HourFixture(15, "PARTLY_CLOUDY", 80)]
  }

  function DaysFixture(): seq<Json>
  {
    [DayFixture(28, "SUNNY", "Sunny", 200, 100), DayFixture(29, "RAIN", "Rain", 150, 80)]
  }

  /** The three provider responses of the daemon's test suite. */
  function Fixture(): map<string, Json>
  {
    map[
      "current" := CurrentFixture(),
      "hourly" := JObj(map["forecastHours" := JArr(HoursFixture())]),
      "daily" := JObj(map["forecastDays" := JArr(DaysFixture())])]
  }

  lemma FixtureCurrentTemperatures()
    ensures CelsiusToFahrenheit(Decimal(169, 1)) == 62
    ensures CelsiusToFahrenheit(Decimal(159, 1)) == 61
    ensures CelsiusToFahrenheit(Decimal(48, 1)) == 41
  {
    assert Pow10(1) == 10;
    FahrenheitIs(Decimal(169, 1), 62);
    FahrenheitIs(Decimal(159, 1), 61);
    FahrenheitIs(Decimal(48, 1), 41);
  }

  lemma FixtureForecastTemperatures()
    ensures CelsiusToFahrenheit(Decimal(72, 1)) == 45
    ensures CelsiusToFahrenheit(Decimal(80, 1)) == 46
    ensures CelsiusToFahrenheit(Decimal(200, 1)) == 68
    ensures CelsiusToFahrenheit(Decimal(100, 1)) == 50
    ensures CelsiusToFahrenheit(Decimal(150, 1)) == 59
  {
    assert Pow10(1) == 10;
    FahrenheitIs(Decimal(72, 1), 45);
    FahrenheitIs(Decimal(80, 1), 46);
    FahrenheitIs(Decimal(200, 1), 68);
    FahrenheitIs(Decimal(100, 1), 50);
    FahrenheitIs(Decimal(150, 1), 59);
  }

  lemma FixtureHour(hours: int, weatherType: string, tenths: int)
    ensures HourEntryOf(HourFixture(hours, weatherType, tenths))
      == Ok(HourEntry(HourLabel(hours), Some(CelsiusToFahrenheit(Decimal(tenths, 1))), MapWeatherIcon(weatherType)))
  {
    var h := HourFixture(hours, weatherType, tenths);
    assert DegreesAt(h, "temperature") == Ok(JFloat(Decimal(tenths, 1)));
    assert Lookup(h, "weatherCondition", Empty) == JObj(map["type" := JStr(weatherType)]);
    assert Lookup(h, "displayDateTime", Empty) == JObj(map["hours" := JInt(hours), "minutes" := JInt(0)]);
    assert Get(JObj(map["type" := JStr(weatherType)]), "type", JStr("")) == Ok(JStr(weatherType));
    assert Get(JObj(map["hours" := JInt(hours), "minutes" := JInt(0)]), "hours", JInt(0)) == Ok(JInt(hours));
    assert FahrenheitOf(JFloat(Decimal(tenths, 1))) == Ok(Some(CelsiusToFahrenheit(Decimal(tenths, 1))));
    assert HourLabelOf(JInt(hours)) == Ok(HourLabel(hours));
    assert IconOf(JStr(weatherType)) == Ok(MapWeatherIcon(weatherType));
  }

  lemma FixtureDayCondition(day: int, weatherType: string, text: string, maxTenths: int, minTenths: int)
    ensures DayConditionOf(DayFixture(day, weatherType, text, maxTenths, minTenths)) == Ok((JStr(weatherType), JStr(text)))
  {
  }

  lemma FixtureDayTemperatures(day: int, weatherType: string, text: string, maxTenths: int, minTenths: int)
    ensures DayTemperaturesOf(DayFixture(day, weatherType, text, maxTenths, minTenths))
      == Ok((Some(CelsiusToFahrenheit(Decimal(maxTenths, 1))), Some(CelsiusToFahrenheit(Decimal(minTenths, 1)))))
  {
  }

  lemma FixtureDayName(day: int, weatherType: string, text: string, maxTenths: int, minTenths: int)
    requires 1 <= day <= 31
    ensures DayNameAt(DayFixture(day, weatherType, text, maxTenths, minTenths)) == Ok(WeekdayName(2026, 1, day))
  {
    var date := JObj(map["year" := JInt(2026), "month" := JInt(1), "day" := JInt(day)]);
    assert Lookup(DayFixture(day, weatherType, text, maxTenths, minTenths), "displayDate", Empty) == date;
    assert Lookup(date, "day", JInt(1)) == JInt(day);
    assert ValidDate(2026, 1, day);
  }

  lemma FixtureDay(day: int, weatherType: string, text: string, maxTenths: int, minTenths: int)
    requires 1 <= day <= 31
    ensures DayEntryOf(DayFixture(day, weatherType, text, maxTenths, minTenths))
      == Ok(DayEntry(WeekdayName(2026, 1, day), Some(CelsiusToFahrenheit(Decimal(maxTenths, 1))),
                     Some(CelsiusToFahrenheit(Decimal(minTenths, 1))), JStr(text), MapWeatherIcon(weatherType)))
  {
    FixtureDayCondition(day, weatherType, text, maxTenths, minTenths);
    FixtureDayTemperatures(day, weatherType, text, maxTenths, minTenths);
    FixtureDayName(day, weatherType, text, maxTenths, minTenths);
  }

  lemma FixtureCurrentNow()
    ensures CurrentNowOf(CurrentFixture()) == Ok((Some(62), JStr("CLOUDY"), JStr("Cloudy")))
  {
    FixtureCurrentTemperatures();
    assert DegreesAt(CurrentFixture(), "temperature") == Ok(JFloat(Decimal(169, 1)));
  }

  lemma FixtureCurrentHistory()
    ensures CurrentHistoryOf(CurrentFixture()) == Ok((Some(61), Some(41)))
  {
    FixtureCurrentTemperatures();
    var history := JObj(map["maxTemperature" := Degrees(159, 1), "minTemperature" := Degrees(48, 1)]);
    assert Lookup(CurrentFixture(), "currentConditionsHistory", Empty) == history;
    assert DegreesAt(history, "maxTemperature") == Ok(JFloat(Decimal(159, 1)));
    assert DegreesAt(history, "minTemperature") == Ok(JFloat(Decimal(48, 1)));
  }

  lemma FixtureCurrentPrecip()
    ensures CurrentPrecipOf(CurrentFixture()) == Ok(JInt(10))
  {
  }

  lemma FixtureCurrent()
    ensures ReadCurrent(Fixture())
      == Ok(CurrentFields(Some(62), JStr("CLOUDY"), JStr("Cloudy"), Some(61), Some(41), JInt(10)))
  {
    FixtureCurrentNow();
    FixtureCurrentHistory();
    FixtureCurrentPrecip();
    assert Fixture()["current"] == CurrentFixture();
  }

  /** MapAll over two elements, spelled out. */
  lemma MapAllPair<B>(f: Json -> Result<B>, a: Json, b: Json, x: B, y: B)
    requires f(a) == Ok(x) && f(b) == Ok(y)
    ensures MapAll(f, [a, b]) == Ok([x, y])
  {
    var r := MapAll(f, [a, b]);
    assert f([a, b][0]).Ok? && f([a, b][1]).Ok?;
    assert f([a, b][0]) == Ok(r.value[0]) && f([a, b][1]) == Ok(r.value[1]);
    assert r.value == [x, y];
  }

  /** ListSpec from the items it reads and their conversion. */
  lemma ListSpecOf<B>(raw: map<string, Json>, section: string, key: string, cap: nat, f: Json -> Result<B>,
                      items: seq<Json>, out: seq<B>)
    requires ForecastItems(raw, section, key, cap) == Ok(items)
    requires MapAll(f, items) == Ok(out)
    ensures ListSpec(raw, section, key, cap, f) == Ok(out)
  {
  }

  lemma FixtureHourItems()
    ensures ForecastItems(Fixture(), "hourly", "forecastHours", HourlyCap) == Ok(HoursFixture())
  {
  }

  lemma FixtureHourlyEntries()
    ensures HourEntryOf(HoursFixture()[0]) == Ok(HourEntry("2 PM", Some(45), "☁️"))
    ensures HourEntryOf(HoursFixture()[1]) == Ok(HourEntry("3 PM", Some(46), "⛅"))
  {
    FixtureForecastTemperatures();
    IconExamplesSky();
    assert HourLabel(14) == "2 PM" && HourLabel(15) == "3 PM";
    FixtureHour(14, "CLOUDY", 72);
    FixtureHour(15, "PARTLY_CLOUDY", 80);
  }

  lemma FixtureHourly()
    ensures ListSpec(Fixture(), "hourly", "forecastHours", HourlyCap, HourEntryOf)
      == Ok([HourEntry("2 PM", Some(45), "☁️"), HourEntry("3 PM", Some(46), "⛅")])
  {
    FixtureHourlyEntries();
    MapAllPair(HourEntryOf, HoursFixture()[0], HoursFixture()[1],
      HourEntry("2 PM", Some(45), "☁️"), HourEntry("3 PM", Some(46), "⛅"));
    FixtureHourItems();
    ListSpecOf(Fixture(), "hourly", "forecastHours", HourlyCap, HourEntryOf, HoursFixture(),
      [HourEntry("2 PM", Some(45), "☁️"), HourEntry("3 PM", Some(46), "⛅")]);
  }

  lemma FixtureDailyEntries()
    ensures DayEntryOf(DaysFixture()[0]) == Ok(DayEntry("Wednesday", Some(68), Some(50), JStr("Sunny"), "🌤️"))
    ensures DayEntryOf(DaysFixture()[1]) == Ok(DayEntry("Thursday", Some(59), Some(46), JStr("Rain"), "🌧️"))
  {
    FixtureForecastTemperatures();
    IconExamplesRain();
    IconExamplesOther();
    WeekdayExamples();
    FixtureDay(28, "SUNNY", "Sunny", 200, 100);
    FixtureDay(29, "RAIN", "Rain", 150, 80);
  }

  lemma FixtureDayItems()
    ensures ForecastItems(Fixture(), "daily", "forecastDays", DailyCap) == Ok(DaysFixture())
  {
  }

  lemma FixtureDaily()
    ensures ListSpec(Fixture(), "daily", "forecastDays", DailyCap, DayEntryOf)
      == Ok([DayEntry("Wednesday", Some(68), Some(50), JStr("Sunny"), "🌤️"),
             DayEntry("Thursday", Some(59), Some(46), JStr("Rain"), "🌧️")])
  {
    FixtureDailyEntries();
    MapAllPair(DayEntryOf, DaysFixture()[0], DaysFixture()[1],
      DayEntry("Wednesday", Some(68), Some(50), JStr("Sunny"), "🌤️"),
      DayEntry("Thursday", Some(59), Some(46), JStr("Rain"), "🌧️"));
    FixtureDayItems();
    ListSpecOf(Fixture(), "daily", "forecastDays", DailyCap, DayEntryOf, DaysFixture(),
      [DayEntry("Wednesday", Some(68), Some(50), JStr("Sunny"), "🌤️"),
       DayEntry("Thursday", Some(59), Some(46), JStr("Rain"), "🌧️")]);
  }

  /** The parse of the test suite's fixture: 62 degrees and cloudy now,
      precipitation 10, two hourly entries starting "2 PM" at 45, two daily
      entries starting Wednesday at 68/50. */
  lemma FixtureParse(location: string, lat: PyFloat, lon: PyFloat, now: int)
    ensures ParseSpec(Fixture(), location, lat, lon, now) == Ok(Snapshot(location, now, lat, lon,
      Conditions(Some(62), JStr("Cloudy"), "☁️", Some(61), Some(41), JInt(10)),
      [HourEntry("2 PM", Some(45), "☁️"), HourEntry("3 PM", Some(46), "⛅")],
      [DayEntry("Wednesday", Some(68), Some(50), JStr("Sunny"), "🌤️"),
       DayEntry("Thursday", Some(59), Some(46), JStr("Rain"), "🌧️")],
      FeedPath))
  {
    FixtureCurrent();
    FixtureHourly();
    FixtureDaily();
    assert IconOf(JStr("CLOUDY")) == Ok("☁️") by {
      IconExamplesSky();
    }
  }
}
