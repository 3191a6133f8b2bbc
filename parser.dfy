/** _parse_weather_response of src/weather_daemon/daemon.py: raw provider JSON
    (the dict _fetch_weather returns) to the published snapshot. Missing
    fields fall back to defaults; a field of the wrong Python type makes the
    Python code raise, which the model returns as Err. */
module Parser {
  import opened Text
  import opened PyJson
  import opened Units

  /** Path the frontend fetches the feed from, echoed in every snapshot. */
  const FeedPath := "/weather/weather_forecast.json"
  const HourlyCap := 12
  const DailyCap := 7

  datatype HourEntry = HourEntry(time: string, temp: Option<int>, icon: string)

  datatype DayEntry =
    DayEntry(day: string, high: Option<int>, low: Option<int>, summary: Json, icon: string)

  /** The "now" record; summary and precipChance are passed through as the
      provider sent them. */
  datatype Conditions = Conditions(
    temp: Option<int>, summary: Json, icon: string,
    high: Option<int>, low: Option<int>, precipChance: Json)

  /** The published record. updated is the generation time in microseconds;
      its two renderings ("updated", "updated_display") derive from it. */
  datatype Snapshot = Snapshot(
    location: string, updated: int, latitude: PyFloat, longitude: PyFloat,
    now: Conditions, hourly: seq<HourEntry>, daily: seq<DayEntry>, feedPath: string)

  // ------------------------------------------------------- field conversions

  /** obj.get(key, {}).get("degrees"): a missing temperature reads as None. */
  function DegreesAt(obj: Json, key: string): (r: Result<Json>)
    ensures r.Ok? ==> obj.JObj?
    ensures obj.JObj? && key !in obj.fields ==> r == Ok(JNull)
  {
    var t :- Get(obj, key, Empty);
    Get(t, "degrees", JNull)
  }

  /** The conditional conversion `_celsius_to_fahrenheit(c) if c is not None
      else None`. bool is an int subclass, so True converts as 1. */
  function FahrenheitOf(v: Json): (r: Result<Option<int>>)
    ensures r == Ok(None) <==> v.JNull?
    ensures r.Err? <==> !(v.JNull? || v.JBool? || v.JInt? || v.JFloat?)
  {
    match v
    case JNull => Ok(None)
    case JBool(b) => Ok(Some(CelsiusToFahrenheit(Decimal(if b then 1 else 0, 0))))
    case JInt(i) => Ok(Some(CelsiusToFahrenheit(Decimal(i, 0))))
    case JFloat(d) => Ok(Some(CelsiusToFahrenheit(d)))
    case JStr(_) => Err(TypeError("unsupported operand type(s) for /: 'str' and 'int'"))
    case JArr(_) => Err(TypeError("unsupported operand type(s) for /: 'list' and 'int'"))
    case _ => Err(TypeError("unsupported operand type(s) for *: '" + TypeName(v) + "' and 'int'"))
  }

  /** icon_map.get(weather_type, fallback) on any value: a list or dict key is
      unhashable and raises; any other non-string misses the table. */
  function IconOf(weatherType: Json): (r: Result<string>)
    ensures r.Ok? <==> !(weatherType.JArr? || weatherType.JObj?)
    ensures r.Ok? ==> r.value in Glyphs
    ensures r.Ok? && !weatherType.JStr? ==> r.value == FallbackIcon
  {
    match weatherType
    case JStr(s) => Ok(MapWeatherIcon(s))
    case JArr(_) => Err(TypeError("unhashable type: 'list'"))
    case JObj(_) => Err(TypeError("unhashable type: 'dict'"))
    case _ => Ok(FallbackIcon)
  }

  /** The 12-hour label for the "hours" value. False == 0 and True < 12 hold
      in Python; a float is shown with its repr; other types fail the "<". */
  function HourLabelOf(h: Json): (r: Result<string>)
    ensures h.JInt? ==> r == Ok(HourLabel(h.i))
    ensures r.Err? <==> !(h.JInt? || h.JBool? || h.JFloat?)
  {
    match h
    case JInt(i) => Ok(HourLabel(i))
    case JBool(b) => Ok(if b then "True AM" else "12 AM")
    case JFloat(d) =>
      var twelve := 12 * Pow10(d.exp);
      if d.mantissa == 0 then Ok("12 AM")
      else if d.mantissa < twelve then Ok(DecimalRepr(d) + " AM")
      else if d.mantissa == twelve then Ok("12 PM")
      else Ok(DecimalRepr(Decimal(d.mantissa - twelve, d.exp)) + " PM")
    case _ => Err(TypeError("'<' not supported between instances of '" + TypeName(h) + "' and 'int'"))
  }

  /** An argument datetime() reads as a C int: an int (or bool) that fits,
      else TypeError or OverflowError, neither of which the parser catches. */
  function CIntArg(v: Json): (r: Result<int>)
    ensures r.Ok? ==> -0x8000_0000 <= r.value < 0x8000_0000
    ensures v.JInt? && -0x8000_0000 <= v.i < 0x8000_0000 ==> r == Ok(v.i)
  {
    match v
    case JInt(i) =>
      if i >= 0x8000_0000 then Err(PyException("OverflowError", "signed integer is greater than maximum"))
      else if i < -0x8000_0000 then Err(PyException("OverflowError", "signed integer is less than minimum"))
      else Ok(i)
    case JBool(b) => Ok(if b then 1 else 0)
    case _ => Err(TypeError("'" + TypeName(v) + "' object cannot be interpreted as an integer"))
  }

  /** datetime(year, month, day).strftime("%A"), or "" when datetime rejects
      the date with ValueError. */
  function DayNameOf(year: Json, month: Json, day: Json): (r: Result<string>)
    ensures r.Ok? <==> CIntArg(year).Ok? && CIntArg(month).Ok? && CIntArg(day).Ok?
    ensures year.JInt? && month.JInt? && day.JInt? && ValidDate(year.i, month.i, day.i)
      ==> r == Ok(WeekdayName(year.i, month.i, day.i))
    ensures year.JInt? && month.JInt? && day.JInt?
      && -0x8000_0000 <= year.i < 0x8000_0000 && -0x8000_0000 <= month.i < 0x8000_0000
      && -0x8000_0000 <= day.i < 0x8000_0000
      && !ValidDate(year.i, month.i, day.i)
      ==> r == Ok("")
    ensures r.Ok? && r.value != "" ==> r.value in DayNames
  {
    var y :- CIntArg(year);
    var m :- CIntArg(month);
    var d :- CIntArg(day);
    Ok(if ValidDate(y, m, d) then WeekdayName(y, m, d) else "")
  }

  // --------------------------------------------------------------- entries

  /** One iteration of the hourly loop, statement by statement. */
  function HourEntryOf(hour: Json): (r: Result<HourEntry>)
    ensures r.Ok? ==> r.value.icon in Glyphs
  {
    // Once a .get on a value has succeeded, further .get calls on it cannot
    // raise, so they are plain lookups (the unused "minutes" one is dropped).
    var tempC :- DegreesAt(hour, "temperature");
    var temp :- FahrenheitOf(tempC);
    var condition := Lookup(hour, "weatherCondition", Empty);
    var weatherType :- Get(condition, "type", JStr(""));
    var display := Lookup(hour, "displayDateTime", Empty);
    var hours :- Get(display, "hours", JInt(0));
    var time :- HourLabelOf(hours);
    var icon :- IconOf(weatherType);
    Ok(HourEntry(time, temp, icon))
  }

  /** The daily loop's condition reads: the weather type and the summary
      text, from day["daytimeForecast"]["weatherCondition"]. */
  function DayConditionOf(day: Json): (r: Result<(Json, Json)>)
    ensures r.Ok? ==> day.JObj?
  {
    var daytime :- Get(day, "daytimeForecast", Empty);
    var condition :- Get(daytime, "weatherCondition", Empty);
    var weatherType :- Get(condition, "type", JStr(""));
    var description := Lookup(condition, "description", Empty);
    var summary :- Get(description, "text", JStr(""));
    Ok((weatherType, summary))
  }

  /** The daily loop's high and low, both read before either is converted. */
  function DayTemperaturesOf(day: Json): (r: Result<(Option<int>, Option<int>)>)
    ensures r.Ok? ==> day.JObj?
    ensures day.JObj? && "maxTemperature" !in day.fields && "minTemperature" !in day.fields
      ==> r == Ok((None, None))
  {
    var maxC :- DegreesAt(day, "maxTemperature");
    var minC :- DegreesAt(day, "minTemperature");
    var high :- FahrenheitOf(maxC);
    var low :- FahrenheitOf(minC);
    Ok((high, low))
  }

  /** The daily loop's weekday, from day["displayDate"]; 2026-01-01 when the
      date is missing. */
  function DayNameAt(day: Json): (r: Result<string>)
    requires day.JObj?
    ensures "displayDate" !in day.fields ==> r == Ok("Thursday")
    ensures r.Ok? && r.value != "" ==> r.value in DayNames
  {
    WeekdayExamples();
    var date := Lookup(day, "displayDate", Empty);
    var year :- Get(date, "year", JInt(2026));
    var month := Lookup(date, "month", JInt(1));
    var dayNum := Lookup(date, "day", JInt(1));
    DayNameOf(year, month, dayNum)
  }

  /** One iteration of the daily loop, statement by statement. */
  function DayEntryOf(day: Json): (r: Result<DayEntry>)
    ensures r.Ok? ==> r.value.icon in Glyphs
  {
    var cond :- DayConditionOf(day);
    var temps :- DayTemperaturesOf(day);
    var name :- DayNameAt(day);
    var icon :- IconOf(cond.0);
    Ok(DayEntry(name, temps.0, temps.1, cond.1, icon))
  }

  /** Applies f to each element in order; the first failure is the result. */
  function MapAll<A, B>(f: A -> Result<B>, xs: seq<A>): (r: Result<seq<B>>)
    ensures r.Ok? <==> forall i | 0 <= i < |xs| :: f(xs[i]).Ok?
    ensures r.Ok? ==> |r.value| == |xs|
    ensures r.Ok? ==> forall i | 0 <= i < |xs| :: f(xs[i]) == Ok(r.value[i])
  {
    if xs == [] then Ok([])
    else
      var init :- MapAll(f, xs[..|xs| - 1]);
      assert forall i | 0 <= i < |xs| - 1 :: xs[..|xs| - 1][i] == xs[i];
      var last :- f(xs[|xs| - 1]);
      Ok(init + [last])
  }

  /** When every element before i converts and element i fails, the whole
      conversion fails with element i's exception. */
  lemma {:induction false} MapAllFirstError<A, B>(f: A -> Result<B>, xs: seq<A>, i: nat)
    requires i < |xs|
    requires forall j | 0 <= j < i :: f(xs[j]).Ok?
    requires f(xs[i]).Err?
    ensures MapAll(f, xs) == Err(f(xs[i]).error)
    decreases |xs|
  {
    var init := xs[..|xs| - 1];
    if i < |xs| - 1 {
      assert init[i] == xs[i];
      assert forall j | 0 <= j < i :: init[j] == xs[j];
      MapAllFirstError(f, init, i);
    } else {
      assert forall j | 0 <= j < |init| :: init[j] == xs[j];
    }
  }

  /** raw_data.get(section, {}).get(key, [])[:cap]. Slicing a string yields
      its characters (each of which then fails the entry's .get); None, a
      number or a dict cannot be sliced this way. */
  function ForecastItems(raw: map<string, Json>, section: string, key: string, cap: nat): (r: Result<seq<Json>>)
    ensures r.Ok? ==> |r.value| <= cap
  {
    var container := if section in raw then raw[section] else Empty;
    var data :- Get(container, key, JArr([]));
    match data
    case JArr(xs) => Ok(if |xs| <= cap then xs else xs[..cap])
    case JStr(s) =>
      var n := if |s| <= cap then |s| else cap;
      Ok(seq(n, k requires 0 <= k < n => JStr([s[k]])))
    case JObj(_) => Err(TypeError("unhashable type: 'slice'"))
    case _ => Err(TypeError("'" + TypeName(data) + "' object is not subscriptable"))
  }

  /** The current-conditions fields, read in the order the source reads them;
      the icon is mapped only when the result record is built. */
  datatype CurrentFields = CurrentFields(
    temp: Option<int>, weatherType: Json, summary: Json,
    high: Option<int>, low: Option<int>, precipChance: Json)

  /** The current temperature, weather type and summary text. */
  function CurrentNowOf(current: Json): (r: Result<(Option<int>, Json, Json)>)
    ensures r.Ok? ==> current.JObj?
  {
    var tempC :- DegreesAt(current, "temperature");
    var temp :- FahrenheitOf(tempC);
    var condition := Lookup(current, "weatherCondition", Empty);
    var weatherType :- Get(condition, "type", JStr(""));
    var description := Lookup(condition, "description", Empty);
    var summary :- Get(description, "text", JStr(""));
    Ok((temp, weatherType, summary))
  }

  /** Today's high and low from currentConditionsHistory. */
  function CurrentHistoryOf(current: Json): (r: Result<(Option<int>, Option<int>)>)
    requires current.JObj?
    ensures "currentConditionsHistory" !in current.fields ==> r == Ok((None, None))
  {
    var history := Lookup(current, "currentConditionsHistory", Empty);
    var highC :- DegreesAt(history, "maxTemperature");
    var lowC :- DegreesAt(history, "minTemperature");
    var high :- FahrenheitOf(highC);
    var low :- FahrenheitOf(lowC);
    Ok((high, low))
  }

  /** precipitation.probability.percent, 0 when missing. */
  function CurrentPrecipOf(current: Json): (r: Result<Json>)
    requires current.JObj?
    ensures "precipitation" !in current.fields ==> r == Ok(JInt(0))
    ensures var precip := Lookup(current, "precipitation", Empty);
      precip.JObj? && "probability" in precip.fields && precip.fields["probability"].JObj?
      && "percent" in precip.fields["probability"].fields
      ==> r == Ok(precip.fields["probability"].fields["percent"])
  {
    var precip := Lookup(current, "precipitation", Empty);
    var probability :- Get(precip, "probability", Empty);
    Get(probability, "percent", JInt(0))
  }

  /** The current block's reads; without a "current" block every field
      takes its default. */
  function ReadCurrent(raw: map<string, Json>): (r: Result<CurrentFields>)
    ensures r.Ok? && "current" in raw ==> raw["current"].JObj?
    ensures "current" !in raw ==> r == Ok(CurrentFields(None, JStr(""), JStr(""), None, None, JInt(0)))
  {
    var current := if "current" in raw then raw["current"] else Empty;
    var now :- CurrentNowOf(current);
    var history :- CurrentHistoryOf(current);
    var percent :- CurrentPrecipOf(current);
    Ok(CurrentFields(now.0, now.1, now.2, history.0, history.1, percent))
  }

  /** The hourly (or daily) list: the capped forecast entries converted in
      order. */
  function ListSpec<B>(raw: map<string, Json>, section: string, key: string, cap: nat, f: Json -> Result<B>)
    : (r: Result<seq<B>>)
    ensures r.Ok? ==> |r.value| <= cap
    ensures section !in raw ==> r == Ok([])
  {
    var items :- ForecastItems(raw, section, key, cap);
    MapAll(f, items)
  }

  /** The whole transformation as one expression: the specification the
      imperative ParseWeatherResponse is proved against. */
  function ParseSpec(raw: map<string, Json>, location: string, latitude: PyFloat, longitude: PyFloat, now: int)
    : (r: Result<Snapshot>)
    ensures r.Ok? ==> (r.value.location == location && r.value.updated == now
                       && r.value.latitude == latitude && r.value.longitude == longitude
                       && r.value.feedPath == FeedPath)
    ensures r.Ok? ==> |r.value.hourly| <= HourlyCap && |r.value.daily| <= DailyCap
    ensures r.Ok? ==> r.value.now.icon in Glyphs
  {
    var cur :- ReadCurrent(raw);
    var hourly :- ListSpec(raw, "hourly", "forecastHours", HourlyCap, HourEntryOf);
    var daily :- ListSpec(raw, "daily", "forecastDays", DailyCap, DayEntryOf);
    var icon :- IconOf(cur.weatherType);
    Ok(Snapshot(location, now, latitude, longitude,
      Conditions(cur.temp, cur.summary, icon, cur.high, cur.low, cur.precipChance),
      hourly, daily, FeedPath))
  }

  /** The `for ... in data[:cap]: ... append(...)` loop of the parser. */
  method BuildList<B>(raw: map<string, Json>, section: string, key: string, cap: nat, f: Json -> Result<B>)
    returns (r: Result<seq<B>>)
    ensures r == ListSpec(raw, section, key, cap, f)
  {
    var items :- ForecastItems(raw, section, key, cap);
    var built: seq<B> := [];
    var i := 0;
    while i < |items|
      invariant 0 <= i <= |items|
      invariant MapAll(f, items[..i]) == Ok(built)
    {
      var entry := f(items[i]);
      if entry.Err? {
        MapAllFirstError(f, items, i);
        return Err(entry.error);
      }
      assert items[..i + 1][..i] == items[..i];
      built := built + [entry.value];
      i := i + 1;
    }
    assert items[..i] == items;
    r := Ok(built);
  }

  /** _parse_weather_response. */
  method ParseWeatherResponse(raw: map<string, Json>, location: string, latitude: PyFloat, longitude: PyFloat, now: int)
    returns (r: Result<Snapshot>)
    ensures r == ParseSpec(raw, location, latitude, longitude, now)
  {
    var cur :- ReadCurrent(raw);
    var hourly :- BuildList(raw, "hourly", "forecastHours", HourlyCap, HourEntryOf);
    var daily :- BuildList(raw, "daily", "forecastDays", DailyCap, DayEntryOf);
    var icon :- IconOf(cur.weatherType);
    r := Ok(Snapshot(location, now, latitude, longitude,
      Conditions(cur.temp, cur.summary, icon, cur.high, cur.low, cur.precipChance),
      hourly, daily, FeedPath));
  }
}
