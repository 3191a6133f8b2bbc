/** The pure helpers of the snapshot parser in src/weather_daemon/daemon.py:
    Celsius to Fahrenheit with Python's round(), the weather-type icon table,
    the 12-hour clock label and the weekday of a proleptic Gregorian date. */
module Units {
  import opened Text
  import opened PyJson

  // ---------------------------------------------------------------- rounding

  /** r is the integer nearest to num / den, and an exact tie goes to the even
      neighbour: what Python's round() returns. */
  predicate NearestTiesEven(num: int, den: int, r: int)
    requires den > 0
  {
    && -den <= 2 * (num - r * den) <= den
    && (2 * (num - r * den) == den || 2 * (num - r * den) == -den ==> r % 2 == 0)
  }

  /** round(num / den) for an exact fraction. */
  function RoundHalfEven(num: int, den: int): (r: int)
    requires den > 0
    ensures NearestTiesEven(num, den, r)
  {
    var q := num / den;
    var m := num % den;
    assert num - q * den == m;
    assert num - (q + 1) * den == m - den;
    if 2 * m < den then q
    else if 2 * m > den then q + 1
    else if q % 2 == 0 then q
    else q + 1
  }

  /** NearestTiesEven pins down a single integer, so it specifies round()
      completely. */
  lemma NearestTiesEvenUnique(num: int, den: int, r1: int, r2: int)
    requires den > 0
    requires NearestTiesEven(num, den, r1) && NearestTiesEven(num, den, r2)
    ensures r1 == r2
  {
    if r1 <= r2 {
      NoTwoNearest(num, den, r1, r2);
    } else {
      NoTwoNearest(num, den, r2, r1);
    }
  }

  lemma NoTwoNearest(num: int, den: int, lo: int, hi: int)
    requires den > 0 && lo <= hi
    requires NearestTiesEven(num, den, lo) && NearestTiesEven(num, den, hi)
    ensures lo == hi
  {
    if lo < hi {
      var k := hi - lo;
      assert (num - lo * den) - (num - hi * den) == k * den;
      MulAtLeast(k, den);
      if k >= 2 {
        MulAtLeast(k - 1, den);
      }
    }
  }

  /** A positive multiple of den is at least den. */
  lemma MulAtLeast(k: int, den: int)
    requires k >= 1 && den > 0
    ensures k * den >= den
  {
    assert k * den == (k - 1) * den + den;
  }

  /** _celsius_to_fahrenheit: round(c * 9/5 + 32). With c = m / 10^e the exact
      value is (9m + 160 * 10^e) / (5 * 10^e). */
  function CelsiusToFahrenheit(c: Decimal): (f: int)
    ensures NearestTiesEven(9 * c.mantissa + 160 * Pow10(c.exp), 5 * Pow10(c.exp), f)
  {
    RoundHalfEven(9 * c.mantissa + 160 * Pow10(c.exp), 5 * Pow10(c.exp))
  }

  /** Any integer nearest to the exact Fahrenheit value, ties to even, is
      the converted temperature. */
  lemma FahrenheitIs(c: Decimal, f: int)
    requires NearestTiesEven(9 * c.mantissa + 160 * Pow10(c.exp), 5 * Pow10(c.exp), f)
    ensures CelsiusToFahrenheit(c) == f
  {
    NearestTiesEvenUnique(9 * c.mantissa + 160 * Pow10(c.exp), 5 * Pow10(c.exp), CelsiusToFahrenheit(c), f);
  }

  /** The conversions the test suite checks (tests/test_daemon.py:135-138)
      and the fixture's values, plus a tie (2.5 C is exactly 36.5 F) that
      goes to the even 36. */
  lemma FahrenheitExamples()
    ensures CelsiusToFahrenheit(Decimal(0, 0)) == 32
    ensures CelsiusToFahrenheit(Decimal(100, 0)) == 212
    ensures CelsiusToFahrenheit(Decimal(-40, 0)) == -40
    ensures CelsiusToFahrenheit(Decimal(20, 0)) == 68
    ensures CelsiusToFahrenheit(Decimal(169, 1)) == 62
    ensures CelsiusToFahrenheit(Decimal(72, 1)) == 45
    ensures CelsiusToFahrenheit(Decimal(78, 1)) == 46
    ensures CelsiusToFahrenheit(Decimal(25, 1)) == 36
  {
    assert Pow10(0) == 1 && Pow10(1) == 10;
    FahrenheitIs(Decimal(0, 0), 32);
    FahrenheitIs(Decimal(100, 0), 212);
    FahrenheitIs(Decimal(-40, 0), -40);
    FahrenheitIs(Decimal(20, 0), 68);
    FahrenheitIs(Decimal(169, 1), 62);
    FahrenheitIs(Decimal(72, 1), 45);
    FahrenheitIs(Decimal(78, 1), 46);
    FahrenheitIs(Decimal(25, 1), 36);
  }

  // ------------------------------------------------------------------ icons

  const FallbackIcon := "🌤️"

  /** Every glyph the daemon can publish as an icon. */
  const Glyphs: set<string> := {
    "☀️", "🌤️", "⛅", "☁️", "🌧️", "🌦️", "⛈️", "🌨️", "❄️", "🌫️", "💨"
  }

  /** The feed is written without ASCII escapes, so a glyph takes several
      bytes of the file: the fallback glyph seven, ⛅ three, and none of the
      glyphs fewer than three or more than seven. */
  lemma GlyphBytes()
    ensures Utf8Length(FallbackIcon) == 7
    ensures Utf8Length("⛅") == 3
    ensures forall g | g in Glyphs :: 3 <= Utf8Length(g) <= 7
  {
  }

  const IconTable: map<string, string> := map[
    "CLEAR" := "☀️",
    "MOSTLY_CLEAR" := "🌤️",
    "PARTLY_CLOUDY" := "⛅",
    "MOSTLY_CLOUDY" := "☁️",
    "CLOUDY" := "☁️",
    "OVERCAST" := "☁️",
    "RAIN" := "🌧️",
    "SHOWERS" := "🌦️",
    "LIGHT_RAIN" := "🌦️",
    "HEAVY_RAIN" := "🌧️",
    "THUNDERSTORM" := "⛈️",
    "SNOW" := "🌨️",
    "LIGHT_SNOW" := "🌨️",
    "HEAVY_SNOW" := "❄️",
    "SLEET" := "🌨️",
    "FREEZING_RAIN" := "🌨️",
    "FOG" := "🌫️",
    "HAZE" := "🌫️",
    "WINDY" := "💨"
  ]

  /** _map_weather_icon on a string: the table's glyph, or the fallback for a
      type the table does not list. */
  function MapWeatherIcon(weatherType: string): (icon: string)
    ensures weatherType in IconTable ==> icon == IconTable[weatherType]
    ensures weatherType !in IconTable ==> icon == FallbackIcon
    ensures icon in Glyphs
  {
    if weatherType in IconTable then IconTable[weatherType] else FallbackIcon
  }

  /** The fallback glyph is published exactly for the types the table does
      not list and for MOSTLY_CLEAR, whose table glyph is the same one. */
  lemma FallbackExactlyForUnknown(weatherType: string)
    ensures MapWeatherIcon(weatherType) == FallbackIcon
        <==> weatherType !in IconTable || weatherType == "MOSTLY_CLEAR"
  {
  }

  /** The clear and cloudy types with their glyphs. */
  lemma IconExamplesSky()
    ensures MapWeatherIcon("CLEAR") == "☀️"
    ensures MapWeatherIcon("MOSTLY_CLEAR") == "🌤️"
    ensures MapWeatherIcon("PARTLY_CLOUDY") == "⛅"
    ensures MapWeatherIcon("MOSTLY_CLOUDY") == "☁️"
    ensures MapWeatherIcon("CLOUDY") == "☁️"
    ensures MapWeatherIcon("OVERCAST") == "☁️"
  {
  }

  /** The rain types with their glyphs. */
  lemma IconExamplesRain()
    ensures MapWeatherIcon("RAIN") == "🌧️"
    ensures MapWeatherIcon("SHOWERS") == "🌦️"
    ensures MapWeatherIcon("LIGHT_RAIN") == "🌦️"
    ensures MapWeatherIcon("HEAVY_RAIN") == "🌧️"
    ensures MapWeatherIcon("THUNDERSTORM") == "⛈️"
  {
  }

  /** The snow and ice types with their glyphs. */
  lemma IconExamplesSnow()
    ensures MapWeatherIcon("SNOW") == "🌨️"
    ensures MapWeatherIcon("LIGHT_SNOW") == "🌨️"
    ensures MapWeatherIcon("HEAVY_SNOW") == "❄️"
    ensures MapWeatherIcon("SLEET") == "🌨️"
    ensures MapWeatherIcon("FREEZING_RAIN") == "🌨️"
  {
  }

  /** Fog, haze and wind with their glyphs; unlisted types, including the
      tested UNKNOWN, SUNNY and "", with the fallback. */
  lemma IconExamplesOther()
    ensures MapWeatherIcon("FOG") == "🌫️"
    ensures MapWeatherIcon("HAZE") == "🌫️"
    ensures MapWeatherIcon("WINDY") == "💨"
    ensures MapWeatherIcon("UNKNOWN") == FallbackIcon
    ensures MapWeatherIcon("SUNNY") == FallbackIcon
    ensures MapWeatherIcon("") == FallbackIcon
  {
  }

  // ------------------------------------------------------------- hour label

  /** The hour a 12-hour clock shows for hour h of the day. */
  function ClockHour(h: int): int
  {
    if h % 12 == 0 then 12 else h % 12
  }

  function Meridiem(h: int): string
  {
    if h < 12 then " AM" else " PM"
  }

  /** The 24h to 12h conversion of the hourly loop: " AM" before noon,
      " PM" from noon on, after a clock hour that is never 0. */
  function HourLabel(h: int): (shown: string)
    ensures |shown| >= 4
    ensures shown[|shown| - 3..] == Meridiem(h)
    ensures shown[0] != '0'
  {
    if h == 0 then "12 AM"
    else if h < 12 then IntToString(h) + " AM"
    else if h == 12 then "12 PM"
    else IntToString(h - 12) + " PM"
  }

  /** For an hour of the day the label is the 12-hour clock reading, then
      AM before noon and PM from noon on. */
  lemma HourLabelClock(h: int)
    requires 0 <= h < 24
    ensures HourLabel(h) == IntToString(ClockHour(h)) + Meridiem(h)
  {
    if h == 0 || h == 12 {
      assert ClockHour(h) == 12;
      assert IntToString(12) == "12" by {
        assert NatToString(12) == NatToString(1) + [DigitChar(2)];
      }
    } else if h < 12 {
      assert ClockHour(h) == h;
    } else {
      assert ClockHour(h) == h - 12;
    }
  }

  /** Within one day no two hours share a label. */
  lemma HourLabelInjective(a: int, b: int)
    requires 0 <= a < 24 && 0 <= b < 24
    requires HourLabel(a) == HourLabel(b)
    ensures a == b
  {
    SameLabelSameReading(a, b);
    ClockReadingInjective(a, b);
  }

  /** Equal labels show the same clock hour on the same side of noon. */
  lemma SameLabelSameReading(a: int, b: int)
    requires 0 <= a < 24 && 0 <= b < 24
    requires HourLabel(a) == HourLabel(b)
    ensures Meridiem(a) == Meridiem(b) && ClockHour(a) == ClockHour(b)
  {
    HourLabelClock(a);
    HourLabelClock(b);
    SplitSuffix(IntToString(ClockHour(a)), Meridiem(a), IntToString(ClockHour(b)), Meridiem(b));
    IntToStringInjective(ClockHour(a), ClockHour(b));
  }

  /** The clock hour and the side of noon determine the hour of the day. */
  lemma ClockReadingInjective(a: int, b: int)
    requires 0 <= a < 24 && 0 <= b < 24
    requires Meridiem(a) == Meridiem(b) && ClockHour(a) == ClockHour(b)
    ensures a == b
  {
    assert (a < 12) == (b < 12);
    if a < 12 {
      assert ClockHour(a) == (if a == 0 then 12 else a);
      assert ClockHour(b) == (if b == 0 then 12 else b);
    } else {
      assert ClockHour(a) == (if a == 12 then 12 else a - 12);
      assert ClockHour(b) == (if b == 12 then 12 else b - 12);
    }
  }

  /** Two concatenations with suffixes of the same length are equal only
      when their prefixes and their suffixes are. */
  lemma SplitSuffix(s: string, t: string, u: string, v: string)
    requires |t| == |v| && s + t == u + v
    ensures s == u && t == v
  {
    assert s == (s + t)[..|s|];
    assert u == (u + v)[..|u|];
    assert t == (s + t)[|s|..];
    assert v == (u + v)[|u|..];
  }

  // --------------------------------------------------------------- calendar

  predicate IsLeap(y: int)
  {
    y % 4 == 0 && (y % 100 != 0 || y % 400 == 0)
  }

  function DaysInMonth(y: int, m: int): int
    requires 1 <= m <= 12
  {
    if m == 2 then (if IsLeap(y) then 29 else 28)
    else if m == 4 || m == 6 || m == 9 || m == 11 then 30
    else 31
  }

  /** The dates datetime(year, month, day) accepts. */
  predicate ValidDate(y: int, m: int, d: int)
  {
    1 <= y <= 9999 && 1 <= m <= 12 && 1 <= d <= DaysInMonth(y, m)
  }

  /** Days in the years before y, counted from 0001-01-01. */
  function DaysBeforeYear(y: int): int
    requires y >= 1
  {
    var p := y - 1;
    p * 365 + p / 4 - p / 100 + p / 400
  }

  /** Days in the months of year y before month m. */
  function DaysBeforeMonth(y: int, m: int): int
    requires 1 <= m <= 13
  {
    if m == 1 then 0 else DaysBeforeMonth(y, m - 1) + DaysInMonth(y, m - 1)
  }

  /** The proleptic Gregorian ordinal: 0001-01-01 is day 1, and the days of
      a year follow those of the years before it. */
  function Ordinal(y: int, m: int, d: int): (n: int)
    requires 1 <= y && 1 <= m <= 12
    ensures ValidDate(y, m, d) ==>
      DaysBeforeYear(y) < n <= DaysBeforeYear(y) + (if IsLeap(y) then 366 else 365)
  {
    MonthsWithinYear(y, m);
    DaysBeforeYear(y) + DaysBeforeMonth(y, m) + d
  }

  /** A month ends no later than its year does. */
  lemma {:induction false} MonthsWithinYear(y: int, m: int)
    requires 1 <= m <= 12
    ensures 0 <= DaysBeforeMonth(y, m)
    ensures DaysBeforeMonth(y, m) + DaysInMonth(y, m) <= if IsLeap(y) then 366 else 365
    decreases 12 - m
  {
    if m < 12 {
      MonthsWithinYear(y, m + 1);
      assert DaysBeforeMonth(y, m + 1) == DaysBeforeMonth(y, m) + DaysInMonth(y, m);
    } else {
      MonthsFillYear(y);
    }
    MonthsNonNegative(y, m);
  }

  lemma {:induction false} MonthsNonNegative(y: int, m: int)
    requires 1 <= m <= 13
    ensures DaysBeforeMonth(y, m) >= 0
  {
    if m > 1 {
      MonthsNonNegative(y, m - 1);
    }
  }

  /** 0 for Monday through 6 for Sunday; 0001-01-01 was a Monday. */
  function WeekdayIndex(y: int, m: int, d: int): (w: int)
    requires 1 <= y && 1 <= m <= 12
    ensures 0 <= w < 7
  {
    (Ordinal(y, m, d) + 6) % 7
  }

  const DayNames: seq<string> :=
    ["Monday", "Tuesday", "Wednesday", "Thursday", "Friday", "Saturday", "Sunday"]

  /** strftime("%A") of a valid date: one of the seven names, Monday for the
      days whose ordinal is one more than a multiple of seven, as 0001-01-01
      was. */
  function WeekdayName(y: int, m: int, d: int): (name: string)
    requires ValidDate(y, m, d)
    ensures name in DayNames
    ensures name == "Monday" <==> Ordinal(y, m, d) % 7 == 1
  {
    DayNames[WeekdayIndex(y, m, d)]
  }

  /** The calendar day after a date. */
  function NextDate(y: int, m: int, d: int): (int, int, int)
    requires ValidDate(y, m, d)
  {
    if d < DaysInMonth(y, m) then (y, m, d + 1)
    else if m < 12 then (y, m + 1, 1)
    else (y + 1, 1, 1)
  }

  /** A year holds 366 days when it is a leap year and 365 otherwise. */
  lemma YearLength(y: int)
    requires y >= 1
    ensures DaysBeforeYear(y + 1) == DaysBeforeYear(y) + (if IsLeap(y) then 366 else 365)
  {
    assert y / 4 - (y - 1) / 4 == if y % 4 == 0 then 1 else 0;
    assert y / 100 - (y - 1) / 100 == if y % 100 == 0 then 1 else 0;
    assert y / 400 - (y - 1) / 400 == if y % 400 == 0 then 1 else 0;
  }

  /** The twelve months add up to the length of the year. */
  lemma MonthsFillYear(y: int)
    ensures DaysBeforeMonth(y, 12) + DaysInMonth(y, 12) == if IsLeap(y) then 366 else 365
  {
    var feb := DaysInMonth(y, 2);
    assert DaysBeforeMonth(y, 2) == 31;
    assert DaysBeforeMonth(y, 3) == 31 + feb;
    assert DaysBeforeMonth(y, 4) == 62 + feb;
    assert DaysBeforeMonth(y, 5) == 92 + feb;
    assert DaysBeforeMonth(y, 6) == 123 + feb;
    assert DaysBeforeMonth(y, 7) == 153 + feb;
    assert DaysBeforeMonth(y, 8) == 184 + feb;
    assert DaysBeforeMonth(y, 9) == 215 + feb;
    assert DaysBeforeMonth(y, 10) == 245 + feb;
    assert DaysBeforeMonth(y, 11) == 276 + feb;
    assert DaysBeforeMonth(y, 12) == 306 + feb;
  }

  /** The day after a valid date (other than the last one datetime accepts)
      is valid and has the next ordinal. */
  lemma NextDateOrdinal(y: int, m: int, d: int)
    requires ValidDate(y, m, d) && !(y == 9999 && m == 12 && d == 31)
    ensures ValidDate(NextDate(y, m, d).0, NextDate(y, m, d).1, NextDate(y, m, d).2)
    ensures Ordinal(NextDate(y, m, d).0, NextDate(y, m, d).1, NextDate(y, m, d).2) == Ordinal(y, m, d) + 1
  {
    if d < DaysInMonth(y, m) {
    } else if m < 12 {
      assert DaysBeforeMonth(y, m + 1) == DaysBeforeMonth(y, m) + DaysInMonth(y, m);
    } else {
      YearLength(y);
      MonthsFillYear(y);
    }
  }

  /** Consecutive dates have consecutive ordinals, so the weekday advances by
      one each day: the weekday names are those of the Gregorian calendar
      extended backwards. */
  lemma NextDateWeekday(y: int, m: int, d: int)
    requires ValidDate(y, m, d) && !(y == 9999 && m == 12 && d == 31)
    ensures var n := NextDate(y, m, d);
      && ValidDate(n.0, n.1, n.2)
      && WeekdayIndex(n.0, n.1, n.2) == (WeekdayIndex(y, m, d) + 1) % 7
  {
    NextDateOrdinal(y, m, d);
  }

  lemma WeekdayExamples()
    ensures WeekdayName(1, 1, 1) == "Monday"
    ensures WeekdayName(2026, 1, 1) == "Thursday"
    ensures WeekdayName(2026, 1, 28) == "Wednesday"
    ensures WeekdayName(2026, 1, 29) == "Thursday"
  {
  }
}
