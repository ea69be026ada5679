/**
 * The 7-day forecast view: the parallel `daily` arrays reshaped into one
 * entry per day, sunrise/sunset rendered on a 12-hour clock, the day label,
 * and the order of the render guards.
 *
 * Date arithmetic is not modelled: for each ISO date the caller supplies the
 * whole-day difference from today, the weekday and the short date text that
 * `new Date`/`toLocaleDateString` would produce.
 */
module DailyForecast {
  import opened Wrappers
  import opened Text
  import opened WeatherData
  import DailyForecastCard
  import LocationForecast

  datatype Weekday = Sunday | Monday | Tuesday | Wednesday | Thursday | Friday | Saturday {
    /** The long English name `toLocaleDateString("en-US", { weekday: "long" })` gives. */
    function Name(): string {
      match this
      case Sunday => "Sunday"
      case Monday => "Monday"
      case Tuesday => "Tuesday"
      case Wednesday => "Wednesday"
      case Thursday => "Thursday"
      case Friday => "Friday"
      case Saturday => "Saturday"
    }
  }

  /** What the date handling yields for one ISO date. */
  datatype DateInfo = DateInfo(dayDiff: int, weekday: Weekday, formattedDate: string)

  /** The day label: "Today", "Tomorrow", else the weekday's name. */
  function DayLabel(dayDiff: int, weekday: Weekday): (day: string)
    ensures day == "Today" <==> dayDiff == 0
    ensures day == "Tomorrow" <==> dayDiff == 1
    ensures dayDiff != 0 && dayDiff != 1 ==> day == weekday.Name()
  {
    if dayDiff == 0 then "Today" else if dayDiff == 1 then "Tomorrow" else weekday.Name()
  }

  // ----------------------------------------------------------- parseSunTime

  /** The hour as a 12-hour clock face shows it: midnight and noon read 12. */
  function Hour12(hours: nat): (h: nat)
    ensures 1 <= h <= 12
    ensures h % 12 == hours % 12
  {
    if hours % 12 == 0 then 12 else hours % 12
  }

  /** Morning or afternoon: "PM" from noon on, "AM" before. */
  function Period(hours: nat): (p: string)
    ensures p == "AM" || p == "PM"
    ensures p == "PM" <==> hours >= 12
  {
    if hours >= 12 then "PM" else "AM"
  }

  /** The minutes in decimal, padded with zeros in front to at least two digits. */
  function MinutesText(minutes: nat): (text: string)
    ensures AllDigits(text) && DigitsValue(text) == minutes
    ensures |text| >= 2
    ensures minutes < 100 ==> |text| == 2
  {
    var digits := NatToString(minutes);
    var text := PadStart(digits, 2, '0');
    LeadingZeros(text[..|text| - |digits|], digits);
    assert text == text[..|text| - |digits|] + digits;
    assert minutes < 100 ==> |digits| <= 2 by {
      if minutes < 100 && |digits| > 2 {
        ShortDigits(digits);
      }
    }
    text
  }

  /** A digit string of value below 100 with no leading zero has at most two digits. */
  lemma ShortDigits(digits: string)
    requires AllDigits(digits) && |digits| > 2 && digits[0] != '0'
    ensures DigitsValue(digits) >= 100
  {
    var n := |digits|;
    if n == 3 {
      var p := digits[..2];
      assert p[..1] == digits[..1];
      assert DigitsValue(digits[..1]) == digits[0] as int - '0' as int;
    } else {
      ShortDigits(digits[..n - 1]);
    }
  }

  /** Twelve prints as "12", so a clock text for twelve o'clock starts "12:". */
  lemma TwelveText()
    ensures NatToString(12) == "12"
    ensures NatToString(12) + ":" == "12:"
  {
    assert NatToString(1) == "1";
  }

  /** What `parseSunTime` yields: text, or an exception from `minutes.toString()`. */
  datatype SunTime = Shown(text: string) | Throws

  /**
   * The clock text for the two fields of "HH:MM"; NaN fields are None. A NaN
   * hour is not at or after noon and its clock-face hour falls back to 12, so
   * it reads "12" and "AM"; NaN minutes print as "NaN".
   */
  function ClockText(hours: Option<nat>, minutes: Option<nat>): (t: string)
    ensures |t| >= 6 && t[|t| - 3] == ' '
    ensures hours.Some? ==> (t[|t| - 2..] == "PM" <==> hours.value >= 12)
    ensures hours.Some? ==> (t[|t| - 2..] == "AM" <==> hours.value < 12)
    ensures hours.None? ==> t[|t| - 2..] == "AM"
    ensures minutes.None? ==> t[|t| - 6..|t| - 3] == "NaN"
  {
    var h := if hours.Some? then Hour12(hours.value) else 12;
    var period := if hours.Some? then Period(hours.value) else "AM";
    var m := if minutes.Some? then MinutesText(minutes.value) else "NaN";
    var hText := NatToString(h);
    ClockLayout(hText, m, period);
    hText + ":" + m + " " + period
  }

  /** A NaN hour reads as twelve o'clock in the morning. */
  lemma NaNHourReadsTwelve(minutes: Option<nat>)
    ensures ClockText(None, minutes)[..3] == "12:"
  {
    var m := if minutes.Some? then MinutesText(minutes.value) else "NaN";
    var t := ClockText(None, minutes);
    TwelveText();
    assert t == NatToString(12) + ":" + m + " " + "AM";
    ClockLayout(NatToString(12), m, "AM");
    assert t[..3] == NatToString(12) + ":";
  }

  /** Where the hour, the minutes and the period sit in "h:m p". */
  lemma ClockLayout(hText: string, m: string, period: string)
    requires |period| == 2
    ensures var t := hText + ":" + m + " " + period;
      && |t| == |hText| + |m| + 4
      && t[..|hText| + 1] == hText + ":"
      && t[|t| - 3 - |m|..|t| - 3] == m
      && t[|t| - 3] == ' '
      && t[|t| - 2..] == period
  {
  }

  /**
   * `parseSunTime`: "N/A" for a missing, null or empty string and for one with
   * nothing after its first "T"; otherwise the part after the "T" is split at
   * ":" into hours and minutes and shown on a 12-hour clock. Without a ":" the
   * minutes are `undefined` and the call throws.
   */
  function ParseSunTime(isoString: Reading<string>): (r: SunTime)
    ensures !isoString.Value? || isoString.value == "" ==> r == Shown(NotAvailable)
    ensures isoString.Value? && 'T' !in isoString.value ==> r == Shown(NotAvailable)
    ensures isoString.Value? && 'T' in isoString.value && Split(isoString.value, 'T')[1] == "" ==> r == Shown(NotAvailable)
  {
    if !isoString.Value? || isoString.value == "" then Shown(NotAvailable)
    else
      var parts := Split(isoString.value, 'T');
      if 'T' !in isoString.value then
        SplitNoSeparator(isoString.value, 'T');
        Shown(NotAvailable)
      else if |parts| < 2 || parts[1] == "" then Shown(NotAvailable)
      else
        var fields := Split(parts[1], ':');
        if |fields| < 2 then Throws
        else Shown(ClockText(NumberOf(fields[0]), NumberOf(fields[1])))
  }

  /** "<date>T" followed by nothing, or by another "T", reads "N/A". */
  lemma NothingAfterTime(date: string, rest: string)
    requires 'T' !in date
    requires rest == "" || rest[0] == 'T'
    ensures ParseSunTime(Value(date + "T" + rest)) == Shown(NotAvailable)
  {
    SplitFirstField(date, 'T', rest);
    assert date + "T" + rest == date + ['T'] + rest;
  }

  /**
   * For a well-formed "<date>T<hh>:<mm>" the result is the 12-hour clock
   * text: hour 1..12, minutes zero-padded, "PM" exactly from hour 12 on. An
   * empty hour field is `Number("")`, which is 0.
   */
  lemma ParseSunTimeClock(date: string, hh: string, mm: string)
    requires 'T' !in date && AllDigits(hh) && AllDigits(mm)
    ensures var h := DigitsValue(hh);
      ParseSunTime(Value(date + "T" + hh + ":" + mm))
        == Shown(NatToString(Hour12(h)) + ":" + MinutesText(DigitsValue(mm)) + " " + Period(h))
  {
    assert ':' !in hh && 'T' !in hh by {
      forall k | 0 <= k < |hh| ensures hh[k] != ':' && hh[k] != 'T' { assert IsDigit(hh[k]); }
    }
    assert ':' !in mm && 'T' !in mm by {
      forall k | 0 <= k < |mm| ensures mm[k] != ':' && mm[k] != 'T' { assert IsDigit(mm[k]); }
    }
    var time := hh + ":" + mm;
    assert 'T' !in time;
    var iso := date + "T" + hh + ":" + mm;
    assert iso == date + ['T'] + time;
    assert iso[|date|] == 'T';
    SplitTwoFields(date, time, 'T');
    SplitTwoFields(hh, mm, ':');
  }

  /** A time without ":" leaves the minutes `undefined`, and `minutes.toString()` throws. */
  lemma TimeWithoutColonThrows(date: string, time: string)
    requires 'T' !in date && 'T' !in time && ':' !in time && time != ""
    ensures ParseSunTime(Value(date + "T" + time)) == Throws
  {
    var iso := date + "T" + time;
    assert iso == date + ['T'] + time;
    assert iso[|date|] == 'T';
    SplitTwoFields(date, time, 'T');
    SplitNoSeparator(time, ':');
  }

  // ---------------------------------------------------------- forecastDays

  /** `array[i]` of a parallel array: missing past its end or where it holds `null`. */
  function ElementAt<T>(s: seq<Reading<T>>, i: nat): (r: Reading<T>)
    ensures i < |s| ==> r == s[i]
    ensures i >= |s| ==> r.Undefined?
  {
    if i < |s| then s[i] else Undefined
  }

  /** One card's worth of data. */
  datatype DayEntry = DayEntry(
    date: string,
    day: string,
    formattedDate: string,
    weatherCode: Reading<int>,
    maxTemp: Reading<real>,
    minTemp: Reading<real>,
    precipitationProb: real,
    sunrise: SunTime,
    sunset: SunTime,
    isToday: bool)

  /** The entry for day `i` (the body of the `map` callback). */
  function Entry(daily: Daily, i: nat, dateInfo: string -> DateInfo): DayEntry
    requires i < |daily.time|
  {
    var info := dateInfo(daily.time[i]);
    DayEntry(
      daily.time[i],
      DayLabel(info.dayDiff, info.weekday),
      info.formattedDate,
      ElementAt(daily.weatherCode, i),
      ElementAt(daily.maxTemp, i),
      ElementAt(daily.minTemp, i),
      // `precipitation_probability_max[i] || 0`
      ElementAt(daily.precipitationProbabilityMax, i).Or(0.0),
      ParseSunTime(ElementAt(daily.sunrise, i)),
      ParseSunTime(ElementAt(daily.sunset, i)),
      info.dayDiff == 0)
  }

  /**
   * `forecastDays`: no `daily` block gives no days; otherwise one entry per
   * date of `daily.time`, in order, built from element i of every parallel array.
   */
  function ForecastDays(weatherData: Option<Forecast>, dateInfo: string -> DateInfo): (days: seq<DayEntry>)
    ensures weatherData.None? || weatherData.value.daily.None? ==> days == []
    ensures weatherData.Some? && weatherData.value.daily.Some? ==>
      var daily := weatherData.value.daily.value;
      && |days| == |daily.time|
      && forall i :: 0 <= i < |days| ==>
           && days[i].date == daily.time[i]
           && days[i].weatherCode == ElementAt(daily.weatherCode, i)
           && days[i].maxTemp == ElementAt(daily.maxTemp, i)
           && days[i].minTemp == ElementAt(daily.minTemp, i)
           && days[i].precipitationProb == ElementAt(daily.precipitationProbabilityMax, i).Or(0.0)
           && days[i].sunrise == ParseSunTime(ElementAt(daily.sunrise, i))
           && days[i].sunset == ParseSunTime(ElementAt(daily.sunset, i))
           && days[i].day == DayLabel(dateInfo(daily.time[i]).dayDiff, dateInfo(daily.time[i]).weekday)
           && days[i].formattedDate == dateInfo(daily.time[i]).formattedDate
           && (days[i].isToday <==> dateInfo(daily.time[i]).dayDiff == 0)
  {
    if weatherData.None? || weatherData.value.daily.None? then []
    else
      var daily := weatherData.value.daily.value;
      seq(|daily.time|, i requires 0 <= i < |daily.time| => Entry(daily, i, dateInfo))
  }

  /** A day is highlighted exactly when it is labelled "Today". */
  lemma TodayLabelMatchesHighlight(weatherData: Option<Forecast>, dateInfo: string -> DateInfo, i: nat)
    requires i < |ForecastDays(weatherData, dateInfo)|
    ensures var d := ForecastDays(weatherData, dateInfo)[i];
      d.isToday <==> d.day == "Today"
  {
  }

  /**
   * A day's card shows the precipitation panel exactly when the forecast gave
   * that day a positive probability; a missing, null or zero one hides it.
   */
  lemma PrecipitationPanelFollowsForecast(forecast: Forecast, dateInfo: string -> DateInfo, i: nat)
    requires forecast.daily.Some? && i < |forecast.daily.value.time|
    ensures var probability := ElementAt(forecast.daily.value.precipitationProbabilityMax, i);
      (DailyForecastCard.ShowsPrecipitation(ForecastDays(Some(forecast), dateInfo)[i].precipitationProb)
       <==> probability.Value? && probability.value > 0.0)
  {
  }

  /** A day past the end of the weather-code array is drawn with the storm icon. */
  lemma MissingCodeDrawsStorm(forecast: Forecast, dateInfo: string -> DateInfo, i: nat)
    requires forecast.daily.Some? && |forecast.daily.value.weatherCode| <= i < |forecast.daily.value.time|
    ensures DailyForecastCard.CardIcon(ForecastDays(Some(forecast), dateInfo)[i].weatherCode) == DailyForecastCard.Storm
  {
  }

  // ---------------------------------------------------------------- render

  /** The section the component renders. */
  datatype View =
    | Loading
    | Failed(message: string)
    | Empty
    | Grid(place: Place, temperatureUnit: string, days: seq<DayEntry>)
    | Crash   // `parseSunTime` threw inside the `useMemo`, before any guard ran

  /** Whether reshaping the forecast throws: some day's sunrise or sunset has no minutes. */
  predicate ReshapeThrows(days: seq<DayEntry>) {
    exists i :: 0 <= i < |days| && (days[i].sunrise == Throws || days[i].sunset == Throws)
  }

  /**
   * The render: `forecastDays` is computed first, so an exception there
   * ends the render whatever the store says; then the guards in order
   * (loading, error, no data or no days) and finally the grid.
   */
  function SelectView(s: StoreState, dateInfo: string -> DateInfo): (v: View)
    ensures v.Crash? <==> ReshapeThrows(ForecastDays(s.weatherData, dateInfo))
    ensures v.Loading? <==> !v.Crash? && s.isFetching
    ensures v.Failed? <==> !v.Crash? && !s.isFetching && s.isError
    ensures v.Failed? ==> v.message == LocationForecast.ErrorText(s.errorMessage)
    ensures v.Empty? <==> && !v.Crash? && !s.isFetching && !s.isError
                          && (s.weatherData.None? || s.location.None? || ForecastDays(s.weatherData, dateInfo) == [])
    ensures v.Grid? ==> && s.location == Some(v.place) && v.days == ForecastDays(s.weatherData, dateInfo)
                        && v.days != [] && v.temperatureUnit == LocationForecast.TemperatureSymbol(s.units)
                        && forall i :: 0 <= i < |v.days| ==> v.days[i].sunrise.Shown? && v.days[i].sunset.Shown?
  {
    var days := ForecastDays(s.weatherData, dateInfo);
    if ReshapeThrows(days) then Crash
    else if s.isFetching then Loading
    else if s.isError then Failed(LocationForecast.ErrorText(s.errorMessage))
    else if s.weatherData.None? || s.location.None? || |days| == 0 then Empty
    else Grid(s.location.value, LocationForecast.TemperatureSymbol(s.units), days)
  }

  /**
   * A sunrise without minutes on any day ends the render, even while a new
   * fetch is loading or after an error.
   */
  lemma MalformedSunriseEndsRender(s: StoreState, dateInfo: string -> DateInfo, i: nat, date: string, time: string)
    requires s.weatherData.Some? && s.weatherData.value.daily.Some?
    requires i < |s.weatherData.value.daily.value.time| && i < |s.weatherData.value.daily.value.sunrise|
    requires 'T' !in date && 'T' !in time && ':' !in time && time != ""
    requires s.weatherData.value.daily.value.sunrise[i] == Value(date + "T" + time)
    ensures SelectView(s, dateInfo) == Crash
  {
    TimeWithoutColonThrows(date, time);
    var days := ForecastDays(s.weatherData, dateInfo);
    assert days[i].sunrise == Throws;
  }

  /** A forecast without a `daily` block renders the empty state, never an empty grid. */
  lemma NoDailyBlockIsEmpty(s: StoreState, dateInfo: string -> DateInfo)
    requires !s.isFetching && !s.isError
    requires s.weatherData.Some? && s.weatherData.value.daily.None?
    ensures SelectView(s, dateInfo) == Empty
  {
  }
}
