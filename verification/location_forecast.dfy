/**
 * The current-conditions view: which of its four screens the store's state
 * selects, the unit symbols, the timezone caption and the two metric lists.
 * `getWeatherIcon`/`getWeatherDescription` (utils/WeatherIcons) are not part
 * of this model, and numbers are shown before `Math.round`/`toFixed`.
 */
module LocationForecast {
  import opened Wrappers
  import opened Text
  import opened WeatherData
  import UnitConversion

  /** What a metric card shows as its value. */
  datatype Display =
    | Number(value: real)   // a number (before its rounding for display)
    | Words(text: string)   // a string such as "N/A" or "NaN"
    | Nothing               // `undefined`, which React renders as nothing

  datatype Metric = Metric(name: string, value: Display, unit: string)

  /** The main screen's content. */
  datatype Conditions = Conditions(
    place: Place,
    temperature: Display,
    temperatureUnit: string,
    timezone: string,
    primary: seq<Metric>,
    additional: seq<Metric>)

  /** The screen the component renders. */
  datatype View =
    | Loading
    | Failed(message: string)
    | Welcome
    | Main(conditions: Conditions)
    | Throws   // `weatherData.current` is missing: reading `current.weather_code` throws

  const Fallback: string := "Please try again later"
  const LocalTime: string := "Local Time"

  /** The error screen's text: the store's message, or a stock apology when there is none or it is empty. */
  function ErrorText(errorMessage: Option<string>): (text: string)
    ensures errorMessage.Some? && errorMessage.value != "" ==> text == errorMessage.value
    ensures errorMessage.None? || errorMessage.value == "" ==> text == Fallback
  {
    if errorMessage.Some? && errorMessage.value != "" then errorMessage.value else Fallback
  }

  /** The temperature symbol: degrees Celsius only for the unit named exactly "celsius", else Fahrenheit. */
  function TemperatureSymbol(units: Units): (symbol: string)
    ensures symbol == UnitConversion.TempUnit(UnitIs(units, TemperatureUnitKey, "celsius"))
  {
    if UnitIs(units, TemperatureUnitKey, "celsius") then "\U{00B0}C" else "\U{00B0}F"
  }

  /** The wind-speed symbol: kilometres per hour only for the unit named exactly "kmh", else miles per hour. */
  function WindSymbol(units: Units): (symbol: string)
    ensures symbol == UnitConversion.WindSpeedUnit(UnitIs(units, WindSpeedUnitKey, "kmh"))
  {
    if UnitIs(units, WindSpeedUnitKey, "kmh") then "km/h" else "mph"
  }

  /** The precipitation symbol: millimetres only for the unit named exactly "mm", else inches. */
  function PrecipitationSymbol(units: Units): (symbol: string)
    ensures symbol == UnitConversion.PrecipitationUnit(UnitIs(units, PrecipitationUnitKey, "mm"))
  {
    if UnitIs(units, PrecipitationUnitKey, "mm") then "mm" else "in"
  }

  /**
   * Only the exact names "celsius", "kmh" and "mm" select metric symbols; any
   * other value, or a missing key, selects the imperial ones.
   */
  lemma SymbolsFollowUnitNames(units: Units)
    ensures TemperatureSymbol(units) == "\U{00B0}C" <==> TemperatureUnitKey in units && units[TemperatureUnitKey] == "celsius"
    ensures WindSymbol(units) == "km/h" <==> WindSpeedUnitKey in units && units[WindSpeedUnitKey] == "kmh"
    ensures PrecipitationSymbol(units) == "mm" <==> PrecipitationUnitKey in units && units[PrecipitationUnitKey] == "mm"
  {
  }

  /**
   * The timezone caption: the place's IANA zone name with every underscore
   * shown as a space, or "Local Time" when the place has no zone or an empty one.
   */
  function FormattedTimezone(timezone: Option<string>): (text: string)
    ensures timezone.None? || timezone.value == "" ==> text == LocalTime
    ensures timezone.Some? && timezone.value != "" ==>
      && |text| == |timezone.value|
      && '_' !in text
      && (forall i :: 0 <= i < |text| && timezone.value[i] == '_' ==> text[i] == ' ')
      && (forall i :: 0 <= i < |text| && timezone.value[i] != '_' ==> text[i] == timezone.value[i])
  {
    if timezone.None? then LocalTime
    else
      var replaced := ReplaceAll(timezone.value, '_', ' ');
      if replaced == "" then LocalTime else replaced
  }

  /** Formatting never changes a timezone that has no underscore. */
  lemma TimezoneWithoutUnderscoreUnchanged(zone: string)
    requires zone != "" && '_' !in zone
    ensures FormattedTimezone(Some(zone)) == zone
  {
  }

  /** `Math.round(x)` before rounding: `null` reads 0, a missing reading is NaN. */
  function Rounded(x: Reading<real>): (d: Display)
    ensures x.Undefined? <==> d == Words("NaN")
    ensures x.Null? ==> d == Number(0.0)
    ensures x.Value? ==> d == Number(x.value)
  {
    var n := AsNumber(x);
    if n.Some? then Number(n.value) else Words("NaN")
  }

  /** A reading passed through to the page: `null` and `undefined` render nothing. */
  function Shown(x: Reading<real>): Display {
    if x.Value? then Number(x.value) else Nothing
  }

  /** The four primary metrics: Feels Like, Humidity, Wind Speed, Precipitation. */
  function PrimaryMetrics(current: Current, units: Units): (ms: seq<Metric>)
    ensures |ms| == 4
    ensures ms[0].name == "Feels Like" && ms[1].name == "Humidity"
    ensures ms[2].name == "Wind Speed" && ms[3].name == "Precipitation"
    ensures ms[0].unit == TemperatureSymbol(units) && ms[1].unit == "%"
    ensures ms[2].unit == WindSymbol(units) && ms[3].unit == PrecipitationSymbol(units)
    // feels-like and wind are rounded numbers: `null` shows 0, a missing reading NaN
    ensures ms[0].value == Rounded(current.apparentTemperature)
    ensures ms[2].value == Rounded(current.windSpeed)
    // humidity is passed through: a null or missing value renders nothing
    ensures current.relativeHumidity.Value? ==> ms[1].value == Number(current.relativeHumidity.value)
    ensures !current.relativeHumidity.Value? ==> ms[1].value == Nothing
    // `precipitation?.toFixed(1) || 0`: a null or missing amount reads 0, a present one (even 0) itself
    ensures current.precipitation.Value? ==> ms[3].value == Number(current.precipitation.value)
    ensures !current.precipitation.Value? ==> ms[3].value == Number(0.0)
  {
    [ Metric("Feels Like", Rounded(current.apparentTemperature), TemperatureSymbol(units)),
      Metric("Humidity", Shown(current.relativeHumidity), "%"),
      Metric("Wind Speed", Rounded(current.windSpeed), WindSymbol(units)),
      Metric("Precipitation", Number(current.precipitation.Or(0.0)), PrecipitationSymbol(units)) ]
  }

  /** The four additional metrics: UV Index, Visibility, Pressure, Cloud Cover. */
  function AdditionalMetrics(current: Current): (ms: seq<Metric>)
    ensures |ms| == 4
    ensures ms[0].name == "UV Index" && ms[1].name == "Visibility"
    ensures ms[2].name == "Pressure" && ms[3].name == "Cloud Cover"
    ensures ms[0].unit == "" && ms[1].unit == "km" && ms[2].unit == "hPa" && ms[3].unit == "%"
    // UV index and pressure: "N/A" exactly when null or missing; a reading of 0 is shown
    ensures ms[0].value == Words(NotAvailable) <==> !current.uvIndex.Value?
    ensures current.uvIndex.Value? ==> ms[0].value == Number(current.uvIndex.value)
    ensures ms[2].value == Words(NotAvailable) <==> !current.surfacePressure.Value?
    ensures current.surfacePressure.Value? ==> ms[2].value == Number(current.surfacePressure.value)
    // visibility: "N/A" when falsy (null, missing or 0), otherwise kilometres
    ensures ms[1].value == Words(NotAvailable) <==> current.visibility.Or(0.0) == 0.0
    ensures current.visibility.Or(0.0) != 0.0 ==>
      ms[1].value == Number(UnitConversion.ConvertVisibility(current.visibility.value, true))
    // cloud cover: `cloud_cover || 0`
    ensures current.cloudCover.Value? ==> ms[3].value == Number(current.cloudCover.value)
    ensures !current.cloudCover.Value? ==> ms[3].value == Number(0.0)
  {
    [ Metric("UV Index", if current.uvIndex.Value? then Number(current.uvIndex.value) else Words(NotAvailable), ""),
      Metric("Visibility",
        if current.visibility.Value? && current.visibility.value != 0.0
        then Number(current.visibility.value / 1000.0) else Words(NotAvailable), "km"),
      Metric("Pressure", if current.surfacePressure.Value? then Number(current.surfacePressure.value) else Words(NotAvailable), "hPa"),
      Metric("Cloud Cover", Number(if current.cloudCover.Value? && current.cloudCover.value != 0.0 then current.cloudCover.value else 0.0), "%") ]
  }

  /** The screen for a store state: loading, then error, then welcome, then data. */
  function SelectView(s: StoreState): (v: View)
    ensures v.Loading? <==> s.isFetching
    ensures v.Failed? <==> !s.isFetching && s.isError
    ensures v.Failed? ==> v.message == ErrorText(s.errorMessage)
    ensures v.Welcome? <==> !s.isFetching && !s.isError && (s.weatherData.None? || s.location.None?)
    ensures v.Main? ==> && s.location == Some(v.conditions.place)
                        && s.weatherData.Some? && s.weatherData.value.current.Some?
                        && v.conditions.temperature == Rounded(s.weatherData.value.current.value.temperature)
                        && v.conditions.temperatureUnit == TemperatureSymbol(s.units)
                        && v.conditions.timezone == FormattedTimezone(v.conditions.place.timezone)
                        && v.conditions.primary == PrimaryMetrics(s.weatherData.value.current.value, s.units)
                        && v.conditions.additional == AdditionalMetrics(s.weatherData.value.current.value)
    ensures v.Throws? <==> && !s.isFetching && !s.isError && s.location.Some?
                           && s.weatherData.Some? && s.weatherData.value.current.None?
  {
    if s.isFetching then Loading
    else if s.isError then Failed(ErrorText(s.errorMessage))
    else if s.weatherData.None? || s.location.None? then Welcome
    else if s.weatherData.value.current.None? then Throws
    else
      var current := s.weatherData.value.current.value;
      var place := s.location.value;
      Main(Conditions(place, Rounded(current.temperature), TemperatureSymbol(s.units), FormattedTimezone(place.timezone),
                      PrimaryMetrics(current, s.units), AdditionalMetrics(current)))
  }
}
