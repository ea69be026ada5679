/**
 * The values the weather app passes around: geocoding results, the
 * Open-Meteo forecast payload as the presentation reads it, the unit
 * preferences and a snapshot of the store's state.
 *
 * A missing object (`null` or `undefined`, which the code treats alike with
 * `?.` and `!x`) is `None`. A number or string slot of the payload is a
 * `Reading`, because there the code does tell the two apart: `null` takes
 * part in comparisons and arithmetic as 0, `undefined` as NaN.
 */
module WeatherData {
  import opened Wrappers

  /** A JSON slot as JavaScript reads it: absent (`undefined`), `null`, or a value. */
  datatype Reading<+T> = Undefined | Null | Value(value: T) {
    /**
     * The value, or `d` for `null` and `undefined`. This is `x || d` whenever
     * the slot's only falsy value is `d` itself, as with `x || 0` on a number.
     */
    function Or(d: T): T {
      if Value? then value else d
    }
  }

  /**
   * The number JavaScript's `+`, `-`, `<=` and `Math.round` see: `null` is 0,
   * `undefined` is NaN (`None`).
   */
  function AsNumber(x: Reading<real>): (n: Option<real>)
    ensures x.Undefined? <==> n.None?
    ensures x.Null? ==> n == Some(0.0)
    ensures x.Value? ==> n == Some(x.value)
  {
    match x
    case Undefined => None
    case Null => Some(0.0)
    case Value(v) => Some(v)
  }

  /** What a metric shows when its reading is unavailable. */
  const NotAvailable: string := "N/A"

  /** One geocoding result (the keys of an Open-Meteo result the app reads). */
  datatype Place = Place(
    name: string,
    country: string,
    state: Option<string>,
    latitude: real,
    longitude: real,
    timezone: Option<string>)

  /** `weatherData.current`: instant metrics, each possibly absent. */
  datatype Current = Current(
    temperature: Reading<real>,          // temperature_2m
    apparentTemperature: Reading<real>,  // apparent_temperature
    relativeHumidity: Reading<real>,     // relative_humidity_2m
    windSpeed: Reading<real>,            // wind_speed_10m
    precipitation: Reading<real>,
    uvIndex: Reading<real>,              // uv_index
    visibility: Reading<real>,           // metres
    surfacePressure: Reading<real>,      // surface_pressure
    cloudCover: Reading<real>)           // cloud_cover

  /** `weatherData.daily`: parallel arrays indexed by day. */
  datatype Daily = Daily(
    time: seq<string>,                                   // ISO dates
    weatherCode: seq<Reading<int>>,                      // weather_code (WMO)
    maxTemp: seq<Reading<real>>,                         // temperature_2m_max
    minTemp: seq<Reading<real>>,                         // temperature_2m_min
    sunrise: seq<Reading<string>>,                       // ISO date-times
    sunset: seq<Reading<string>>,
    precipitationProbabilityMax: seq<Reading<real>>)     // precipitation_probability_max

  /** The forecast payload, as far as the presentation reads it. */
  datatype Forecast = Forecast(current: Option<Current>, daily: Option<Daily>)

  /** The store's `units` object: unit key to unit name. */
  type Units = map<string, string>

  const TemperatureUnitKey: string := "temperature_unit"
  const WindSpeedUnitKey: string := "wind_speed_unit"
  const PrecipitationUnitKey: string := "precipitation_unit"

  /** Whether `units[key] === name` (false when the key is absent). */
  predicate UnitIs(units: Units, key: string, name: string) {
    key in units && units[key] == name
  }

  /** The six data fields of the weather store. */
  datatype StoreState = StoreState(
    weatherData: Option<Forecast>,
    isFetching: bool,
    isError: bool,
    errorMessage: Option<string>,
    location: Option<Place>,
    units: Units)
}
