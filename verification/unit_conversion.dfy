/**
 * Metric-to-imperial display conversions. Inputs are the metric values the
 * forecast service returns; `isMetric` selects the display system.
 * Arithmetic is exact over `real`; the source works on IEEE doubles.
 */
module UnitConversion {

  const FahrenheitScale: real := 9.0 / 5.0
  const FahrenheitOffset: real := 32.0
  const MphPerKmh: real := 0.621371
  const MmPerInch: real := 25.4
  const MetresPerKm: real := 1000.0
  const MetresPerMile: real := 1609.34

  /** `convertTemp`: Celsius unchanged when metric, else degrees Fahrenheit. */
  function ConvertTemp(celsius: real, isMetric: bool): (r: real)
    ensures isMetric ==> r == celsius
    ensures !isMetric ==> (r - FahrenheitOffset) / FahrenheitScale == celsius
  {
    if isMetric then celsius else celsius * 9.0 / 5.0 + 32.0
  }

  /** `convertWindSpeed`: km/h unchanged when metric, else miles per hour. */
  function ConvertWindSpeed(kmh: real, isMetric: bool): (r: real)
    ensures isMetric ==> r == kmh
    ensures !isMetric ==> r / MphPerKmh == kmh
  {
    if isMetric then kmh else kmh * 0.621371
  }

  /** `convertPrecipitation`: millimetres unchanged when metric, else inches. */
  function ConvertPrecipitation(mm: real, isMetric: bool): (r: real)
    ensures isMetric ==> r == mm
    ensures !isMetric ==> r * MmPerInch == mm
  {
    if isMetric then mm else mm / 25.4
  }

  /** `convertVisibility` before its one-decimal rounding: kilometres or miles. */
  function ConvertVisibility(meters: real, isMetric: bool): (r: real)
    ensures isMetric ==> r * MetresPerKm == meters
    ensures !isMetric ==> r * MetresPerMile == meters
  {
    if isMetric then meters / 1000.0 else meters / 1609.34
  }

  /** Water freezes at 32 °F and boils at 212 °F; the two scales meet at -40. */
  lemma TemperatureLandmarks()
    ensures ConvertTemp(0.0, false) == 32.0
    ensures ConvertTemp(100.0, false) == 212.0
    ensures ConvertTemp(-40.0, false) == -40.0
    ensures ConvertTemp(20.0, true) == 20.0
  {
  }

  /** Calm air and a dry day read 0 in either system. */
  lemma ZeroIsFixed(isMetric: bool)
    ensures ConvertWindSpeed(0.0, isMetric) == 0.0
    ensures ConvertPrecipitation(0.0, isMetric) == 0.0
    ensures ConvertVisibility(0.0, isMetric) == 0.0
  {
  }

  /** Every conversion is strictly increasing, so it never reorders readings. */
  lemma ConversionsStrictlyIncrease(x: real, y: real, isMetric: bool)
    requires x < y
    ensures ConvertTemp(x, isMetric) < ConvertTemp(y, isMetric)
    ensures ConvertWindSpeed(x, isMetric) < ConvertWindSpeed(y, isMetric)
    ensures ConvertPrecipitation(x, isMetric) < ConvertPrecipitation(y, isMetric)
    ensures ConvertVisibility(x, isMetric) < ConvertVisibility(y, isMetric)
  {
  }

  /** `getTempUnit`. */
  function TempUnit(isMetric: bool): (text: string)
    ensures text == "\U{00B0}C" || text == "\U{00B0}F"
    ensures text == "\U{00B0}C" <==> isMetric
  {
    if isMetric then "\U{00B0}C" else "\U{00B0}F"
  }

  /** `getWindSpeedUnit`. */
  function WindSpeedUnit(isMetric: bool): (text: string)
    ensures text == "km/h" || text == "mph"
    ensures text == "km/h" <==> isMetric
  {
    if isMetric then "km/h" else "mph"
  }

  /** `getPrecipitationUnit`. */
  function PrecipitationUnit(isMetric: bool): (text: string)
    ensures text == "mm" || text == "in"
    ensures text == "mm" <==> isMetric
  {
    if isMetric then "mm" else "in"
  }

  /** `getVisibilityUnit`. */
  function VisibilityUnit(isMetric: bool): (text: string)
    ensures text == "km" || text == "mi"
    ensures text == "km" <==> isMetric
  {
    if isMetric then "km" else "mi"
  }
}
