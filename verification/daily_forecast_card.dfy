/**
 * One day's card: the icon chosen from the WMO weather code, the width of
 * the temperature bar, the `isToday` default and whether the precipitation
 * panel appears.
 */
module DailyForecastCard {
  import opened Wrappers
  import opened WeatherData

  /** The seven icons a card can show. */
  datatype Icon = Sunny | PartlyCloudy | Fog | Drizzle | Rain | Snow | Storm {
    function Emoji(): string {
      match this
      case Sunny => "\U{2600}\U{FE0F}"
      case PartlyCloudy => "\U{26C5}"
      case Fog => "\U{1F32B}\U{FE0F}"
      case Drizzle => "\U{1F326}\U{FE0F}"
      case Rain => "\U{1F327}\U{FE0F}"
      case Snow => "\U{2744}\U{FE0F}"
      case Storm => "\U{26C8}\U{FE0F}"
    }
  }

  /**
   * `getIconEmoji`: the first threshold the code is at or below wins. Stated
   * as the band of codes each icon covers.
   */
  function IconFor(code: int): (icon: Icon)
    ensures icon == Sunny <==> code == 0
    ensures icon == PartlyCloudy <==> code < 0 || 1 <= code <= 3
    ensures icon == Fog <==> 4 <= code <= 48
    ensures icon == Drizzle <==> 49 <= code <= 57
    ensures icon == Rain <==> 58 <= code <= 67 || 78 <= code <= 82
    ensures icon == Snow <==> 68 <= code <= 77 || 83 <= code <= 86
    ensures icon == Storm <==> code > 86
  {
    if code == 0 then Sunny
    else if code <= 3 then PartlyCloudy
    else if code <= 48 then Fog
    else if code <= 57 then Drizzle
    else if code <= 67 then Rain
    else if code <= 77 then Snow
    else if code <= 82 then Rain
    else if code <= 86 then Snow
    else Storm
  }

  /**
   * The icon a card shows for its `weatherCode` prop. A missing code
   * (`undefined`) fails every comparison in the chain and falls through to
   * storm; `null` is not `=== 0` but is `<= 3`, so it shows partly cloudy.
   */
  function CardIcon(weatherCode: Reading<int>): (icon: Icon)
    ensures weatherCode.Undefined? ==> icon == Storm
    ensures weatherCode.Null? ==> icon == PartlyCloudy
    ensures weatherCode.Value? ==> icon == IconFor(weatherCode.value)
  {
    match weatherCode
    case Undefined => Storm
    case Null => PartlyCloudy
    case Value(code) => IconFor(code)
  }

  /** The width of the bar: a percentage, or unbounded (JavaScript's Infinity). */
  datatype BarWidth = Percent(value: real) | Unbounded

  /**
   * The bar width: the day's temperature range as a percentage of its high,
   * or 50 when the range is not positive. A high of exactly 0 with a lower
   * low divides by zero, which JavaScript makes Infinity.
   */
  function TempRangePercent(maxTemp: real, minTemp: real): (w: BarWidth)
    ensures maxTemp <= minTemp ==> w == Percent(50.0)
    ensures maxTemp > minTemp && maxTemp == 0.0 ==> w == Unbounded
    ensures maxTemp > minTemp && maxTemp != 0.0 ==> w.Percent? && w.value * maxTemp == (maxTemp - minTemp) * 100.0
  {
    var tempRange := maxTemp - minTemp;
    if tempRange > 0.0 then
      if maxTemp == 0.0 then Unbounded else Percent((maxTemp - minTemp) / maxTemp * 100.0)
    else Percent(50.0)
  }

  /** With both temperatures above zero the bar stays strictly inside 0..100 percent. */
  lemma PositiveRangeIsProperPercent(maxTemp: real, minTemp: real)
    requires 0.0 < minTemp < maxTemp
    ensures TempRangePercent(maxTemp, minTemp).Percent?
    ensures 0.0 < TempRangePercent(maxTemp, minTemp).value < 100.0
  {
    var range := maxTemp - minTemp;
    assert minTemp / maxTemp > 0.0;
    assert range / maxTemp + minTemp / maxTemp == 1.0;
  }

  /** A day whose high is below zero gets a negative width, which the bar cannot show. */
  lemma SubZeroHighGivesNegativeWidth(maxTemp: real, minTemp: real)
    requires minTemp < maxTemp < 0.0
    ensures TempRangePercent(maxTemp, minTemp).Percent?
    ensures TempRangePercent(maxTemp, minTemp).value < 0.0
  {
    var range := maxTemp - minTemp;
    assert range / maxTemp == -(range / -maxTemp);
  }

  /**
   * The bar width a card computes from its props. A `null` temperature
   * counts as 0 in the subtraction and the division; a missing one makes the
   * range NaN, which is not `> 0`, so the width is 50.
   */
  function CardTempRangePercent(maxTemp: Reading<real>, minTemp: Reading<real>): (w: BarWidth)
    ensures maxTemp.Undefined? || minTemp.Undefined? ==> w == Percent(50.0)
    ensures !maxTemp.Undefined? && !minTemp.Undefined? ==>
      w == TempRangePercent(AsNumber(maxTemp).value, AsNumber(minTemp).value)
  {
    var high := AsNumber(maxTemp);
    var low := AsNumber(minTemp);
    if high.Some? && low.Some? then TempRangePercent(high.value, low.value) else Percent(50.0)
  }

  /** A `null` high above a sub-zero low divides by zero: the bar is unbounded. */
  lemma NullHighOverFrostIsUnbounded(minTemp: real)
    requires minTemp < 0.0
    ensures CardTempRangePercent(Null, Value(minTemp)) == Unbounded
  {
  }

  /** The `isToday = false` default of the card's props. */
  function IsToday(isToday: Option<bool>): (highlighted: bool)
    ensures highlighted <==> isToday == Some(true)
  {
    isToday.GetOr(false)
  }

  /** `precipitationProb > 0 && (...)`: the precipitation panel. */
  predicate ShowsPrecipitation(precipitationProb: real) {
    precipitationProb > 0.0
  }
}
