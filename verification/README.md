# Weather app: store, conversions, forecast formatting and search controller

This is a Dafny model of the logic core of a React weather app that talks to Open-Meteo.
It covers the following parts:

- **The weather store** (`WeatherStore`). It has six fields: `weatherData`, `isFetching`, `isError`, `errorMessage`, `location` and `units`. Its four actions are modelled as a class whose methods update those fields in place. Each method is specified by a pure transition function on a `StoreState` value. A ghost log `published` records every state that a `set(...)` hands to subscribers, so the intermediate "pending" state of `fetchWeather` is observable too. The two network calls of `fetchWeather` are oracles: function parameters that yield either a value or the message of the error they throw.
- **Unit conversion** (`UnitConversion`). The metric-to-imperial formulas are modelled over exact `real` arithmetic, along with the unit labels.
- **The Open-Meteo client** (`FetchApi`). It covers URL construction, the `ok` check of `fetchJSON`, the "City not found" case, the choice of the first geocoding result and the reshaping done by `fetchWeatherForCity`. `fetch` is a function from URL to response, so the URL that was requested stays visible. `encodeURIComponent` and the way a number prints inside a template string are also parameters.
- **The 7-day forecast view** (`DailyForecast`). It covers:
  - the zip of the parallel `daily` arrays into one entry per day;
  - `parseSunTime`, which yields 12-hour clock text;
  - the "Today"/"Tomorrow"/weekday label;
  - the order of the render guards.
- **One forecast card** (`DailyForecastCard`). It covers the WMO-code icon chain, the temperature-bar width, the `isToday` default and the precipitation-panel condition.
- **The current-conditions view** (`LocationForecast`). It covers the view priority, the unit symbols, the timezone caption and the two metric lists with their "N/A"/0 defaults.
- **The search bar** (`SearchBar`). The handlers are methods on a class holding `inputValue` and `showDropdown`. The button and dropdown conditions are predicates.

Some JavaScript value semantics matter here, and they are written out explicitly:

| JavaScript | Model |
|---|---|
| a `null` or `undefined` object (`?.`, `!x`) | `Option.None` |
| a number or string slot of the payload | `Reading`: `Undefined`, `Null` or `Value`; `null` computes and compares as 0, `undefined` as NaN |
| a thrown error | `Result.Failure` carrying the message |
| a comparison with `undefined` or `NaN`, which is false | a missing weather code draws the storm icon; a missing temperature gives a 50% bar |
| `null <= 3`, `x - null`, `Math.round(null)` | a null weather code draws partly cloudy; a null temperature counts as 0; a null reading rounds to 0 |
| `.length` | UTF-16 code units (`Utf16Length`) |
| division by a zero high temperature, which gives `Infinity` | `BarWidth.Unbounded` |
| `String.prototype.trim` | the full ECMAScript white-space set |
| `split` | a split on one character |
| `Number` applied to a digit string (`""` is 0) | `NumberOf` |
| `toString`/`padStart` | decimal text and left padding |

Shared helpers live in `Wrappers` (`Option`, `Result`) and `Text` (split/join, trim, replace, decimal digits). The entities shared across the files live in `WeatherData`: `Place`, `Current`, `Daily`, `Forecast`, the units map and `StoreState`.

Three facts about the code that a reader might expect otherwise:

- **No unit preferences in the request.** The forecast request built by `fetchWeather` in `src/api/fetchapi.js:24-26` carries only the coordinates and `hourly=temperature_2m`. It sends no unit preferences, no current or daily fields and no timezone setting.
- **No search-candidate list, no reverse geocoding.** The store has no candidate list and does no reverse geocoding.
- **"City not found" does not contain the query.** The message is the fixed text.

## Model

| member | source | states |
|---|---|---|
| WeatherStore.DefaultUnits | src/store/WeatherStore.js:13-17 | the units hold exactly the three keys temperature_unit, wind_speed_unit and precipitation_unit, set to "celsius", "kmh" and "mm" |
| WeatherStore.InitialState | src/store/WeatherStore.js:8-17 | the store starts with no forecast and no location, not fetching, no error and no message, and the default units |
| WeatherStore.WithUnits | src/store/WeatherStore.js:19-22 | setUnits: every key of the argument takes the argument's value; every other existing key keeps its value; no other key appears; the forecast becomes null; location, isFetching, isError and errorMessage are unchanged |
| WeatherStore.Pending | src/store/WeatherStore.js:27 | the first set of fetchWeather: fetching, no error, null message; forecast, location and units untouched |
| WeatherStore.Lookup | src/store/WeatherStore.js:29-37 | the geocoding error is the outcome when geocoding throws, and no forecast is asked for; otherwise the forecast is asked for at the geocoded latitude and longitude with the given units; its error is the outcome, or the place is paired with its forecast |
| WeatherStore.Settled | src/store/WeatherStore.js:39-50 | success stores place and forecast together with isFetching and isError false; failure sets isError and the message and keeps the previous location and forecast; units are never touched |
| WeatherStore.Fetched | src/store/WeatherStore.js:24-52 | an empty (falsy) name changes nothing; otherwise the result is the settled state after the pending state, with the lookup made in the units current at the call |
| WeatherStore.Cleared | src/store/WeatherStore.js:54-57 | clearWeatherData nulls exactly the forecast and the location |
| WeatherStore.ErrorCleared | src/store/WeatherStore.js:59-62 | clearError resets exactly isError and errorMessage |
| WeatherStore.InitialStateConsistent | src/store/WeatherStore.js:8-17 | the initial state is consistent: not fetching and failed at once, a message exactly when failed, and no forecast without a location |
| WeatherStore.ActionsPreserveConsistency | src/store/WeatherStore.js:19-62 | every action, including the pending step of fetchWeather, keeps the store consistent |
| WeatherStore.FailedRefreshKeepsLastGoodData | src/store/WeatherStore.js:39-50 | after a successful fetch, a failing one leaves the first place and forecast in the store and records the second error |
| WeatherStore.FetchUsesCurrentUnits | src/store/WeatherStore.js:19-37 | after setUnits, fetchWeather stores the forecast requested in the merged units |
| WeatherStore.Store.constructor | src/store/WeatherStore.js:8-17 | the store is created in the initial state, and that is the only state published |
| WeatherStore.Store.SetUnits | src/store/WeatherStore.js:19-22 | the new state is WithUnits of the old one, published once, and the store stays consistent |
| WeatherStore.Store.FetchWeather | src/store/WeatherStore.js:24-52 | the new state is Fetched of the old one; an empty name publishes nothing; otherwise the pending state and then the final state are published, in that order |
| WeatherStore.Store.ClearWeatherData | src/store/WeatherStore.js:54-57 | the new state is Cleared of the old one, published once |
| WeatherStore.Store.ClearError | src/store/WeatherStore.js:59-62 | the new state is ErrorCleared of the old one, published once |
| UnitConversion.ConvertTemp | src/utils/UnitConversion.jsx:1-4 | metric returns the input; imperial returns the value that converts back to the input through (f - 32) / (9/5) |
| UnitConversion.ConvertWindSpeed | src/utils/UnitConversion.jsx:6-9 | metric returns the input; imperial returns the value whose quotient by 0.621371 is the input |
| UnitConversion.ConvertPrecipitation | src/utils/UnitConversion.jsx:11-14 | metric returns the input; imperial returns inches, which times 25.4 give the millimetres back |
| UnitConversion.ConvertVisibility | src/utils/UnitConversion.jsx:16-19 | before rounding, the value times 1000 (metric) or 1609.34 (imperial) gives the metres back |
| UnitConversion.TemperatureLandmarks | src/utils/UnitConversion.jsx:3 | 0 C reads 32 F, 100 C reads 212 F, -40 reads -40, and a metric reading is unchanged |
| UnitConversion.ZeroIsFixed | src/utils/UnitConversion.jsx:6-19 | zero wind, precipitation and visibility read 0 in both systems |
| UnitConversion.ConversionsStrictlyIncrease | src/utils/UnitConversion.jsx:1-19 | every conversion is strictly increasing in its input, in both systems |
| UnitConversion.TempUnit | src/utils/UnitConversion.jsx:22 | the result is one of two degree labels, and it is the Celsius one exactly when metric |
| UnitConversion.WindSpeedUnit | src/utils/UnitConversion.jsx:23 | the result is "km/h" or "mph", and "km/h" exactly when metric |
| UnitConversion.PrecipitationUnit | src/utils/UnitConversion.jsx:24 | the result is "mm" or "in", and "mm" exactly when metric |
| UnitConversion.VisibilityUnit | src/utils/UnitConversion.jsx:25 | the result is "km" or "mi", and "km" exactly when metric |
| FetchApi.HttpError | src/api/fetchapi.js:7 | the message is "HTTP error! Status: " followed by decimal digits, without leading zeros, whose value is the status |
| FetchApi.HttpErrorInjective | src/api/fetchapi.js:7 | two statuses give the same message exactly when they are equal |
| FetchApi.FetchJson | src/api/fetchapi.js:5-9 | succeeds exactly when the response is ok, with its body; otherwise fails with the status message |
| FetchApi.GeocodingUrlParameters | src/api/fetchapi.js:13 | the URL is the geocoding base, "?", then a query that splits on "&" into exactly "name=" plus the encoded city, and "count=1" |
| FetchApi.GeocodingUrl | src/api/fetchapi.js:13 | helper without a contract: the geocoding URL; its layout is stated by GeocodingUrlParameters |
| FetchApi.FetchCoordinates | src/api/fetchapi.js:12-21 | the response for the geocoding URL decides the result: a status error when not ok; "City not found" when results are absent or empty; otherwise the first result |
| FetchApi.WeatherUrlParameters | src/api/fetchapi.js:25 | the URL is the forecast base, "?", then a query that splits on "&" into exactly the latitude, the longitude and "hourly=temperature_2m" |
| FetchApi.WeatherUrl | src/api/fetchapi.js:25 | helper without a contract: the forecast URL; its layout is stated by WeatherUrlParameters |
| FetchApi.FetchWeather | src/api/fetchapi.js:24-27 | the body of the response served for the coordinates' URL, or the status error |
| FetchApi.FetchWeatherForCity | src/api/fetchapi.js:30-38 | a failure of either step is the result's failure unchanged; on success, name, country and coordinates of the geocoded place come with the forecast for exactly those coordinates |
| FetchApi.CityWeatherUsesFirstResult | src/api/fetchapi.js:30-38 | a successful result means the geocoding response was ok and non-empty; the location is its first result, and the forecast is the body served for that result's coordinates |
| FetchApi.UnknownCityFails | src/api/fetchapi.js:16-18 | a city with absent or empty results fails with "City not found", whatever the forecast service would answer |
| LocationForecast.ErrorText | src/components/WeatherForecast/LocationForecast.jsx:62 | a non-empty message is shown as is; a null or empty one shows "Please try again later" |
| LocationForecast.TemperatureSymbol | src/components/WeatherForecast/LocationForecast.jsx:113 | the symbol is the temperature label chosen by whether temperature_unit is exactly "celsius" |
| LocationForecast.WindSymbol | src/components/WeatherForecast/LocationForecast.jsx:114 | the symbol is the wind label chosen by whether wind_speed_unit is exactly "kmh" |
| LocationForecast.PrecipitationSymbol | src/components/WeatherForecast/LocationForecast.jsx:115 | the symbol is the precipitation label chosen by whether precipitation_unit is exactly "mm" |
| LocationForecast.SymbolsFollowUnitNames | src/components/WeatherForecast/LocationForecast.jsx:113-115 | the metric symbols appear exactly when the key is present with the metric name; any other value or a missing key gives the imperial symbol |
| LocationForecast.FormattedTimezone | src/components/WeatherForecast/LocationForecast.jsx:122 | a missing or empty timezone gives "Local Time"; otherwise the same length, every underscore turned into a space, none left, and every other character kept |
| LocationForecast.TimezoneWithoutUnderscoreUnchanged | src/components/WeatherForecast/LocationForecast.jsx:122 | a non-empty timezone without underscores is shown unchanged |
| LocationForecast.Rounded | src/components/WeatherForecast/LocationForecast.jsx:132 | `Math.round` before rounding: a value is itself, null is 0, and NaN exactly when the reading is missing |
| LocationForecast.Shown | src/components/WeatherForecast/LocationForecast.jsx:139 | helper without a contract: a reading passed straight to the page, where null and undefined render nothing |
| LocationForecast.PrimaryMetrics | src/components/WeatherForecast/LocationForecast.jsx:129-158 | exactly Feels Like, Humidity, Wind Speed, Precipitation in that order, with their unit symbols; feels-like and wind are their Rounded readings; humidity is its value or nothing; precipitation is its value (0 included) or 0 when null or missing |
| LocationForecast.AdditionalMetrics | src/components/WeatherForecast/LocationForecast.jsx:165-194 | exactly UV Index, Visibility, Pressure, Cloud Cover with units "", km, hPa and %; UV and pressure are their value when present and "N/A" exactly when null or missing; visibility is "N/A" exactly when falsy (null, missing or 0) and kilometres otherwise; cloud cover is its value or 0 |
| LocationForecast.SelectView | src/components/WeatherForecast/LocationForecast.jsx:37-101 | loading exactly when fetching, then error with its text, then welcome when the forecast or location is missing; the main view carries the stored place, the rounded current temperature, the symbols, the timezone caption and both metric lists; a forecast without a current block throws |
| DailyForecastCard.Icon.Emoji | src/components/WeatherForecast/DailyForecastCard.jsx:51-59 | helper without a contract: the emoji character each icon is drawn with |
| DailyForecastCard.IconFor | src/components/WeatherForecast/DailyForecastCard.jsx:50-60 | each of the seven icons is chosen exactly on its band: 0 sunny; below 0 or 1-3 partly cloudy; 4-48 fog; 49-57 drizzle; 58-67 or 78-82 rain; 68-77 or 83-86 snow; above 86 storm |
| DailyForecastCard.CardIcon | src/components/WeatherForecast/DailyForecastCard.jsx:50-62 | a missing code gives the storm icon, a null code partly cloudy (`null <= 3`), a present code its band's icon |
| DailyForecastCard.TempRangePercent | src/components/WeatherForecast/DailyForecastCard.jsx:69-70 | exactly 50 when the high is not above the low; Infinity when the high is 0 and above the low; otherwise the width times the high equals the range times 100 |
| DailyForecastCard.PositiveRangeIsProperPercent | src/components/WeatherForecast/DailyForecastCard.jsx:70 | with 0 < low < high the width lies strictly between 0 and 100 |
| DailyForecastCard.SubZeroHighGivesNegativeWidth | src/components/WeatherForecast/DailyForecastCard.jsx:70 | with low < high < 0 the width is negative |
| DailyForecastCard.CardTempRangePercent | src/components/WeatherForecast/DailyForecastCard.jsx:69-70 | a missing temperature gives 50; otherwise the two-temperature width, with a null temperature counted as 0 |
| DailyForecastCard.NullHighOverFrostIsUnbounded | src/components/WeatherForecast/DailyForecastCard.jsx:69-70 | a null high over a sub-zero low divides by zero and gives an unbounded width |
| DailyForecastCard.IsToday | src/components/WeatherForecast/DailyForecastCard.jsx:43 | the card is highlighted exactly when isToday was supplied as true |
| DailyForecastCard.ShowsPrecipitation | src/components/WeatherForecast/DailyForecastCard.jsx:144 | predicate without a contract: the panel condition `precipitationProb > 0`; PrecipitationPanelFollowsForecast states what it means for a day |
| DailyForecast.DayLabel | src/components/WeatherForecast/DailyForecast.jsx:91-99 | "Today" exactly when the day difference is 0, "Tomorrow" exactly when it is 1, otherwise the weekday's name |
| DailyForecast.Hour12 | src/components/WeatherForecast/DailyForecast.jsx:127 | the displayed hour lies in 1..12 and agrees with the hour modulo 12 |
| DailyForecast.Period | src/components/WeatherForecast/DailyForecast.jsx:126 | "AM" or "PM", and "PM" exactly from hour 12 on |
| DailyForecast.MinutesText | src/components/WeatherForecast/DailyForecast.jsx:129 | the minutes as decimal digits with that value, at least two characters long and exactly two below 100 |
| DailyForecast.ClockText | src/components/WeatherForecast/DailyForecast.jsx:123-129 | the text ends in a space and "AM" or "PM", "PM" exactly for a number hour from 12 on; a NaN hour reads "AM"; NaN minutes print "NaN" just before the period |
| DailyForecast.NaNHourReadsTwelve | src/components/WeatherForecast/DailyForecast.jsx:126-129 | a NaN hour reads as "12:" (`NaN % 12 || 12` is 12) |
| DailyForecast.ParseSunTime | src/components/WeatherForecast/DailyForecast.jsx:115-120 | "N/A" for a missing, null or empty string, for one with no "T", and for one whose second "T" field is empty |
| DailyForecast.NothingAfterTime | src/components/WeatherForecast/DailyForecast.jsx:119-120 | a date followed by "T" and then nothing, or another "T", reads "N/A" |
| DailyForecast.ParseSunTimeClock | src/components/WeatherForecast/DailyForecast.jsx:115-130 | for any "date T hh:mm" with digit fields (an empty hour field is 0) the text is the 12-hour hour, ":", the zero-padded minutes, a space and AM/PM |
| DailyForecast.TimeWithoutColonThrows | src/components/WeatherForecast/DailyForecast.jsx:123-129 | a time part without ":" leaves the minutes undefined, and the call throws |
| DailyForecast.ElementAt | src/components/WeatherForecast/DailyForecast.jsx:140-145 | element i of a parallel array, undefined past its end |
| DailyForecast.Entry | src/components/WeatherForecast/DailyForecast.jsx:136-147 | helper without a contract: the entry built for day i; ForecastDays states its fields |
| DailyForecast.ForecastDays | src/components/WeatherForecast/DailyForecast.jsx:61-148 | with no daily block it yields no days; otherwise one entry per daily.time element in order, built as follows: date = time[i]; code and both temperatures = element i of their arrays; probability = element i or 0; sunrise and sunset parsed from element i; label from the day difference; isToday exactly when that difference is 0 |
| DailyForecast.TodayLabelMatchesHighlight | src/components/WeatherForecast/DailyForecast.jsx:91-146 | a day is highlighted exactly when it is labelled "Today" |
| DailyForecast.PrecipitationPanelFollowsForecast | src/components/WeatherForecast/DailyForecast.jsx:143 | a card shows the precipitation panel exactly when the forecast gave that day a positive probability |
| DailyForecast.MissingCodeDrawsStorm | src/components/WeatherForecast/DailyForecast.jsx:140 | a day beyond the end of the weather-code array is drawn with the storm icon |
| DailyForecast.ReshapeThrows | src/components/WeatherForecast/DailyForecast.jsx:61-148 | predicate without a contract: some day's sunrise or sunset throws while the days are built |
| DailyForecast.SelectView | src/components/WeatherForecast/DailyForecast.jsx:61-218 | the render fails exactly when building the days throws, before any guard; otherwise loading, then error, then empty when the forecast or location is missing or there are no days; the grid carries the stored place, the non-empty day list with every sun time shown, and the temperature symbol |
| DailyForecast.MalformedSunriseEndsRender | src/components/WeatherForecast/DailyForecast.jsx:129-161 | a sunrise without minutes on any day ends the render, even while loading or after an error |
| DailyForecast.NoDailyBlockIsEmpty | src/components/WeatherForecast/DailyForecast.jsx:63 | a forecast without a daily block renders the empty state, not an empty grid |
| SearchBar.LongEnough | src/components/SearchBar.jsx:36 | predicate without a contract: the trimmed input is longer than two UTF-16 units, the test of lines 36 and 113; AstralPairIsLongEnough and the handler contracts state its use |
| SearchBar.AstralPairIsLongEnough | src/components/SearchBar.jsx:36 | two characters outside the Basic Multilingual Plane count as four UTF-16 units and start a search |
| SearchBar.LocationDisabled | src/components/SearchBar.jsx:132 | predicate without a contract: the location button is disabled while fetching |
| SearchBar.ShowsResults | src/components/SearchBar.jsx:91 | predicate without a contract: the results list condition; PanelsExclusive and OpenDropdownDrawsOnePanel state its relation to the other panel |
| SearchBar.ShowsNoResults | src/components/SearchBar.jsx:113 | predicate without a contract: the "No locations found" condition, with the length in UTF-16 units |
| SearchBar.SubmitDisabled | src/components/SearchBar.jsx:123 | the submit button is disabled exactly when fetching or when every character typed is white space |
| SearchBar.FetchingDisablesButtons | src/components/SearchBar.jsx:123-132 | while fetching, both the submit and the location buttons are disabled |
| SearchBar.PanelsExclusive | src/components/SearchBar.jsx:91-113 | the results list and "No locations found" are never shown together, and a closed dropdown shows neither |
| SearchBar.OpenDropdownDrawsOnePanel | src/components/SearchBar.jsx:91-113 | when the dropdown is open over searchable text outside a fetch, exactly one of the two panels is drawn |
| SearchBar.OpenDropdownEnablesSubmit | src/components/SearchBar.jsx:123 | when the dropdown is open over searchable text, the submit button is enabled outside a fetch |
| SearchBar.SubmitActsWhenEnabled | src/components/SearchBar.jsx:51-56 | submitting selects a result exactly when the submit button would be enabled outside a fetch and a result exists |
| SearchBar.Controller.constructor | src/components/SearchBar.jsx:17-18 | the input starts empty and the dropdown closed |
| SearchBar.Controller.HandleInputChange | src/components/SearchBar.jsx:32-43 | the raw value is stored; when its trimmed UTF-16 length is above 2 a search with the trimmed text is issued, otherwise results are cleared; only if that call completes does the dropdown open or close accordingly, else it keeps its state; the invariant holds unless a failed clear left an open dropdown |
| SearchBar.Controller.HandleSelectLocation | src/components/SearchBar.jsx:45-49 | the chosen place is loaded; if that completes, the input is emptied and the dropdown closed, otherwise nothing changes |
| SearchBar.Controller.HandleSearch | src/components/SearchBar.jsx:51-56 | with non-blank input and at least one result, the first result is selected as HandleSelectLocation does; otherwise no call is made and nothing changes |
| SearchBar.Controller.HandleUseMyLocation | src/components/SearchBar.jsx:58-62 | the device location is requested (not awaited), the input is emptied and the dropdown closed |
| WeatherData.AsNumber | src/components/WeatherForecast/DailyForecastCard.jsx:69 | the number a slot takes part in arithmetic and comparisons as: its value, 0 for null, NaN exactly for undefined |
| Text.Split | src/components/WeatherForecast/DailyForecast.jsx:119 | `split` on one character: at least one field, at least two when the separator occurs, no field containing it; SplitJoin and JoinSplit make it the inverse of `join` |
| Text.Trim | src/components/SearchBar.jsx:36 | helper without a contract: `trim`; TrimEmptyIff, TrimIsInnerRun and TrimIdempotent state it |
| Text.Utf16Length | src/components/SearchBar.jsx:36 | `length` in UTF-16 units: one for a character inside the Basic Multilingual Plane and two for one outside it, between one and two per character in general |
| Text.Utf16LengthAppend | src/components/SearchBar.jsx:36 | the length of a concatenation is the sum of the lengths, so the count is exactly the per-character units added up |
| Text.ReplaceAll | src/components/WeatherForecast/LocationForecast.jsx:122 | a global one-character replace: same length, each occurrence replaced, every other character kept |
| Text.NumberOf | src/components/WeatherForecast/DailyForecast.jsx:123 | `Number` on a string: a number exactly for digit strings, with their decimal value |
| Text.NatToString | src/components/WeatherForecast/DailyForecast.jsx:129 | `toString` of a whole number: non-empty digits, no leading zero (0 is the single digit "0"), whose value is the number |
| Text.PadStart | src/components/WeatherForecast/DailyForecast.jsx:129 | `padStart`: the text kept at the end, fill characters in front, up to the width |

## Left out

**Concurrency, persistence and I/O**

- **Concurrency.** Overlapping `fetchWeather` calls can interleave at their `await`s, and the last write wins. Each call is modelled as running to completion alone.
- **Search bar interleavings.** Overlapping `handleInputChange` calls can interleave at the awaited search: an earlier, long input can open the dropdown after a later, short one closed it, leaving it open over short text. Each handler is modelled as running to completion alone, so the controller invariant is not claimed across such interleavings.
- **Persistence.** Zustand's `persist` middleware and the localStorage snapshot (`src/store/WeatherStore.js:5-6,64-66`) are not modelled.
- **Network I/O.** `fetch`, `res.json()` and `encodeURIComponent` are parameters. The failures of `res.json()` (a body that is not JSON) and network exceptions other than a non-ok status are not modelled.

**Store wiring and JavaScript edge cases**

- **Store oracles.** `src/store/WeatherStore.js:1` imports `getCoordinates` and `getWeather`, but `src/api/fetchapi.js` exports neither: its functions are `fetchCoordinates`, `fetchWeather` and `fetchWeatherForCity`. The store's two calls are therefore oracles with no behaviour of their own. They are not identified with `FetchApi`. The store passes its units as a third argument; `fetchWeather` in the client takes only two arguments and ignores it.
- **Non-string location names.** `fetchWeather` takes `locationName` as a string; the only falsy string is `""`. Falsy non-strings such as `null` or `0` are not modelled.
- **Store members no code defines.** The search bar uses `searchLocations`, `clearSearchResults`, `fetchWeatherForLocation` and `searchResults`, and the geolocation hook uses `fetchWeatherByGeolocation`. None of them is defined by the store. The handlers return the call they issue as a `StoreCall` value, the result list is an input, and whether each call completed or threw is a parameter. As the code stands the members are undefined, so every such call throws; the parameter covers that case and the one where they exist. These members are given no other behaviour.
- **Missing daily arrays.** When a `daily` block lacks `time`, `weather_code`, `sunrise` or another array, reading `array[i]` throws. The model treats every parallel array as present, possibly shorter than `time`; an element past its end is `undefined`.
- Text.NumberOf: `Number(...)` in parseSunTime is modelled only for strings of decimal digits (and `""`, which is 0). Any other field reads as NaN. Signs, decimals and exponents are not modelled.

**Functions and lemmas stated more weakly than the source**

- DailyForecast.ParseSunTime: its contract states the "N/A" cases. The clock text is stated by `ParseSunTimeClock` for digit-only fields, and the exception by `TimeWithoutColonThrows`. Fields that are not digit strings are in the function body only: a NaN hour shows as 12 and "AM", NaN minutes show as "NaN".
- DailyForecast.MinutesText: the two-character width is stated only for minutes below 100. Longer minute fields keep all their digits, as `padStart` does.
- UnitConversion.ConvertVisibility: the value is stated before the `toFixed(1)` rounding.
- LocationForecast.PrimaryMetrics: values are stated before `Math.round` and `toFixed`.
- LocationForecast.AdditionalMetrics: values are stated before `toFixed`.

**Arithmetic and rendering**

- **Floating point.** `Math.round`, `toFixed` and IEEE double results are not modelled. Arithmetic is exact over `real`, and no bit-exact claims are made.
- **Dates and locale.** `new Date`, `setHours`, the millisecond day difference and `toLocaleDateString` are not modelled. For each ISO date the caller supplies the day difference, the weekday and the short date text.
- **Rendering.** The search bar's outside-click listener (`src/components/SearchBar.jsx:21-30`), the button caption, the class names, the icons and the descriptive texts are not modelled. `getWeatherIcon`/`getWeatherDescription` are not part of this model.
- **The geolocation hook.** `src/hooks/UseGeolocation.jsx` wraps the browser geolocation API. "Use my location" is modelled only as the `UseCurrentLocation` call it triggers.
- **The static mock-up components.** These are `src/components/HourlyForecast.jsx`, `DailyForecast.jsx`, `LocationForecast.jsx`, `Search.jsx`, `UnitDisplay.jsx`, `UnitsDropDown.jsx`, `Header.jsx`, `Hero.jsx`, `src/App.jsx` and `src/pages/*`. They hold hard-coded data and markup and are not part of this model.
- **Literal base URLs.** The base URLs are the literal constants. Their own syntax, such as containing no "?", is not stated.
