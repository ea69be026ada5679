/**
 * The Open-Meteo client. `fetch` is not performed: each call is given the
 * response the network would deliver for the URL it builds, as a function
 * from URL to response, so "which URL was requested" stays observable.
 * `encodeURIComponent` and the rendering of a coordinate inside a template
 * string are likewise parameters.
 */
module FetchApi {
  import opened Wrappers
  import opened Text
  import opened WeatherData

  /** What `fetch` resolves to: the `ok` flag, the status and the parsed JSON body. */
  datatype Response<B> = Response(ok: bool, status: nat, body: B)

  /** The geocoding endpoint's body; `results` is absent when nothing matched. */
  datatype GeoBody = GeoBody(results: Option<seq<Place>>)

  /** The location part of `fetchWeatherForCity`'s result. */
  datatype CityLocation = CityLocation(name: string, country: string, latitude: real, longitude: real)

  /** `fetchWeatherForCity`'s result. */
  datatype CityWeather = CityWeather(location: CityLocation, forecast: Forecast)

  const BaseGeoUrl: string := "https://geocoding-api.open-meteo.com/v1/search"
  const BaseWeatherUrl: string := "https://api.open-meteo.com/v1/forecast"
  const HttpErrorPrefix: string := "HTTP error! Status: "
  const CityNotFound: string := "City not found"

  /** The message `fetchJSON` throws for a response that is not ok. */
  function HttpError(status: nat): (message: string)
    ensures |message| > |HttpErrorPrefix| && message[..|HttpErrorPrefix|] == HttpErrorPrefix
    ensures var digits := message[|HttpErrorPrefix|..];
      AllDigits(digits) && DigitsValue(digits) == status
    // written without leading zeros, as a number in a template string is
    ensures var digits := message[|HttpErrorPrefix|..];
      |digits| == 1 || digits[0] != '0'
  {
    var message := HttpErrorPrefix + NatToString(status);
    assert message[|HttpErrorPrefix|..] == NatToString(status);
    message
  }

  /** `fetchJSON`: the body of an ok response; otherwise it throws with the status. */
  function FetchJson<B>(res: Response<B>): (r: Result<B, string>)
    ensures r.Success? <==> res.ok
    ensures r.Success? ==> r.value == res.body
    ensures r.Failure? ==> r.error == HttpError(res.status)
  {
    if !res.ok then Failure(HttpError(res.status)) else Success(res.body)
  }

  /** Two failing responses give the same error exactly when their statuses agree. */
  lemma HttpErrorInjective(a: nat, b: nat)
    ensures HttpError(a) == HttpError(b) <==> a == b
  {
    if HttpError(a) == HttpError(b) {
      assert HttpError(a)[|HttpErrorPrefix|..] == HttpError(b)[|HttpErrorPrefix|..];
    }
  }

  /** The query string of the geocoding request, given the encoded city name. */
  function GeocodingQuery(encodedCity: string): string {
    ("name=" + encodedCity) + "&" + "count=1"
  }

  /** The geocoding URL for a city, given `encodeURIComponent`. */
  function GeocodingUrl(city: string, encode: string -> string): string {
    BaseGeoUrl + "?" + GeocodingQuery(encode(city))
  }

  /**
   * The geocoding query has exactly two parameters, the encoded name and
   * `count=1`, whenever the encoder escapes `&` as `encodeURIComponent` does.
   */
  lemma GeocodingUrlParameters(city: string, encode: string -> string)
    requires '&' !in encode(city)
    ensures var url := GeocodingUrl(city, encode);
      url[..|BaseGeoUrl| + 1] == BaseGeoUrl + "?" && url[|BaseGeoUrl| + 1..] == GeocodingQuery(encode(city))
    ensures Split(GeocodingQuery(encode(city)), '&') == ["name=" + encode(city), "count=1"]
  {
    var name := "name=" + encode(city);
    var query := GeocodingQuery(encode(city));
    SplitTwoFields(name, "count=1", '&');
  }

  /** `fetchCoordinates`: the first geocoding result for `city`. */
  function FetchCoordinates(city: string, encode: string -> string, fetch: string -> Response<GeoBody>): (r: Result<Place, string>)
    ensures var res := fetch(GeocodingUrl(city, encode));
      && (!res.ok ==> r == Failure(HttpError(res.status)))
      && (res.ok && (res.body.results.None? || res.body.results.value == []) ==> r == Failure(CityNotFound))
      && (res.ok && res.body.results.Some? && res.body.results.value != [] ==> r == Success(res.body.results.value[0]))
  {
    var data := FetchJson(fetch(GeocodingUrl(city, encode)));
    if data.Failure? then Failure(data.error)
    else if data.value.results.None? || |data.value.results.value| == 0 then Failure(CityNotFound)
    else Success(data.value.results.value[0])
  }

  /** The query string of the forecast request, given the two rendered coordinates. */
  function WeatherQuery(latitudeText: string, longitudeText: string): string {
    ("latitude=" + latitudeText) + "&" + (("longitude=" + longitudeText) + "&" + "hourly=temperature_2m")
  }

  /** The forecast URL for a coordinate pair, given how a number is written into a string. */
  function WeatherUrl(latitude: real, longitude: real, show: real -> string): string {
    BaseWeatherUrl + "?" + WeatherQuery(show(latitude), show(longitude))
  }

  /**
   * The forecast query carries exactly the given latitude and longitude and asks
   * only for `hourly=temperature_2m`: no unit preferences, no current or daily block.
   */
  lemma WeatherUrlParameters(latitude: real, longitude: real, show: real -> string)
    requires '&' !in show(latitude) && '&' !in show(longitude)
    ensures var url := WeatherUrl(latitude, longitude, show);
      url[..|BaseWeatherUrl| + 1] == BaseWeatherUrl + "?"
      && url[|BaseWeatherUrl| + 1..] == WeatherQuery(show(latitude), show(longitude))
    ensures Split(WeatherQuery(show(latitude), show(longitude)), '&')
         == ["latitude=" + show(latitude), "longitude=" + show(longitude), "hourly=temperature_2m"]
  {
    var lat := "latitude=" + show(latitude);
    var lon := "longitude=" + show(longitude);
    var hourly := "hourly=temperature_2m";
    var query := WeatherQuery(show(latitude), show(longitude));
    SplitThreeFields(lat, lon, hourly, '&');
  }

  /** `fetchWeather`: the body of the forecast response for the coordinate pair. */
  function FetchWeather(latitude: real, longitude: real, show: real -> string, fetch: string -> Response<Forecast>): (r: Result<Forecast, string>)
    ensures var res := fetch(WeatherUrl(latitude, longitude, show));
      && (res.ok ==> r == Success(res.body))
      && (!res.ok ==> r == Failure(HttpError(res.status)))
  {
    FetchJson(fetch(WeatherUrl(latitude, longitude, show)))
  }

  /**
   * `fetchWeatherForCity`: geocode, then fetch the forecast for the first result's
   * coordinates. A failure of either step is the result's failure, unchanged.
   */
  function FetchWeatherForCity(
    city: string, encode: string -> string, show: real -> string,
    fetchGeo: string -> Response<GeoBody>, fetchForecast: string -> Response<Forecast>): (r: Result<CityWeather, string>)
    ensures var coords := FetchCoordinates(city, encode, fetchGeo);
      && (coords.Failure? ==> r == Failure(coords.error))
      && (coords.Success? ==>
            var p := coords.value;
            var forecast := FetchWeather(p.latitude, p.longitude, show, fetchForecast);
            && (forecast.Failure? ==> r == Failure(forecast.error))
            && (forecast.Success? ==> r == Success(CityWeather(CityLocation(p.name, p.country, p.latitude, p.longitude), forecast.value))))
  {
    var coords := FetchCoordinates(city, encode, fetchGeo);
    if coords.Failure? then Failure(coords.error)
    else
      var p := coords.value;
      var forecast := FetchWeather(p.latitude, p.longitude, show, fetchForecast);
      if forecast.Failure? then Failure(forecast.error)
      else Success(CityWeather(CityLocation(p.name, p.country, p.latitude, p.longitude), forecast.value))
  }

  /**
   * A successful city lookup reports the first geocoding result's name, country
   * and coordinates, and its forecast is the body served for exactly those coordinates.
   */
  lemma CityWeatherUsesFirstResult(
    city: string, encode: string -> string, show: real -> string,
    fetchGeo: string -> Response<GeoBody>, fetchForecast: string -> Response<Forecast>)
    requires FetchWeatherForCity(city, encode, show, fetchGeo, fetchForecast).Success?
    ensures var geo := fetchGeo(GeocodingUrl(city, encode));
      var w := FetchWeatherForCity(city, encode, show, fetchGeo, fetchForecast).value;
      && geo.ok && geo.body.results.Some? && |geo.body.results.value| > 0
      && var p := geo.body.results.value[0];
      && w.location == CityLocation(p.name, p.country, p.latitude, p.longitude)
      && fetchForecast(WeatherUrl(p.latitude, p.longitude, show)).ok
      && w.forecast == fetchForecast(WeatherUrl(p.latitude, p.longitude, show)).body
  {
  }

  /** A city the geocoder does not know fails with "City not found", whatever the forecast service would say. */
  lemma UnknownCityFails(
    city: string, encode: string -> string, show: real -> string,
    fetchGeo: string -> Response<GeoBody>, fetchForecast: string -> Response<Forecast>)
    requires fetchGeo(GeocodingUrl(city, encode)).ok
    requires fetchGeo(GeocodingUrl(city, encode)).body.results in {None, Some([])}
    ensures FetchWeatherForCity(city, encode, show, fetchGeo, fetchForecast) == Failure(CityNotFound)
  {
  }
}
