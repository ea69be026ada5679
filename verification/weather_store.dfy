/**
 * The weather store: six fields that the store's actions overwrite with
 * `set(...)`. Each `set` merges the given fields into the state and hands
 * the new state to every subscriber; the ghost log `published` records
 * those states in order.
 *
 * The two network steps of `fetchWeather` are the oracles `getCoordinates`
 * and `getWeather`, whose outcome (a value, or the message of the error
 * they throw) is given; the store attaches no behaviour of its own to them.
 */
module WeatherStore {
  import opened Wrappers
  import opened WeatherData

  /** The units the store starts with: Celsius, km/h, millimetres. */
  function DefaultUnits(): (u: Units)
    ensures u.Keys == {TemperatureUnitKey, WindSpeedUnitKey, PrecipitationUnitKey}
    ensures UnitIs(u, TemperatureUnitKey, "celsius")
    ensures UnitIs(u, WindSpeedUnitKey, "kmh")
    ensures UnitIs(u, PrecipitationUnitKey, "mm")
  {
    map[TemperatureUnitKey := "celsius", WindSpeedUnitKey := "kmh", PrecipitationUnitKey := "mm"]
  }

  /** The state the store is created with. */
  function InitialState(): (s: StoreState)
    ensures s.weatherData.None? && s.location.None?
    ensures !s.isFetching && !s.isError && s.errorMessage.None?
    ensures s.units == DefaultUnits()
  {
    StoreState(None, false, false, None, None, DefaultUnits())
  }

  // ------------------------------------------------------------ transitions

  /** `setUnits(newUnits)`: `{...units, ...newUnits}`, and the forecast is discarded. */
  function WithUnits(s: StoreState, newUnits: Units): (t: StoreState)
    ensures t.units.Keys == s.units.Keys + newUnits.Keys
    ensures forall k :: k in newUnits ==> t.units[k] == newUnits[k]
    ensures forall k :: k in s.units && k !in newUnits ==> t.units[k] == s.units[k]
    ensures t.weatherData.None?
    ensures t.location == s.location && t.isFetching == s.isFetching
    ensures t.isError == s.isError && t.errorMessage == s.errorMessage
  {
    s.(units := s.units + newUnits, weatherData := None)
  }

  /** The first `set` of `fetchWeather`: fetching, with no error. */
  function Pending(s: StoreState): (t: StoreState)
    ensures t.isFetching && !t.isError && t.errorMessage.None?
    ensures t.weatherData == s.weatherData && t.location == s.location && t.units == s.units
  {
    s.(isFetching := true, isError := false, errorMessage := None)
  }

  /**
   * The two calls of `fetchWeather`: geocode the name, then ask for the
   * forecast at the place's coordinates in the given units. The first call
   * to throw decides the error; the second is not made when the first throws.
   */
  function Lookup(
    name: string, units: Units,
    getCoordinates: string -> Result<Place, string>,
    getWeather: (real, real, Units) -> Result<Forecast, string>): (r: Result<(Place, Forecast), string>)
    ensures getCoordinates(name).Failure? ==> r == Failure(getCoordinates(name).error)
    ensures getCoordinates(name).Success? ==>
      var p := getCoordinates(name).value;
      var w := getWeather(p.latitude, p.longitude, units);
      && (w.Failure? ==> r == Failure(w.error))
      && (w.Success? ==> r == Success((p, w.value)))
  {
    match getCoordinates(name)
    case Failure(e) => Failure(e)
    case Success(p) =>
      match getWeather(p.latitude, p.longitude, units)
      case Failure(e) => Failure(e)
      case Success(w) => Success((p, w))
  }

  /**
   * The last `set` of `fetchWeather`. On success the place and its forecast
   * are stored together; on failure the error is recorded and the previous
   * place and forecast stay.
   */
  function Settled(s: StoreState, outcome: Result<(Place, Forecast), string>): (t: StoreState)
    ensures !t.isFetching && t.units == s.units
    ensures outcome.Success? ==>
      && t.location == Some(outcome.value.0) && t.weatherData == Some(outcome.value.1)
      && !t.isError && t.errorMessage == s.errorMessage
    ensures outcome.Failure? ==>
      && t.isError && t.errorMessage == Some(outcome.error)
      && t.location == s.location && t.weatherData == s.weatherData
  {
    match outcome
    case Success((p, w)) => s.(location := Some(p), weatherData := Some(w), isFetching := false, isError := false)
    case Failure(e) => s.(isFetching := false, isError := true, errorMessage := Some(e))
  }

  /** `fetchWeather(locationName)` from start to end, with the oracles' outcomes given. */
  function Fetched(
    s: StoreState, locationName: string,
    getCoordinates: string -> Result<Place, string>,
    getWeather: (real, real, Units) -> Result<Forecast, string>): (t: StoreState)
    ensures locationName == "" ==> t == s
    ensures locationName != "" ==>
      t == Settled(Pending(s), Lookup(locationName, s.units, getCoordinates, getWeather))
  {
    if locationName == "" then s
    else
      var p := Pending(s);
      Settled(p, Lookup(locationName, p.units, getCoordinates, getWeather))
  }

  /** `clearWeatherData`: forget the place and its forecast. */
  function Cleared(s: StoreState): (t: StoreState)
    ensures t.weatherData.None? && t.location.None?
    ensures t.isFetching == s.isFetching && t.isError == s.isError
    ensures t.errorMessage == s.errorMessage && t.units == s.units
  {
    s.(weatherData := None, location := None)
  }

  /** `clearError`: forget the error. */
  function ErrorCleared(s: StoreState): (t: StoreState)
    ensures !t.isError && t.errorMessage.None?
    ensures t.weatherData == s.weatherData && t.location == s.location
    ensures t.isFetching == s.isFetching && t.units == s.units
  {
    s.(isError := false, errorMessage := None)
  }

  // -------------------------------------------------------------- invariant

  /**
   * What every state the actions reach satisfies, run one at a time: never
   * fetching and failed at once, a message exactly when failed, and never a
   * forecast without the place it is for.
   */
  ghost predicate Consistent(s: StoreState) {
    && !(s.isFetching && s.isError)
    && (s.isError <==> s.errorMessage.Some?)
    && (s.weatherData.Some? ==> s.location.Some?)
  }

  lemma InitialStateConsistent()
    ensures Consistent(InitialState())
  {
  }

  /** Every action keeps the store consistent. */
  lemma ActionsPreserveConsistency(
    s: StoreState, newUnits: Units, locationName: string,
    getCoordinates: string -> Result<Place, string>,
    getWeather: (real, real, Units) -> Result<Forecast, string>)
    requires Consistent(s)
    ensures Consistent(WithUnits(s, newUnits))
    ensures Consistent(Pending(s))
    ensures Consistent(Fetched(s, locationName, getCoordinates, getWeather))
    ensures Consistent(Cleared(s))
    ensures Consistent(ErrorCleared(s))
  {
  }

  /**
   * A failed refresh after a successful one leaves the earlier place and
   * forecast on display, with the new error recorded.
   */
  lemma FailedRefreshKeepsLastGoodData(
    s: StoreState, first: string, second: string,
    getCoordinates: string -> Result<Place, string>,
    getWeather: (real, real, Units) -> Result<Forecast, string>)
    requires first != "" && second != ""
    requires Lookup(first, s.units, getCoordinates, getWeather).Success?
    requires Lookup(second, s.units, getCoordinates, getWeather).Failure?
    ensures var good := Fetched(s, first, getCoordinates, getWeather);
      var bad := Fetched(good, second, getCoordinates, getWeather);
      && bad.location == good.location == Some(Lookup(first, s.units, getCoordinates, getWeather).value.0)
      && bad.weatherData == good.weatherData == Some(Lookup(first, s.units, getCoordinates, getWeather).value.1)
      && bad.isError && bad.errorMessage == Some(Lookup(second, s.units, getCoordinates, getWeather).error)
  {
  }

  /** Changing units then fetching asks for the forecast in the new units. */
  lemma FetchUsesCurrentUnits(
    s: StoreState, newUnits: Units, locationName: string,
    getCoordinates: string -> Result<Place, string>,
    getWeather: (real, real, Units) -> Result<Forecast, string>)
    requires locationName != ""
    requires getCoordinates(locationName).Success?
    ensures var p := getCoordinates(locationName).value;
      var w := getWeather(p.latitude, p.longitude, s.units + newUnits);
      w.Success? ==> Fetched(WithUnits(s, newUnits), locationName, getCoordinates, getWeather).weatherData == Some(w.value)
  {
  }

  // ------------------------------------------------------------------ store

  /** The store object. Fields are the source's; `published` is the subscribers' view. */
  class Store {
    var weatherData: Option<Forecast>
    var isFetching: bool
    var isError: bool
    var errorMessage: Option<string>
    var location: Option<Place>
    var units: Units

    /** Every state handed to subscribers, oldest first; the last one is current. */
    ghost var published: seq<StoreState>

    /** `get()`: the current state. */
    function State(): StoreState
      reads this
    {
      StoreState(weatherData, isFetching, isError, errorMessage, location, units)
    }

    ghost predicate Valid()
      reads this
    {
      && |published| > 0
      && published[|published| - 1] == State()
      && Consistent(State())
    }

    constructor ()
      ensures Valid() && State() == InitialState() && published == [InitialState()]
    {
      weatherData, isFetching, isError, errorMessage, location, units :=
        None, false, false, None, None, DefaultUnits();
      published := [InitialState()];
    }

    /** `setUnits`: merge the given unit keys, discard the forecast. */
    method SetUnits(newUnits: Units)
      requires Valid()
      modifies this
      ensures Valid()
      ensures State() == WithUnits(old(State()), newUnits)
      ensures published == old(published) + [State()]
    {
      units, weatherData := units + newUnits, None;
      published := published + [State()];
    }

    /** `fetchWeather`: a falsy (empty) name does nothing; otherwise pending, then settled. */
    method FetchWeather(
      locationName: string,
      getCoordinates: string -> Result<Place, string>,
      getWeather: (real, real, Units) -> Result<Forecast, string>)
      requires Valid()
      modifies this
      ensures Valid()
      ensures State() == Fetched(old(State()), locationName, getCoordinates, getWeather)
      ensures locationName == "" ==> published == old(published)
      ensures locationName != "" ==> published == old(published) + [Pending(old(State())), State()]
    {
      if locationName == "" {
        return;
      }
      isFetching, isError, errorMessage := true, false, None;
      published := published + [State()];

      var geoData := getCoordinates(locationName);
      if geoData.Failure? {
        isFetching, isError, errorMessage := false, true, Some(geoData.error);
        published := published + [State()];
        return;
      }
      var state := State();
      var forecast := getWeather(geoData.value.latitude, geoData.value.longitude, state.units);
      if forecast.Failure? {
        isFetching, isError, errorMessage := false, true, Some(forecast.error);
      } else {
        location, weatherData, isFetching, isError := Some(geoData.value), Some(forecast.value), false, false;
      }
      published := published + [State()];
    }

    /** `clearWeatherData`. */
    method ClearWeatherData()
      requires Valid()
      modifies this
      ensures Valid()
      ensures State() == Cleared(old(State()))
      ensures published == old(published) + [State()]
    {
      weatherData, location := None, None;
      published := published + [State()];
    }

    /** `clearError`. */
    method ClearError()
      requires Valid()
      modifies this
      ensures Valid()
      ensures State() == ErrorCleared(old(State()))
      ensures published == old(published) + [State()]
    {
      isError, errorMessage := false, None;
      published := published + [State()];
    }
  }
}
