/**
 * The search input controller: the text typed so far and whether the
 * suggestion dropdown is open, the four handlers that change them, and the
 * conditions that enable the buttons and show the dropdown's panels.
 *
 * The store members the handlers call (`searchLocations`, `clearSearchResults`,
 * `fetchWeatherForLocation`) and the geolocation hook are not given any
 * behaviour: each handler returns the call it issues as a `StoreCall` value,
 * takes as a parameter whether that call let it continue, and the store's
 * `searchResults` list is an input.
 */
module SearchBar {
  import opened Text
  import opened WeatherData

  /** The outside call a handler makes, if any. */
  datatype StoreCall =
    | SearchLocations(query: string)
    | ClearSearchResults
    | FetchWeatherForLocation(location: Place)
    | UseCurrentLocation
    | NoCall

  /**
   * How a store call ended, as the handler sees it: it returned (or its
   * promise resolved), or it threw (or the promise the handler awaits
   * rejected), in which case the rest of the handler does not run.
   */
  datatype CallOutcome = Completed | Threw

  /**
   * A search is worth running once the trimmed text is longer than two
   * UTF-16 code units (JavaScript's `length`).
   */
  predicate LongEnough(inputValue: string) {
    Utf16Length(Trim(inputValue)) > 2
  }

  /**
   * Two characters outside the Basic Multilingual Plane, such as two emoji,
   * already count as four and start a search.
   */
  lemma AstralPairIsLongEnough(c: char)
    requires c as int > 0xFFFF
    ensures LongEnough([c, c])
  {
    var s := [c, c];
    assert !IsSpace(c);
    assert TrimStart(s) == s;
    assert TrimEnd(s) == s;
  }

  /** The dropdown is only ever open over text long enough to have been searched. */
  predicate DropdownMatchesInput(inputValue: string, showDropdown: bool) {
    showDropdown ==> LongEnough(inputValue)
  }

  // ------------------------------------------------------------ predicates

  /** The submit button: disabled while fetching or when the input is only white space. */
  function SubmitDisabled(isFetching: bool, inputValue: string): (disabled: bool)
    ensures disabled <==> isFetching || forall k :: 0 <= k < |inputValue| ==> IsSpace(inputValue[k])
  {
    TrimEmptyIff(inputValue);
    isFetching || Trim(inputValue) == ""
  }

  /** The "use my location" button: disabled while fetching. */
  predicate LocationDisabled(isFetching: bool) {
    isFetching
  }

  /** The results list is drawn when the dropdown is open and there are results. */
  predicate ShowsResults(showDropdown: bool, searchResults: seq<Place>) {
    showDropdown && |searchResults| > 0
  }

  /** "No locations found" is drawn when the dropdown is open over long text, no results, no fetch. */
  predicate ShowsNoResults(showDropdown: bool, searchResults: seq<Place>, inputValue: string, isFetching: bool) {
    showDropdown && |searchResults| == 0 && LongEnough(inputValue) && !isFetching
  }

  /** The two dropdown panels are never drawn together, and a closed dropdown draws neither. */
  lemma PanelsExclusive(showDropdown: bool, searchResults: seq<Place>, inputValue: string, isFetching: bool)
    ensures !(ShowsResults(showDropdown, searchResults)
              && ShowsNoResults(showDropdown, searchResults, inputValue, isFetching))
    ensures !showDropdown ==>
      !ShowsResults(showDropdown, searchResults)
      && !ShowsNoResults(showDropdown, searchResults, inputValue, isFetching)
  {
  }

  /**
   * With the controller's invariant, an open dropdown outside a fetch always
   * draws exactly one of its two panels.
   */
  lemma OpenDropdownDrawsOnePanel(showDropdown: bool, searchResults: seq<Place>, inputValue: string, isFetching: bool)
    requires DropdownMatchesInput(inputValue, showDropdown)
    requires showDropdown && !isFetching
    ensures ShowsResults(showDropdown, searchResults)
      != ShowsNoResults(showDropdown, searchResults, inputValue, isFetching)
  {
  }

  /** While fetching, both buttons are disabled, whatever has been typed. */
  lemma FetchingDisablesButtons(inputValue: string)
    ensures SubmitDisabled(true, inputValue) && LocationDisabled(true)
  {
  }

  /** Outside a fetch, an open dropdown means the submit button is enabled. */
  lemma OpenDropdownEnablesSubmit(inputValue: string, showDropdown: bool)
    requires DropdownMatchesInput(inputValue, showDropdown)
    ensures showDropdown ==> !SubmitDisabled(false, inputValue)
  {
  }

  /**
   * Submitting acts exactly when the submit button is enabled outside a fetch
   * and there is a result to pick.
   */
  lemma SubmitActsWhenEnabled(inputValue: string, searchResults: seq<Place>)
    ensures (Trim(inputValue) != "" && |searchResults| > 0)
      <==> (!SubmitDisabled(false, inputValue) && |searchResults| > 0)
  {
  }

  // ------------------------------------------------------------ controller

  /** The component's two pieces of state. */
  class Controller {
    var inputValue: string
    var showDropdown: bool

    /** The dropdown is open only over searchable text. */
    ghost predicate Valid()
      reads this
    {
      DropdownMatchesInput(inputValue, showDropdown)
    }

    /** `useState("")` and `useState(false)`. */
    constructor ()
      ensures Valid() && inputValue == "" && !showDropdown
    {
      inputValue, showDropdown := "", false;
    }

    /**
     * `handleInputChange`: keep the raw text; search with the trimmed text and
     * then open the dropdown when it is long enough, otherwise clear the
     * results and then close the dropdown. If the store call throws, the
     * dropdown keeps its state; only a failed clear can leave it open over
     * short text.
     */
    method HandleInputChange(value: string, outcome: CallOutcome) returns (call: StoreCall)
      modifies this
      ensures inputValue == value
      ensures call == if LongEnough(value) then SearchLocations(Trim(value)) else ClearSearchResults
      ensures outcome.Completed? ==> (showDropdown <==> LongEnough(value))
      ensures outcome.Threw? ==> showDropdown == old(showDropdown)
      ensures outcome.Completed? || LongEnough(value) || !old(showDropdown) ==> Valid()
    {
      inputValue := value;
      if LongEnough(value) {
        call := SearchLocations(Trim(value));
        if outcome.Completed? {
          showDropdown := true;
        }
      } else {
        call := ClearSearchResults;
        if outcome.Completed? {
          showDropdown := false;
        }
      }
    }

    /**
     * `handleSelectLocation`: load the chosen place; once that has completed,
     * empty the input and close the dropdown.
     */
    method HandleSelectLocation(location: Place, outcome: CallOutcome) returns (call: StoreCall)
      modifies this
      ensures call == FetchWeatherForLocation(location)
      ensures outcome.Completed? ==> inputValue == "" && !showDropdown
      ensures outcome.Threw? ==> inputValue == old(inputValue) && showDropdown == old(showDropdown)
      ensures outcome.Completed? || old(Valid()) ==> Valid()
    {
      call := FetchWeatherForLocation(location);
      if outcome.Completed? {
        inputValue := "";
        showDropdown := false;
      }
    }

    /**
     * `handleSearch` (form submit): select the first result when the trimmed
     * input is non-empty and there are results; otherwise do nothing.
     */
    method HandleSearch(searchResults: seq<Place>, outcome: CallOutcome) returns (call: StoreCall)
      modifies this
      ensures Trim(old(inputValue)) != "" && |searchResults| > 0 ==>
        && call == FetchWeatherForLocation(searchResults[0])
        && (outcome.Completed? ==> inputValue == "" && !showDropdown)
        && (outcome.Threw? ==> inputValue == old(inputValue) && showDropdown == old(showDropdown))
      ensures !(Trim(old(inputValue)) != "" && |searchResults| > 0) ==>
        call == NoCall && inputValue == old(inputValue) && showDropdown == old(showDropdown)
      ensures old(Valid()) ==> Valid()
    {
      if Trim(inputValue) != "" && |searchResults| > 0 {
        call := HandleSelectLocation(searchResults[0], outcome);
      } else {
        call := NoCall;
      }
    }

    /**
     * `handleUseMyLocation`: ask for the device position (the request is not
     * awaited), empty the input, close the dropdown.
     */
    method HandleUseMyLocation() returns (call: StoreCall)
      modifies this
      ensures Valid()
      ensures call == UseCurrentLocation
      ensures inputValue == "" && !showDropdown
    {
      call := UseCurrentLocation;
      inputValue := "";
      showDropdown := false;
    }
  }
}
