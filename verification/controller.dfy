/**
 The two places where the page decides whether to talk to the weather
 provider: the search handler, run on a click of the search button or on
 Enter in the city field, and the start-up branch run once the document
 has loaded. The API key is a parameter rather than the constant of the
 script, so that both of its values can be reasoned about.
 */
module Controller {
  import opened Wrappers
  import opened Text
  import opened Display
  import opened Weather

  /** The key value the script ships with; it means "no key configured". */
  const Placeholder: string := "YOUR_API_KEY_HERE"

  /** The city fetched at start-up when a key is configured. */
  const DefaultCity: string := "London"

  /** The city field's new value, the screen, and the city a request was
      issued for, if any (`getWeatherData` issues at most one). */
  datatype SearchResult = SearchResult(input: string, screen: Screen, request: Option<string>)

  /** `handleSearch`. A blank field is ignored. Without a key the key
      message is shown and the field keeps its text, since the handler
      returns before clearing it. With a key, `getWeatherData` runs up to
      its first `await` (showing the loading panel), one request for the
      trimmed city goes out, and the field is cleared. */
  function HandleSearch(input: string, key: string, s: Screen): (r: SearchResult)
    ensures AllWhitespace(input) ==> r == SearchResult(input, s, None)
    ensures !AllWhitespace(input) && key == Placeholder ==>
      && r.input == input
      && r.request == None
      && Visible(r.screen.panels) == {ErrorPanel}
      && r.screen.panels.message == Some(KeyMissing)
      && r.screen.slots == s.slots
    ensures !AllWhitespace(input) && key != Placeholder ==>
      && r.input == []
      && r.request == Some(Trim(input))
      && Visible(r.screen.panels) == {LoadingPanel}
      && r.screen.panels.message == s.panels.message
      && r.screen.slots == s.slots
    ensures r.request.Some? ==> r.request.value != [] && Trimmed(r.request.value)
  {
    var city := Trim(input);
    TrimEmptyIff(input);
    if city == [] then SearchResult(input, s, None)
    else if key == Placeholder then
      SearchResult(input, s.(panels := ShowApiKeyMessage(s.panels)), None)
    else
      SearchResult([], s.(panels := ShowLoading(s.panels)), Some(city))
  }

  /** The screen after start-up, and the city requested, if any. */
  datatype StartupResult = StartupResult(screen: Screen, request: Option<string>)

  /** The `DOMContentLoaded` branch: with a key, fetch the default city;
      without one, show the demo content. Exactly one of the two happens,
      and the key alone decides which. */
  function Startup(key: string, s: Screen): (r: StartupResult)
    ensures r.request.Some? <==> key != Placeholder
    ensures r.request.Some? ==>
      && r.request == Some(DefaultCity)
      && Visible(r.screen.panels) == {LoadingPanel}
      && r.screen.slots == s.slots
    ensures r.request.None? ==>
      && Visible(r.screen.panels) == {ContentPanel}
      && r.screen.slots == Shows(DemoView)
  {
    if key != Placeholder then
      StartupResult(s.(panels := ShowLoading(s.panels)), Some(DefaultCity))
    else
      StartupResult(ShowDemoData(s), None)
  }

  /** The default city is a request `handleSearch` could have issued: it is
      non-blank and already trimmed. */
  lemma DefaultCityIsTrimmed()
    ensures DefaultCity != [] && Trimmed(DefaultCity)
    ensures Trim(DefaultCity) == DefaultCity
  {
    TrimStripsPadding([], DefaultCity, []);
    assert [] + DefaultCity + [] == DefaultCity;
  }

  /** Searching again for what a search just requested requests it again:
      the issued city is a fixed point of the trimming. */
  lemma SearchForIssuedCity(input: string, key: string, s: Screen)
    requires key != Placeholder && !AllWhitespace(input)
    ensures var r := HandleSearch(input, key, s);
      HandleSearch(r.request.value, key, s).request == r.request
  {
    var city := HandleSearch(input, key, s).request.value;
    TrimIdempotent(input);
    TrimEmptyIff(city);
  }
}
