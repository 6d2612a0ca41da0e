/**
 What one weather request does to the screen: it enters the loading state,
 and when the provider's answer arrives it either renders the reading into
 the content slots and shows them, or shows the "not found" error. The
 network, `fetch` and `response.json()` are abstracted into a `Response`
 value that stands for how the request ended.
 */
module Weather {
  import opened Wrappers
  import opened Display
  import Icons

  /** The fields of a provider answer that the page displays. Numbers are
      kept as reals; their rounding and text formatting are not modelled. */
  datatype Reading = Reading(
    name: string,
    country: string,
    temp: real,
    feelsLike: real,
    description: string,
    icon: string,
    visibility: real,
    humidity: real,
    windSpeed: real)

  /** What the detail slots (temperature, visibility, humidity, wind,
      feels-like) show: the fixed demo texts or the measured numbers. */
  datatype Figures =
    | DemoFigures(tempText: string, visibilityText: string, humidityText: string,
                  windSpeedText: string, feelsLikeText: string)
    | Measured(temp: real, feelsLike: real, visibility: real, humidity: real, windSpeed: real)

  /** The text and icon slots of the weather-information panel. */
  datatype View = View(cityLabel: string, description: string, iconClass: string, figures: Figures)

  /** What the content slots currently hold: the page's own markup, a
      complete view, or whatever `displayWeatherData` had written when it
      threw on a missing object in the answer. That may be nothing at all:
      a missing `sys` throws before the first slot is written. */
  datatype Slots = PageMarkup | Shows(view: View) | PartlyWritten

  /** Everything the controller writes: panel visibility and content slots. */
  datatype Screen = Screen(panels: Panels, slots: Slots)

  /** How a request ended. `Unparseable`: `response.json()` rejected.
      `Incomplete`: the JSON is null or lacks one of the objects
      `displayWeatherData` reads a field of (`sys`, `main`, `weather[0]`,
      `wind`), so it threw after hiding the loading and error panels. */
  datatype Body = Unparseable | Incomplete | Data(reading: Reading)

  datatype Response =
    | NetworkFailure
    | Http(status: int, body: Body)

  /** `response.ok`: the status is in the range 200 to 299. */
  predicate IsOk(status: int)
  {
    200 <= status <= 299
  }

  /** The request ends with the reading displayed. */
  predicate Succeeds(resp: Response)
  {
    resp.Http? && IsOk(resp.status) && resp.body.Data?
  }

  /** The answer is accepted but `displayWeatherData` throws part-way. */
  predicate BreaksMidDisplay(resp: Response)
  {
    resp.Http? && IsOk(resp.status) && resp.body.Incomplete?
  }

  /** The content `displayWeatherData` writes for a reading. */
  function Render(r: Reading): View
  {
    View(r.name + ", " + r.country, r.description, Icons.IconClass(r.icon),
         Measured(r.temp, r.feelsLike, r.visibility, r.humidity, r.windSpeed))
  }

  /** The fixed content of `showDemoData`. */
  const DemoView: View := View("Demo City", "Demo weather data", "fas fa-sun sunny",
    DemoFigures("25°C", "10 km", "65%", "12 km/h", "28°C"))

  /** `showDemoData`: the demo content, alone on screen. */
  function ShowDemoData(s: Screen): (r: Screen)
    ensures Visible(r.panels) == {ContentPanel} && r.panels.message == s.panels.message
    ensures r.slots == Shows(DemoView)
  {
    Screen(ShowContent(s.panels), Shows(DemoView))
  }

  /** `displayWeatherData`: the reading's content, alone on screen. */
  function DisplayWeatherData(s: Screen, reading: Reading): (r: Screen)
    ensures Visible(r.panels) == {ContentPanel} && r.panels.message == s.panels.message
    ensures r.slots.Shows? && r.slots.view.iconClass == Icons.IconClass(reading.icon)
    ensures r.slots.view.cityLabel == reading.name + ", " + reading.country
    ensures r.slots.view.description == reading.description
    ensures r.slots.view.figures ==
      Measured(reading.temp, reading.feelsLike, reading.visibility, reading.humidity, reading.windSpeed)
  {
    Screen(ShowContent(s.panels), Shows(Render(reading)))
  }

  /** The `try`/`catch` tail of `getWeatherData` (and of
      `getWeatherByCoords`, which differs only in the URL): the answer is
      rendered if the status is ok and the body is complete, and every other
      ending, thrown or not, shows the "not found" error. */
  function Complete(s: Screen, resp: Response): (r: Screen)
    ensures Succeeds(resp) ==>
      && Visible(r.panels) == {ContentPanel}
      && r.panels.message == s.panels.message
      && r.slots == Shows(Render(resp.body.reading))
    ensures !Succeeds(resp) ==>
      && Visible(r.panels) == {ErrorPanel}
      && r.panels.message == Some(NotFound)
      && r.slots == (if BreaksMidDisplay(resp) then PartlyWritten else s.slots)
  {
    match resp
    case NetworkFailure => s.(panels := ShowError(s.panels))
    case Http(status, body) =>
      if !IsOk(status) then s.(panels := ShowError(s.panels))
      else
        match body
        case Unparseable => s.(panels := ShowError(s.panels))
        case Incomplete =>
          // displayWeatherData threw after hideLoading and hideError
          var p := HideError(HideLoading(s.panels));
          Screen(ShowError(p), PartlyWritten)
        case Data(reading) => DisplayWeatherData(s, reading)
  }

  /** The screen right after a request is issued, and the screen once its
      answer has arrived with nothing else happening in between. */
  datatype Trace = Trace(entered: Screen, finished: Screen)

  /** `getWeatherData(city)` / `getWeatherByCoords(lat, lon)` run without
      interruption: loading alone first, then content or the error. */
  function Fetch(s: Screen, resp: Response): (t: Trace)
    ensures Visible(t.entered.panels) == {LoadingPanel} && t.entered.slots == s.slots
    ensures ExactlyOne(t.finished.panels)
    ensures t.finished.panels.content <==> Succeeds(resp)
    ensures t.finished.panels.error <==> t.finished.panels.message == Some(NotFound) && !Succeeds(resp)
  {
    var entered := s.(panels := ShowLoading(s.panels));
    Trace(entered, Complete(entered, resp))
  }

  /** A non-ok status, a body that is not JSON, a body missing a field and a
      network failure all leave the same panels behind. */
  lemma FailuresLookAlike(s: Screen, status: int, body: Body, okStatus: int)
    requires !IsOk(status) && IsOk(okStatus)
    ensures Complete(s, NetworkFailure).panels == Complete(s, Http(status, body)).panels
    ensures Complete(s, Http(status, body)).panels == Complete(s, Http(okStatus, Unparseable)).panels
    ensures Complete(s, Http(okStatus, Unparseable)).panels == Complete(s, Http(okStatus, Incomplete)).panels
  {
  }

  /** The demo content uses the clear-day icon of the table, not the
      fallback class. */
  lemma DemoShowsClearDayIcon()
    ensures DemoView.iconClass == Icons.IconClass("01d")
    ensures DemoView.iconClass != Icons.DefaultIcon
  {
  }
}
