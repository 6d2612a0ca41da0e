/**
 The three display panels of the page (loading indicator, weather
 information, error message) and the functions that toggle them. Each
 panel is shown or hidden through its `display` style; the error panel also
 carries the message that was last written into it.
 */
module Display {
  import opened Wrappers

  /** The two messages the error panel can be given. */
  datatype ErrorKind =
    | NotFound    // "City not found. Please try again."
    | KeyMissing  // the instructions for adding an API key

  datatype Panel = LoadingPanel | ContentPanel | ErrorPanel

  /** Visibility of the three panels. `message` is the text last written
      into the error panel; `None` stands for whatever the page's own markup
      put there before any error was shown. */
  datatype Panels = Panels(loading: bool, content: bool, error: bool, message: Option<ErrorKind>)

  /** The panels currently shown. */
  function Visible(p: Panels): set<Panel>
  {
    (if p.loading then {LoadingPanel} else {})
    + (if p.content then {ContentPanel} else {})
    + (if p.error then {ErrorPanel} else {})
  }

  /** The state every entry operation establishes: one panel on screen. */
  predicate ExactlyOne(p: Panels)
  {
    |Visible(p)| == 1
  }

  /** `hideLoading`: the loading panel goes away, nothing else changes. */
  function HideLoading(p: Panels): (r: Panels)
    ensures Visible(r) == Visible(p) - {LoadingPanel}
    ensures r.message == p.message
  {
    p.(loading := false)
  }

  /** `hideError`: the error panel goes away, its text stays. */
  function HideError(p: Panels): (r: Panels)
    ensures Visible(r) == Visible(p) - {ErrorPanel}
    ensures r.message == p.message
  {
    p.(error := false)
  }

  /** `showLoading`: only the loading indicator is shown. */
  function ShowLoading(p: Panels): (r: Panels)
    ensures Visible(r) == {LoadingPanel}
    ensures r.message == p.message
  {
    p.(loading := true, content := false, error := false)
  }

  /** Makes the weather-information panel visible (`weatherInfo.style.display = 'block'`). */
  function RevealContent(p: Panels): (r: Panels)
    ensures Visible(r) == Visible(p) + {ContentPanel}
    ensures r.message == p.message
  {
    p.(content := true)
  }

  /** `displayWeatherData` and `showDemoData` as far as the panels go: hide
      loading, hide the error, reveal the content. */
  function ShowContent(p: Panels): (r: Panels)
    ensures Visible(r) == {ContentPanel}
    ensures r.message == p.message
  {
    RevealContent(HideError(HideLoading(p)))
  }

  /** `showError` and `showApiKeyMessage`: hide loading, hide the content,
      show the error panel holding the message of the given kind. */
  function ShowErrorOf(p: Panels, kind: ErrorKind): (r: Panels)
    ensures Visible(r) == {ErrorPanel}
    ensures r.message == Some(kind)
  {
    HideLoading(p).(content := false, error := true, message := Some(kind))
  }

  /** `showError`: the "not found" message, alone on screen. */
  function ShowError(p: Panels): (r: Panels)
    ensures Visible(r) == {ErrorPanel} && r.message == Some(NotFound)
  {
    ShowErrorOf(p, NotFound)
  }

  /** `showApiKeyMessage`: the key instructions, alone on screen. */
  function ShowApiKeyMessage(p: Panels): (r: Panels)
    ensures Visible(r) == {ErrorPanel} && r.message == Some(KeyMissing)
  {
    ShowErrorOf(p, KeyMissing)
  }

  /** Whatever was on screen before, each entry operation leaves exactly one
      panel visible, and the panel it leaves depends on the operation only. */
  lemma EntryOperationsShowOnePanel(p: Panels)
    ensures ExactlyOne(ShowLoading(p))
    ensures ExactlyOne(ShowContent(p))
    ensures ExactlyOne(ShowError(p))
    ensures ExactlyOne(ShowApiKeyMessage(p))
  {
  }

  /** The two error entries differ only in the message they leave, and the
      result of either no longer depends on the state it started from. */
  lemma ErrorEntriesForgetThePast(p: Panels, q: Panels)
    ensures ShowError(p) == ShowError(q)
    ensures ShowApiKeyMessage(p) == ShowApiKeyMessage(q)
    ensures ShowError(p) != ShowApiKeyMessage(p)
  {
  }
}
