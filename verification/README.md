# Weather app controller — a Dafny model

The weather app is one browser script (`script.js`). It reads a city from a
text field and asks the OpenWeatherMap API for the current weather. It then
either writes the answer into the weather-information panel or shows an
error panel. The script has three panels (loading, weather information,
error). Its logic decides which one is shown, whether a request goes out at
all, and which icon class the answer gets. This project models that logic
as pure functions and proves what it promises:

- `Text` — `String.prototype.trim` as applied to the city field.
- `Display` — the panel record (three visibilities plus the error message
  kind) and the panel functions `showLoading`, `hideLoading`, `hideError`,
  `showError`, `showApiKeyMessage` and the panel part of
  `displayWeatherData` / `showDemoData`.
- `Icons` — the 18-entry icon table and its `'fas fa-sun'` fallback.
- `Weather` — the content slots, `showDemoData`, `displayWeatherData`, and
  the outcome of `getWeatherData` / `getWeatherByCoords`. How a request ends
  (network failure, HTTP status, body) is an input value.
- `Controller` — `handleSearch` and the start-up branch. The API key is a
  parameter, so both the placeholder key and a real key are covered.
- `Session` — start-up followed by any sequence of edits, searches and
  answers, with answers arriving in any order. It proves that from start-up
  on exactly one panel is visible. It also proves that a page without a key
  never issues a request.

The panels' visibility before start-up comes from HTML and CSS that are not
part of this model. Every result here therefore starts from an arbitrary
screen.

Behaviour of `script.js` kept as written:
- The city is trimmed first and the key is checked only for a non-blank
  city, so a blank search is ignored even without a key.
- Without a key the field keeps its text, because the handler returns
  before clearing it.
- A missing key is reported in the same error panel as a failed request,
  with a different message.
- A network failure, a non-ok status and a body that cannot be displayed
  all show the same "not found" message.
- The city is put into the URL without URL-encoding (URL building is left
  out).
- An answer that arrives late overwrites a newer one. Nothing ties an
  answer to the latest request, and `Session` allows any arrival order.

## Model

| member | source | states |
|---|---|---|
| Text.TrimStart | script.js:68 | the result is a suffix of the input, everything dropped is whitespace, and it does not start with whitespace |
| Text.TrimEnd | script.js:68 | the result is a prefix of the input, everything dropped is whitespace, and it does not end with whitespace |
| Text.Trim | script.js:68 | the result is a slice of the input with whitespace on both sides cut off, and neither of its ends is whitespace |
| Text.TrimEmptyIff | script.js:68-69 | the trimmed city is empty (falsy) exactly when the field holds only whitespace or nothing |
| Text.TrimStartPadding | script.js:68 | leading whitespace in front of a string not starting with whitespace is removed, and nothing more |
| Text.TrimEndPadding | script.js:68 | trailing whitespace behind a string not ending with whitespace is removed, and nothing more |
| Text.TrimStripsPadding | script.js:68 | trimming `lead + t + trail` gives back `t` for whitespace padding and an already trimmed `t` |
| Text.TrimIdempotent | script.js:68 | trimming twice equals trimming once |
| Display.HideLoading | script.js:178-180 | the loading panel is hidden and every other panel and the message stay as they were |
| Display.HideError | script.js:194-196 | the error panel is hidden and every other panel and the message stay as they were |
| Display.ShowLoading | script.js:171-175 | only the loading panel is visible, and the error text is kept |
| Display.RevealContent | script.js:124 | the weather-information panel is added to the visible panels and nothing else changes |
| Display.ShowContent | script.js:100-102 | after hideLoading, hideError and revealing the content, only the content panel is visible and the message is kept |
| Display.ShowErrorOf | script.js:183-186 | after hideLoading and hiding the content, only the error panel is visible and it holds the given message kind |
| Display.ShowError | script.js:183-191 | only the error panel is visible, holding the "not found" message |
| Display.ShowApiKeyMessage | script.js:145-154 | only the error panel is visible, holding the key-missing message |
| Display.EntryOperationsShowOnePanel | script.js:100-191 | from any prior state, showLoading, the content display, showError and showApiKeyMessage each leave exactly one panel visible |
| Display.ErrorEntriesForgetThePast | script.js:145-191 | the two error entries give a result that does not depend on the prior state, and they differ from each other only in the message |
| Icons.IconClass | script.js:114-115 | a listed code gets its table entry, the fallback `'fas fa-sun'` is returned exactly for unlisted codes, and the result is never empty |
| Icons.TableCoversEveryGroup | script.js:24-43 | the day and night variant of each of the nine condition groups is in the table |
| Icons.TableHoldsOnlyVariants | script.js:24-43 | every code in the table is a condition group followed by `d` or `n` |
| Icons.FallbackDiffersFromClearDay | script.js:115 | an unlisted code gets a class different from the `'fas fa-sun sunny'` of code `01d` |
| Weather.ShowDemoData | script.js:128-142 | only the content panel is visible and the slots hold the fixed demo content |
| Weather.DisplayWeatherData | script.js:100-125 | only the content panel is visible, the message is kept, the label is `name, country`, the description and figures are the reading's, and the icon slot holds the table class for the reading's icon code |
| Weather.Complete | script.js:86-96 | a 2xx status with a complete body shows only the content panel, with the rendered reading; every other ending shows only the error panel with "not found"; a body that breaks the display midway leaves the slots partly written |
| Weather.Fetch | script.js:80-97 | a request first shows loading alone; afterwards exactly one panel is visible, content exactly when the answer succeeded, and otherwise the "not found" error (getWeatherByCoords, lines 219-236, has the same shape) |
| Weather.FailuresLookAlike | script.js:86-96 | a non-ok status, an unparseable body, an incomplete body and a network failure all leave the same panels |
| Weather.DemoShowsClearDayIcon | script.js:135 | the demo icon is the table's `01d` class, not the fallback |
| Controller.HandleSearch | script.js:67-77 | a blank field changes nothing and requests nothing; without a key, the key message shows alone, nothing is requested and the field keeps its text; with a key, loading shows alone, exactly one request for the trimmed city goes out and the field is cleared; a requested city is never blank and is trimmed |
| Controller.Startup | script.js:51-55 | a request is made exactly when the key is not the placeholder; it is for `London` with loading shown alone; otherwise the demo content is shown alone and nothing is requested |
| Controller.DefaultCityIsTrimmed | script.js:52 | the start-up city is non-blank and trimming leaves it unchanged |
| Controller.SearchForIssuedCity | script.js:68-74 | searching for the city a search just requested requests that same city again |
| Session.BootEstablishesInv | script.js:46-56 | after start-up, from any screen, exactly one panel is visible, visible content and messages were written by the script, and without a key nothing was requested |
| Session.SubmitPreservesInv | script.js:59-77 | a search by button or Enter keeps that invariant |
| Session.ArrivePreservesInv | script.js:80-96 | an answer arriving for any pending request, in any order, keeps that invariant |
| Session.StepPreservesInv | script.js:59-96 | every event of `Session.Step` keeps that invariant: an edit of the field, a search (button click and Enter both run `handleSearch`), or an answer completing a pending request |
| Session.RunPreservesInv | script.js:46-97 | every sequence of events keeps that invariant |
| Session.OnePanelForever | script.js:46-97 | from start-up on, any sequence of events leaves exactly one panel visible, and a page with the placeholder key never issues a request |
| Session.RunOnlyAppends | script.js:2 | the key never changes and requests once issued stay in the request log |

## Left out

- DOM lookups, event-listener wiring and `innerHTML` markup. The panel
  messages are modelled as a kind (`NotFound`, `KeyMissing`), not as HTML.
  A click on the search button and Enter in the field are one `Submit`
  event. Other keys do nothing and are not modelled.
- `fetch`, URL construction and `response.json()`. These are network I/O and
  become the `Response` value. The URL constant on line 3 is a template whose
  placeholders are never filled, and `?q=` is appended to it without
  URL-encoding the city. Whether the provider accepts such a URL is outside
  the model.
- Rounding and number-to-text formatting (`Math.round`, `toFixed(1)`,
  `/ 1000`, `* 3.6`, the `°C`, `km`, `%` suffixes). This is floating-point
  display formatting. Live readings are kept as raw reals in `Measured`.
- `updateDateTime` and its `setInterval` timer. These are locale date
  formatting and a clock.
- `getUserLocation` and `addLocationButton`. These use the geolocation
  platform API, and the button is never added by the script. The
  coordinate fetch `getWeatherByCoords` is covered by `Weather.Fetch`, since
  it differs from `getWeatherData` only in its URL. `Session` issues only
  city requests.
- `console.error` diagnostics. They have no visible effect.
- Which answer wins when requests overlap. `Session` lets answers arrive in
  any order, but no property about their order is stated.
- Weather.Complete: a body that is null or lacks `sys`, `main`,
  `weather[0]` or `wind` makes `displayWeatherData` throw. It throws before
  any slot is written when the body is null or lacks `sys`, and after some
  slots otherwise.
  `PartlyWritten` stands for all of these cases and does not track which
  slots changed, if any.
- Weather.Complete: a body that has every object but lacks a leaf field
  (`name`, `main.temp`, `visibility`, `main.humidity`, `weather[0].icon`,
  `weather[0].description`, …) does not throw. The content panel is shown
  with `undefined` or `NaN` text, or an empty slot (`description`), and a
  missing icon code gets `'fas fa-sun'`. The model represents
  such a body by `Data(reading)` only as far as the panels go: a `Reading`
  holds strings and reals and cannot hold `undefined` or `NaN`.
- Icons.IconClass: models `weatherIcons[code]` as a lookup of the table's own
  entries. In JavaScript a code naming an inherited `Object.prototype`
  property (such as `toString`) would produce a function value instead of
  the fallback. The provider does not send such codes.
- Text.IsWhitespace: the set of characters `trim` removes is the ECMAScript
  WhiteSpace and LineTerminator set, written out for current Unicode. The
  field's UTF-16 code units are modelled as Unicode scalar values. No
  whitespace character lies outside the Basic Multilingual Plane, so
  trimming is unaffected.
