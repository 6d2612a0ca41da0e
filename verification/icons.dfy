/**
 The fixed table from the weather provider's icon codes to the CSS classes
 of the icon shown next to the temperature, and the lookup that falls back
 to a plain sun for codes the table does not list.
 */
module Icons {

  /** The condition groups of the provider's icon codes; each has a day
      ('d') and a night ('n') variant. */
  const Groups: seq<string> := ["01", "02", "03", "04", "09", "10", "11", "13", "50"]

  const WeatherIcons: map<string, string> := map[
    "01d" := "fas fa-sun sunny",
    "01n" := "fas fa-moon",
    "02d" := "fas fa-cloud-sun cloudy",
    "02n" := "fas fa-cloud-moon",
    "03d" := "fas fa-cloud cloudy",
    "03n" := "fas fa-cloud cloudy",
    "04d" := "fas fa-cloud cloudy",
    "04n" := "fas fa-cloud cloudy",
    "09d" := "fas fa-cloud-rain rainy",
    "09n" := "fas fa-cloud-rain rainy",
    "10d" := "fas fa-cloud-sun-rain rainy",
    "10n" := "fas fa-cloud-moon-rain rainy",
    "11d" := "fas fa-bolt stormy",
    "11n" := "fas fa-bolt stormy",
    "13d" := "fas fa-snowflake snowy",
    "13n" := "fas fa-snowflake snowy",
    "50d" := "fas fa-smog",
    "50n" := "fas fa-smog"
  ]

  /** The class used for a code the table does not know. */
  const DefaultIcon: string := "fas fa-sun"

  /** `weatherIcons[iconCode] || 'fas fa-sun'`. Every table entry is a
      non-empty string, so `||` falls back exactly on the missing codes. */
  function IconClass(code: string): (r: string)
    ensures code in WeatherIcons ==> r == WeatherIcons[code]
    ensures r == DefaultIcon <==> code !in WeatherIcons
    ensures r != []
  {
    if code in WeatherIcons && WeatherIcons[code] != [] then WeatherIcons[code] else DefaultIcon
  }

  /** Every group has its day and its night variant in the table. */
  lemma TableCoversEveryGroup()
    ensures forall g :: g in Groups ==> g + "d" in WeatherIcons && g + "n" in WeatherIcons
  {
    forall g | g in Groups
      ensures g + "d" in WeatherIcons && g + "n" in WeatherIcons
    {
      assert g + "d" == [g[0], g[1], 'd'];
      assert g + "n" == [g[0], g[1], 'n'];
    }
  }

  /** The table lists nothing besides those variants: each code is a group
      followed by 'd' or 'n'. */
  lemma TableHoldsOnlyVariants()
    ensures forall code :: code in WeatherIcons ==>
      |code| == 3 && [code[0], code[1]] in Groups && (code[2] == 'd' || code[2] == 'n')
  {
  }

  /** The fallback is not the clear-sky day class: an unknown code shows a
      sun without the `sunny` styling that code "01d" gets. */
  lemma FallbackDiffersFromClearDay(code: string)
    requires code !in WeatherIcons
    ensures IconClass(code) != IconClass("01d")
    ensures IconClass("01d") == "fas fa-sun sunny"
  {
  }
}
