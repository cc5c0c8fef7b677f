/**
 Theme resolution for the weather app: WMO weather interpretation codes
 (the codes Open-Meteo reports) are mapped to CSS theme classes, and a
 theme is mapped to a short description for display.

 The tables are the app's own constants. A JavaScript property lookup
 `table[key] || fallback` is modelled as "the key is present": every value
 in every table is a non-empty string, so truthiness and presence agree.
 */
module WeatherTheme {

  // The seven theme classes.
  const Sunny := "theme-sunny"
  const Cloudy := "theme-cloudy"
  const Rainy := "theme-rainy"
  const Snowy := "theme-snowy"
  const Stormy := "theme-stormy"
  const Foggy := "theme-foggy"
  const Night := "theme-night"

  /** The closed set of theme classes the resolver can produce. */
  const ThemeClasses: set<string> := {Sunny, Cloudy, Rainy, Snowy, Stormy, Foggy, Night}

  /** The six themes that stand for a kind of weather, whatever the time of day. */
  const DayThemes: set<string> := {Sunny, Cloudy, Rainy, Snowy, Stormy, Foggy}

  /** WMO weather code to theme class. */
  const WeatherCodeToTheme: map<int, string> := map[
    0 := Sunny, 1 := Sunny, 2 := Cloudy, 3 := Cloudy,
    45 := Foggy, 48 := Foggy,
    51 := Rainy, 53 := Rainy, 55 := Rainy, 56 := Rainy, 57 := Rainy,
    61 := Rainy, 63 := Rainy, 65 := Rainy, 66 := Rainy, 67 := Rainy,
    71 := Snowy, 73 := Snowy, 75 := Snowy, 77 := Snowy,
    80 := Rainy, 81 := Rainy, 82 := Rainy, 85 := Snowy, 86 := Snowy,
    95 := Stormy, 96 := Stormy, 99 := Stormy
  ]

  /** Theme class to the text shown to the user. */
  const ThemeDescriptions: map<string, string> := map[
    Sunny := "Clear & Bright",
    Cloudy := "Cloudy & Calm",
    Rainy := "Rainy & Fresh",
    Snowy := "Snowy & Peaceful",
    Stormy := "Stormy & Dramatic",
    Foggy := "Foggy & Mysterious",
    Night := "Calm Night"
  ]

  /** The description used when a theme has no entry of its own. */
  const DynamicWeather := "Dynamic Weather"

  /** Theme class to the colour a mobile browser tints its own interface with. */
  const ThemeColors: map<string, string> := map[
    Sunny := "#87CEEB",
    Cloudy := "#8B9DC3",
    Rainy := "#4A5568",
    Snowy := "#E2E8F0",
    Stormy := "#2D3748",
    Foggy := "#CBD5E0",
    Night := "#03012d"
  ]

  /** The code table names exactly the six weather themes: night is never a table value. */
  lemma TableThemes()
    ensures WeatherCodeToTheme.Values == DayThemes
  {
    var m := WeatherCodeToTheme;
    assert m[0] == Sunny && m[2] == Cloudy && m[51] == Rainy;
    assert m[71] == Snowy && m[95] == Stormy && m[45] == Foggy;
  }

  /** Every theme has a description and a colour, so no lookup in either table misses. */
  lemma TablesCoverThemes()
    ensures ThemeDescriptions.Keys == ThemeClasses
    ensures ThemeColors.Keys == ThemeClasses
    ensures WeatherCodeToTheme.Values <= ThemeDescriptions.Keys * ThemeColors.Keys
  {
    TableThemes();
  }

  /** The theme the code table gives, falling back to sunny for an unknown code. */
  function BaseTheme(code: int): (t: string)
    ensures t in DayThemes
  {
    TableThemes();
    if code in WeatherCodeToTheme then WeatherCodeToTheme[code] else Sunny
  }

  /** The theme class for a weather code at the given time of day. */
  function GetWeatherTheme(code: int, isDay: bool): (t: string)
    ensures t in ThemeClasses
    ensures t == Night <==> (code == 0 || code == 1) && !isDay
  {
    var baseTheme := BaseTheme(code);
    if code == 0 || code == 1 then
      (if isDay then Sunny else Night)
    else
      baseTheme
  }

  /** The description of a weather code's theme; day and night are not told apart. */
  function GetThemeDescription(code: int): (d: string)
    ensures d in ThemeDescriptions.Values
    ensures d != DynamicWeather
    ensures d != ThemeDescriptions[Night]
  {
    var theme := BaseTheme(code);
    if theme in ThemeDescriptions then ThemeDescriptions[theme] else DynamicWeather
  }

  /** Clear sky and mainly clear (codes 0 and 1) follow the time of day. */
  lemma ClearSkyFollowsDaylight(code: int)
    requires code == 0 || code == 1
    ensures GetWeatherTheme(code, true) == Sunny
    ensures GetWeatherTheme(code, false) == Night
    ensures GetWeatherTheme(code, true) == WeatherCodeToTheme[code]
  {
    assert WeatherCodeToTheme[0] == Sunny && WeatherCodeToTheme[1] == Sunny;
  }

  /** Every other code ignores the time of day and gives its table entry, or sunny. */
  lemma OtherCodesIgnoreDaylight(code: int, isDay: bool)
    requires code != 0 && code != 1
    ensures GetWeatherTheme(code, isDay) == GetWeatherTheme(code, !isDay)
    ensures code in WeatherCodeToTheme ==> GetWeatherTheme(code, isDay) == WeatherCodeToTheme[code]
    ensures code !in WeatherCodeToTheme ==> GetWeatherTheme(code, isDay) == Sunny
  {
  }

  /** By day, the resolved theme is exactly the base theme the description is taken from. */
  lemma DescriptionIsOfDaytimeTheme(code: int)
    ensures GetThemeDescription(code) == ThemeDescriptions[GetWeatherTheme(code, true)]
    ensures GetThemeDescription(code) == ThemeDescriptions[BaseTheme(code)]
  {
  }

  /** An unknown code is described as clear, never with the generic fallback. */
  lemma UnknownCodeDescription(code: int)
    requires code !in WeatherCodeToTheme
    ensures GetThemeDescription(code) == "Clear & Bright"
  {
  }

  /** A few descriptions worked out in full. */
  lemma DescriptionExamples()
    ensures GetThemeDescription(0) == "Clear & Bright"
    ensures GetThemeDescription(3) == "Cloudy & Calm"
    ensures GetThemeDescription(95) == "Stormy & Dramatic"
    ensures GetThemeDescription(9999) == "Clear & Bright"
  {
    assert BaseTheme(0) == Sunny && BaseTheme(3) == Cloudy;
    assert BaseTheme(95) == Stormy && BaseTheme(9999) == Sunny;
  }
}
