# Weather themes: a verified model

The weather app colours its page by the current weather. A WMO weather
interpretation code (the codes Open-Meteo reports) and a day/night flag are
resolved to one of seven CSS theme classes (`theme-sunny`, `theme-cloudy`,
`theme-rainy`, `theme-snowy`, `theme-stormy`, `theme-foggy`, `theme-night`).
A code can also be turned into a short description for display. Applying a theme
strips every theme class and the `theme-day`/`theme-night` markers from the
body element, adds the new class, and sets the `<meta name="theme-color">`
content to that theme's colour, which mobile browsers use to tint their own
interface.

The model has two modules:

- `WeatherTheme` (`weather_theme.dfy`) holds the three constant tables: code to
  theme, theme to description, and theme to colour. It also holds the two pure
  lookups `GetWeatherTheme` and `GetThemeDescription` and the lemmas about them.
- `ThemeDocument` (`theme_document.dfy`) holds the page state and the update.
  A `Document` object has a `bodyClasses` set and an optional `metaContent`
  string (`None` when the page has no theme-color meta element). Its
  `ApplyWeatherTheme` method updates both in place. The pure function
  `Applied` states what the page looks like afterwards, and the lemmas state
  idempotence and that exactly one theme class remains.

A JavaScript lookup `table[key] || fallback` is modelled as "use the entry if the
key is present, else the fallback". Every value in the three tables is a
non-empty string, so truthiness and presence agree.

The description fallback `'Dynamic Weather'` (src/utils/weatherTheme.js:89) can
never be returned. An unknown code already falls back to `theme-sunny` one line
earlier, and every theme the code table can produce has a description. So a code
outside the table is described as "Clear & Bright". `UnknownCodeDescription` and
`DescriptionExamples` prove this answer.

`classList.add` throws for some tokens, as the WHATWG DOM Living Standard says
for `DOMTokenList.add`: a `SyntaxError` for the empty string and an
`InvalidCharacterError` for a token that contains ASCII whitespace. The
`forEach` removals have already happened by that point, and the meta update is
never reached. `ApplyWeatherTheme` returns that exception as a value, and
`Applied` describes the page it leaves behind. Every class the resolver produces
is a valid token (`ThemeClassesAreTokens`).

## Model

| member | source | states |
|---|---|---|
| `WeatherTheme.TableThemes` | src/utils/weatherTheme.js:10-52 | the code table's values are exactly the six weather themes; `theme-night` is never a table value |
| `WeatherTheme.TablesCoverThemes` | src/utils/weatherTheme.js:78-118 | the description table (lines 78-86) and the colour table (lines 110-118) both have exactly the seven theme classes as keys, so every theme the code table names has a description and a colour |
| `WeatherTheme.BaseTheme` | src/utils/weatherTheme.js:62 | the table theme of a code, with the sunny fallback, is always one of the six weather themes, never night |
| `WeatherTheme.GetWeatherTheme` | src/utils/weatherTheme.js:60-70 | the result is always one of the seven theme classes, and it is `theme-night` exactly when the code is 0 or 1 and it is not day |
| `WeatherTheme.ClearSkyFollowsDaylight` | src/utils/weatherTheme.js:65-67 | codes 0 and 1 give `theme-sunny` by day and `theme-night` by night; the daytime answer agrees with the table |
| `WeatherTheme.OtherCodesIgnoreDaylight` | src/utils/weatherTheme.js:62-69 | any other code gives the same theme by day and by night: its table entry if present, else `theme-sunny` |
| `WeatherTheme.GetThemeDescription` | src/utils/weatherTheme.js:77-90 | the description is always one of the table's descriptions, never the `'Dynamic Weather'` fallback and never `'Calm Night'` |
| `WeatherTheme.DescriptionIsOfDaytimeTheme` | src/utils/weatherTheme.js:88-89 | a code's description is the description of the theme `GetWeatherTheme` gives for it by day, so the description ignores day and night |
| `WeatherTheme.UnknownCodeDescription` | src/utils/weatherTheme.js:88-89 | a code missing from the table is described as `'Clear & Bright'` |
| `WeatherTheme.DescriptionExamples` | src/utils/weatherTheme.js:77-90 | codes 0, 3, 95 and 9999 are described as Clear & Bright, Cloudy & Calm, Stormy & Dramatic and Clear & Bright |
| `ThemeDocument.Applied` | src/utils/weatherTheme.js:96-123 | after applying a class: it is on the body when the class list accepts it; no other removed class remains; every class outside the removal set is kept or absent as before, and that includes a rejected token, which is not added; the meta element still exists or is still missing; the meta content changes only to the class's colour, and it does change when the element exists and the class has a colour |
| `ThemeDocument.RemovedClassesAreThemes` | src/utils/weatherTheme.js:98-104 | the classes removed are exactly the seven theme classes plus `theme-day` |
| `ThemeDocument.ApplyIsIdempotent` | src/utils/weatherTheme.js:96-123 | applying the same class twice leaves the same classes and meta content as applying it once |
| `ThemeDocument.TokenError` | src/utils/weatherTheme.js:107 | the exception `classList.add` throws: `SyntaxError` exactly for the empty token, none exactly for a non-empty token without ASCII whitespace, and so `InvalidCharacterError` for a token holding ASCII whitespace |
| `ThemeDocument.ThemeClassesAreTokens` | src/utils/weatherTheme.js:107 | `classList.add` accepts every theme class without throwing |
| `ThemeDocument.ExactlyOneTheme` | src/utils/weatherTheme.js:98-107 | after applying a theme class, it is the one and only theme class on the body |
| `ThemeDocument.LastThemeWins` | src/utils/weatherTheme.js:98-107 | of two theme classes applied in turn, only the second remains among the theme classes |
| `ThemeDocument.ResolvedThemeApplies` | src/utils/weatherTheme.js:107-122 | any theme `GetWeatherTheme` resolves is accepted by the class list, becomes the only theme class, and sets the meta content to its colour when the meta element exists |
| `ThemeDocument.Document.ApplyWeatherTheme` | src/utils/weatherTheme.js:96-124 | the method leaves the page in exactly the state `Applied` describes, and it reports the exception `classList.add` would throw, if any |
| `ThemeDocument.Document.RemoveTableThemes` | src/utils/weatherTheme.js:98-101 | removing the table's themes one entry at a time takes exactly the table's values off the body and leaves the meta content alone |

## Left out

- src/layout/AppLayout.jsx is not part of this model. It reads `weather_code` and `is_day` from a store and calls the store's `setWeatherTheme`, whose source is not available. `ResolvedThemeApplies` states what resolving and then applying a theme does.
- The default `isDay = true` of `getWeatherTheme` is a calling convenience; the model takes `isDay` as a required flag.
- Weather codes are integers. A code that is a non-integer number, a string or `undefined` is not modelled.
- Properties inherited from `Object.prototype` are not modelled. In JavaScript, `themeColors['toString']` is a truthy function, so applying a class named like such a property would write that function's text into the meta content. The model treats every key outside the colour table as absent.
- The class list is a set. The order of classes in the DOM token list and the order of the `forEach` removals are not modelled, and neither changes which classes are present.
- Only the first `meta[name="theme-color"]` element is updated, as `querySelector` returns only the first match; the model has one such element. A meta element with no content attribute is not distinguished from one whose content is some string.
- Rendering, real DOM access and browser tinting are outside the model.
