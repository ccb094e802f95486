# Weather search widget: a verified model of its search logic

The widget is a single React component (`src/App.jsx`) with a search box, a
Search button and a voice button. It asks a weather service for the current
conditions of a city and changes the page's background theme to match the
reported condition. This project models the component's logic in Dafny:

- **`JsString`**: `String.prototype.trim`. The whitespace set is the one
  ECMAScript defines (WhiteSpace and LineTerminator, including the Unicode
  space separators). `Trim` is described by what it produces: a slice of the
  input that neither starts nor ends with whitespace, with only whitespace
  around it. The model proves that this description has exactly one answer,
  that trimming twice gives the same result as trimming once, and that
  padding does not change the result.
- **`JsNumber`**: `parseInt` with no radix, followed by `Number.isInteger`.
  The steps are: skip leading whitespace, read an optional sign, read an
  optional `0x`/`0X` prefix (base 16), and read the longest run of digits. If
  there are no digits, the result is `NaN` (`None` here). The model proves
  that the result is an integer exactly when the text begins with one
  (`StartsWithInteger`). It also proves that `parseInt` reads back the
  decimal numeral of every integer when the text after it is empty or
  starts with a non-digit, other than `x` or `X` after a lone `0`.
- **`CitySearch`**: the check at the top of `search`. `Validate` returns the
  trimmed city that would be fetched, or `None` for a refused query. A query
  is refused exactly when its trimmed form is empty or begins with an
  integer.
- **`WeatherApp`**: the component's state (`query`, `weather`, `name`,
  `loading`, `listening`) as the fields of class `App`. Each event handler is
  a method:
  - `FetchWeather`, `Search`, `KeyDown` and `Click` start or refuse a search;
  - `Complete` handles a response body that arrived;
  - `Fail` handles a failed request or an undecodable body;
  - `StartVoiceSearch` and `VoiceResult` are the voice handlers;
  - `Mount` is the first fetch for "Aurangabad";
  - `Type` is the input's `onChange`.

  Each method names, in its `modifies` clause, the only fields it may change,
  and its `ensures` clauses give their new values. A method returns an
  `Effect` instead of performing I/O: an alert and its text, a request and
  its city, or nothing. The invariant `Valid()` holds across all events: the
  weather on display is always a successful response.
- **`BodyTheme`**: the effect that writes the theme name to the page body's
  class. The body's class is replaced only when the name is non-empty.

The success test is `result.cod !== 200`, a strict comparison. So only the
number 200 counts as success, and a `cod` sent as a string is an error. The
weather service sends failure codes such as `"404"` as strings. `Cod`
keeps numbers, strings and a missing field apart for this reason.

Behaviour worth noting:

- **Numeric queries.** A query is refused when it *begins* with an integer,
  not only when it is one: `parseInt("12abc")` is 12, so "12abc" and
  "-3 Main" are refused. "0x" and "0xg" are accepted, because `parseInt`
  finds no digit after a bare hexadecimal prefix and returns `NaN`.
- **A response whose `weather[0]` is missing.** Reading the condition
  keyword throws a TypeError in the success branch. By then the weather, the
  query and the loading flag have already been set. The `catch` only clears
  `loading` again, so the theme `name` stays as it was. `App.Complete`
  models this.
- **Where the theme comes from.** The theme is derived by `setWeatherName`,
  from a file that is not part of this model. It enters as the function
  field `App.weatherName`.

## Model

| member | source | states |
|---|---|---|
| `JsString.Trim` | src/App.jsx:85 | the result is the input with its leading and trailing whitespace removed, and it neither starts nor ends with whitespace |
| `JsString.TrimUnique` | src/App.jsx:85 | any two strings that satisfy the trim description for the same input are equal |
| `JsString.TrimIs` | src/App.jsx:85 | any string that satisfies the trim description is `Trim`'s result |
| `JsString.TrimIdempotent` | src/App.jsx:35 | trimming a trimmed string changes nothing |
| `JsString.TrimIgnoresPadding` | src/App.jsx:85 | whitespace added before or after a text does not change its trimmed form |
| `JsNumber.DigitRun` | src/App.jsx:86 | `parseInt` reads the longest prefix of digits of the base; the character after it is not such a digit |
| `JsNumber.ParseUnsigned` | src/App.jsx:86 | the unsigned part gives a number exactly when a hexadecimal digit follows a `0x` prefix, or a decimal digit starts a text without that prefix |
| `JsNumber.ParseSigned` | src/App.jsx:86 | after an optional sign, the result is a number exactly when the text starts with an integer |
| `JsNumber.ParseInt` | src/App.jsx:86 | `parseInt(s)` is an integer (not `NaN`) exactly when `s`, after its leading whitespace, starts with an integer |
| `JsNumber.TrimKeepsStart` | src/App.jsx:85-86 | whether a text starts with an integer is the same before and after its trailing whitespace is removed |
| `JsNumber.NumeralValueOfNumeral` | src/App.jsx:86 | the digits of a decimal numeral read back as its value |
| `JsNumber.DigitRunStopsAt` | src/App.jsx:86 | a run of digits followed by a non-digit is read exactly up to that point |
| `JsNumber.ParseUnsignedOfNumeral` | src/App.jsx:86 | the unsigned reader gives back `m` from its numeral when the text after it is empty or starts with a non-digit (after a lone `0`, not `x` or `X` either) |
| `JsNumber.ParseSignedOfDecimal` | src/App.jsx:86 | the signed reader gives back `n` from its numeral when the text after it is empty or starts with a non-digit (after a lone `0`, not `x` or `X` either) |
| `JsNumber.ParseIntOfDecimal` | src/App.jsx:86 | `parseInt` gives back `n` from `String(n)` when the text after it is empty or starts with a non-digit (after a lone `0`, not `x` or `X` either) |
| `CitySearch.Validate` | src/App.jsx:84-92 | a query is refused exactly when its trimmed form is empty or starts with an integer; an accepted query is passed on trimmed |
| `CitySearch.ValidateTrimmed` | src/App.jsx:35-36 | a trimmed query is judged exactly as the untrimmed one |
| `CitySearch.ValidateIgnoresPadding` | src/App.jsx:85 | whitespace around a query does not change the verdict or the city |
| `CitySearch.NumericQueryRefused` | src/App.jsx:86-89 | every query that starts with the decimal numeral of an integer is refused, whatever text follows it, except `x` or `X` right after a lone `0` |
| `CitySearch.LetterQueryAccepted` | src/App.jsx:86-91 | a query whose trimmed form starts with neither a sign nor a digit is passed on, trimmed |
| `CitySearch.RefusesNumberWithText` | src/App.jsx:86-89 | "12abc" is refused |
| `CitySearch.RefusesSignedNumberWithText` | src/App.jsx:86-89 | "-3 Main" is refused |
| `CitySearch.RefusesPaddedSignedNumber` | src/App.jsx:85-89 | "  +7" is refused |
| `CitySearch.RefusesHexNumber` | src/App.jsx:86-89 | "0x1F" is refused |
| `CitySearch.RefusesBlank` | src/App.jsx:85-89 | a query of whitespace only is refused |
| `CitySearch.AcceptsCityName` | src/App.jsx:85-91 | " paris " is accepted as "paris" |
| `CitySearch.AcceptsHexPrefixWithoutDigit` | src/App.jsx:86-91 | "0x" and "0xg" are accepted, since no hexadecimal digit follows the prefix |
| `WeatherApp.ErrorAlert` | src/App.jsx:67 | the alert for a failed lookup is never empty: it is the response's message when that is non-empty, otherwise exactly "City Not Found" |
| `WeatherApp.SearchEffect` | src/App.jsx:84-92 | `search` starts a request exactly when the query is accepted and the API key is set, and then for the trimmed, non-empty query; otherwise it alerts, with "Please enter a valid city" exactly when the query is refused |
| `WeatherApp.VoiceSearchIsTypedSearch` | src/App.jsx:34-37 | a spoken query has the same effect as the same text typed |
| `WeatherApp.App.constructor` | src/App.jsx:16-21 | the initial state: empty query, no weather, empty theme, not loading, not listening |
| `WeatherApp.App.FetchWeather` | src/App.jsx:55-63 | without an API key: only the missing-key alert, and nothing changes; otherwise `loading` becomes true and exactly one request for the given city starts |
| `WeatherApp.App.Mount` | src/App.jsx:50-52 | the mount effect requests "Aurangabad" (or alerts when the key is missing) |
| `WeatherApp.App.Type` | src/App.jsx:116 | typing sets `query` and nothing else |
| `WeatherApp.App.Search` | src/App.jsx:84-92 | a refused query gives the invalid-city alert and clears `query`, and nothing else changes; an accepted one leaves `query` as it is and does what `fetchWeather` does with the trimmed text |
| `WeatherApp.App.KeyDown` | src/App.jsx:94-96 | Enter searches for the current field; any other key changes nothing |
| `WeatherApp.App.Click` | src/App.jsx:128 | the Search button searches for the current field |
| `WeatherApp.App.Complete` | src/App.jsx:65-76 | on `cod !== 200`: alert the message or "City Not Found", clear `query`, end loading, keep `weather` and `name`; on `cod === 200`: show the response, clear `query`, end loading, set `name` to the theme of the condition keyword (unchanged if the keyword is missing); the displayed weather is always a success |
| `WeatherApp.App.Fail` | src/App.jsx:77-80 | a failed request only ends loading |
| `WeatherApp.App.StartVoiceSearch` | src/App.jsx:44-47 | `listening` becomes true even when there is no recogniser; the recogniser is started exactly when it exists |
| `WeatherApp.App.VoiceResult` | src/App.jsx:34-38 | the trimmed transcript is searched, a request is for exactly that text, and `listening` ends false whether or not the query was accepted |
| `BodyTheme.ThemedClass` | src/App.jsx:99-104 | the body's class changes only for a non-empty name; it becomes that name, or empty when the name is not a valid class token |
| `BodyTheme.ThemedClassIdempotent` | src/App.jsx:99-104 | running the effect twice for the same name gives the same result as running it once |
| `BodyTheme.LastThemeWins` | src/App.jsx:99-104 | after two non-empty names, only the second decides the class |
| `BodyTheme.Body.ApplyTheme` | src/App.jsx:99-104 | the body's class after the effect is `ThemedClass` of the old class and the name |

## Left out

- `CitySearch.Validate`: numerals too long for a double make `parseInt` return `Infinity`, which `Number.isInteger` rejects, so the source accepts such queries. The model reads every numeral as an exact integer and refuses them. The exact threshold depends on how the engine rounds floating-point numbers.
- The request itself is left out. `fetch`, `res.json()`, `encodeURIComponent` and the URL template are network I/O. `Effect.Fetch` records the unencoded city, and the outcome arrives as a `Response` value or as the `Fail` event.
- `alert` and `console.error` are I/O. The alert text is returned as `Effect.Alert`, and the log message is dropped.
- Rendering is left out: the spinner, the search box markup and `WeatherDetails` are presentation only. `weather` is kept as a `Response` value.
- The construction of the speech recogniser, with its `lang` and `interimResults` settings, is a platform call. Whether a recogniser exists is the constant `App.hasRecognizer`, and `recognition.start()` appears only as the result of `StartVoiceSearch`. The transcript is the first alternative of the first result, passed in as a string.
- React's scheduling is left out: effect ordering, batching, stale closures, and several requests in flight at once. A completion is not matched to the request it answers. Any `Complete` or `Fail` may follow any state.
- `setWeatherName` is not part of this model. It is the function field `App.weatherName`, assumed to call `setName` once with the theme for the keyword.
- `document.body` is reduced to its class attribute. Other attributes and the DOM's ordered token set are not modelled.
- Strings are sequences of Unicode scalar values rather than UTF-16 code units. Trimming and digit reading only touch characters of the Basic Multilingual Plane, so the two views agree on them.
- A `message` that is not a string (a number, say) is not modelled. `message` is an optional string, and an empty one counts as missing, just as it is falsy in the source.
- `search`'s default argument (`searchQuery = query`) is never used, because every caller passes the text.
