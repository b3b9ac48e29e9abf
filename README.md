# mcp-weather: the authentication gate, the text formatters and the tool handlers

This project models the core of a Model Context Protocol server that gives two weather
tools. `get_alerts` returns the active National Weather Service alerts for a US state.
`get_forecast` returns the forecast periods for a latitude and longitude. Both tools are
locked until the `authenticate` tool has verified a GitHub personal access token.

The model has three parts.

- **The authentication gate** (module `Auth`). The two module-level variables
  `authenticatedUser` and `octokit` are the fields of the class `Auth.Session`.
  `authenticateWithGitHub` is the method `AuthenticateWithGitHub`. Its `modifies this`
  clause covers both fields, and its new state is tied to the pure step `Auth.Authenticate`.
  The GitHub self-lookup `users.getAuthenticated()` is an input `Lookup`. It is either
  `Success(login)` or `Failure(thrown)`. `thrown` holds the message of a thrown `Error`, or
  `None` when something other than an `Error` was thrown. `Auth.Run` replays a series of
  `authenticate` calls. The lemmas about it say four things. The gate opens exactly when
  some call is verified. A rejected call never closes it. The session belongs to the last
  verified call. The two variables are always set together.
- **The formatters** (module `Weather`, with the string operations in module `Text`).
  `formatAlert` and the forecast-period block are built from JavaScript's `||` on optional
  fields (`Text.OrDefault`). `undefined`, `null` and `""` all select the default. A
  temperature of `0` also reads "Unknown", because `0` is falsy. `Array.join("\n")` is
  modelled together with its inverse `String.split("\n")`. So the lemmas can state
  outright that a formatted alert has six lines and a period has five, and what each line
  holds. The degree text is the two characters U+00C2 U+00B0, exactly as the source has
  it.
- **The handlers** (module `Tools`). Each weather handler is a pure function. It takes the
  authentication flag, its arguments, and
  the parsed result of each fetch it may make (`None` where `makeNWSRequest` returned
  `null`). It returns a `Reply`: the `Answer` naming the return statement it reached, with
  the data that return formats, and the upstream requests it actually issued, in order.
  `Answer.Text()` is the exact text of each return statement. The lemmas show three things.
  Every return statement gives a text that identifies that return. An unauthenticated call
  issues no request. When the grid point has no forecast URL, the forecast fetch is never
  issued and its result never affects the reply. The methods `AlertsTool` and
  `ForecastTool` run a handler on a `Session`, with the flag read from the session's
  `isAuthenticated()` at the moment of the call.
  The input schemas of the tools are preconditions: `state` has length 2, latitude is in
  [-90, 90] and longitude is in [-180, 180].

## Model

| member | source | states |
|---|---|---|
| `Text.OrDefault` | src/index.ts:68-72 | JavaScript's logical-or of an optional string and a fallback gives the value when it is present and non-empty, and the fallback otherwise; a non-fallback result is always the non-empty value |
| `Text.JoinSplitLines` | src/index.ts:67-74 | joining the pieces of `s.split("\n")` with `"\n"` gives back `s` |
| `Text.JoinLines` | src/index.ts:74 | `parts.join("\n")`: nothing for no parts, the part itself for one, and otherwise the first part, a line break and the join of the rest |
| `Text.JoinLinesEnds` | src/index.ts:74 | a join starts with its first part and ends with its last part |
| `Text.SplitJoinLines` | src/index.ts:191-192 | splitting a `"\n"`-join recovers the lines of every part in order; parts without a line break come back exactly |
| `Text.SplitLinesAppend` | src/index.ts:192 | splitting `x + "\n" + y` is the split of `x` followed by the split of `y` |
| `Text.Listing` | src/index.ts:192 | a header without a line break, an empty line and a join of parts splits into the header, an empty line, then the lines of every part in order |
| `Text.FlattenAt` | src/index.ts:191-192 | when every block has `n` lines, line `j` of block `i` sits at line `j` after the start of block `i`, and the whole has `n` lines per block |
| `Text.Upper` | src/index.ts:164 | upper-casing keeps the length and maps each character by itself: ASCII `a`-`z` to `A`-`Z`, everything else unchanged |
| `Text.UpperIdempotent` | src/index.ts:164 | the upper-cased state code has no ASCII lower-case letter, and upper-casing it again changes nothing |
| `Text.IntToString` | src/index.ts:285 | the display of an integral number is non-empty, has no line break, starts with `-` exactly when the number is negative, and is otherwise decimal digits with no leading zero (zero itself is `0`) |
| `Text.IntToStringRoundTrip` | src/index.ts:285 | the displayed number reads back as the same integer |
| `Auth.Authenticate` | src/index.ts:15-28 | the result is success exactly when the lookup succeeds; on success the session holds the login and a client for the token; on failure nothing changes and the error is the thrown `Error`'s message or "Authentication failed"; an authenticated session stays authenticated; the two variables stay set together |
| `Auth.RunAuthenticated` | src/index.ts:17-33 | after a series of `authenticate` calls the session is authenticated exactly when it was before or some call was verified |
| `Auth.RunRejected` | src/index.ts:25-27 | a series of rejected calls leaves both variables unchanged |
| `Auth.RunLastVerified` | src/index.ts:21-22 | after a series of calls the session holds the login and the token of the last verified call |
| `Auth.RunValid` | src/index.ts:21-22 | the two variables, set together by every verified call, stay set together through any series of calls |
| `Auth.Session.constructor` | src/index.ts:11-12 | both variables start out null |
| `Auth.Session.IsAuthenticated` | src/index.ts:31-33 | `isAuthenticated()` holds exactly when neither `authenticatedUser` nor `octokit` is null |
| `Auth.Session.AuthenticateWithGitHub` | src/index.ts:15-28 | the new variables and the result are those of `Authenticate` applied to the old variables |
| `Weather.AlertLines` | src/index.ts:67-74 | an alert has six lines, the last one `---` |
| `Weather.FormatAlert` | src/index.ts:65-75 | `formatAlert` gives a block that opens with the `Event:` line, with default "Unknown", and closes with `---` |
| `Weather.FormatAlertLines` | src/index.ts:65-75 | an alert whose fields have no line break formats to exactly six lines: `Event:`, `Area:`, `Severity:`, `Status:` with default "Unknown", `Headline:` with default "No headline", then `---` |
| `Weather.TemperatureText` | src/index.ts:285 | the temperature reads "Unknown" exactly when it is absent or zero, and is otherwise the integer's decimal display `IntToString`; it never holds a line break |
| `Weather.TemperatureReadBack` | src/index.ts:285 | a shown temperature reads back as the same number |
| `Weather.PeriodLines` | src/index.ts:283-289 | a forecast period has five lines, the last one `---` |
| `Weather.FormatPeriod` | src/index.ts:282-290 | the block of a period opens with its name (default "Unknown") and a colon, and closes with `---` |
| `Weather.FormatPeriodLines` | src/index.ts:282-290 | a period whose fields have no line break formats to exactly five lines: name with default "Unknown"; temperature, degree sign and unit with default "F"; wind speed with default "Unknown" and direction with default ""; short forecast with default "No forecast available"; then `---` |
| `Tools.Answer.Text` | src/index.ts:154-298 | the text of each return statement of the two weather tools, character for character; `Outcome()` names the return |
| `Tools.ReadAlertsTexts` | src/index.ts:154-198 | each of the four texts of `get_alerts` reads back as its own return statement |
| `Tools.ReadForecastTexts` | src/index.ts:234-298 | each text `get_forecast` returns after authentication reads back as its own return statement |
| `Tools.OutcomeReadBack` | src/index.ts:154-298 | the text of every return statement of both weather tools tells which return it is |
| `Tools.TextsDiffer` | src/index.ts:154-298 | two different return statements never give the same text |
| `Tools.AuthenticateText` | src/index.ts:122-139 | the `authenticate` text announces success exactly for a verified token and names the verified user; it reports failure exactly for a rejected token and names the rejection's error |
| `Tools.HandleAuthenticate` | src/index.ts:119-141 | the tool updates the session as `authenticateWithGitHub` does and returns the text for its result |
| `Tools.FormatAlerts` | src/index.ts:191 | one formatted alert per feature, in the same order |
| `Tools.Features` | src/index.ts:179 | the features of the response when it has them, an empty array otherwise |
| `Tools.GetAlerts` | src/index.ts:151-202 | unauthenticated, the reply is "Authentication required" with no request; authenticated, exactly one request, for the upper-cased state code; a failed fetch answers "Failed to retrieve alerts data"; no features answers "No active alerts for" the upper-cased state code |
| `Tools.AlertsOutcomes` | src/index.ts:153-192 | the text of `get_alerts` identifies the condition it stopped at: not authenticated, fetch failed, no features, or else a listing |
| `Tools.AlertsListingAnswer` | src/index.ts:164-192 | with some features the handler lists the formatted alerts under the upper-cased state code |
| `Tools.AlertsListing` | src/index.ts:191-192 | a listing is the header `Active alerts for CODE:`, an empty line, then the six lines of every alert in the order of the features |
| `Tools.AlertsListingAt` | src/index.ts:191-192 | line `j` of alert `i` is line `2 + 6 * i + j` of the listing, which has `2 + 6 * n` lines for `n` alerts |
| `Tools.ForecastUrl` | src/index.ts:244-245 | a forecast URL is found exactly when `properties.forecast` is present and non-empty, and it is that field |
| `Tools.Periods` | src/index.ts:269 | the periods of the response when it has properties with periods, an empty array otherwise |
| `Tools.FormatPeriods` | src/index.ts:282-290 | one formatted block per period, in the same order |
| `Tools.GetForecast` | src/index.ts:216-302 | unauthenticated, no request; authenticated, the grid-point request first, and the forecast request second exactly when the grid point gave a non-empty forecast URL, for that URL; a failed grid point answers with the latitude then the longitude; a missing URL, a failed forecast fetch and no periods each answer with their own fixed message |
| `Tools.ForecastNotConsulted` | src/index.ts:244-257 | when the handler stops before the forecast fetch, the forecast result does not affect the reply, and at most one request was issued |
| `Tools.ForecastAnswerOutcome` | src/index.ts:218-292 | the return `get_forecast` reaches is fixed by the conditions it tests, in order |
| `Tools.ForecastOutcomes` | src/index.ts:218-279 | the text of `get_forecast` identifies the condition it stopped at: not authenticated, grid-point failure, missing forecast URL, forecast fetch failed, no periods, or else a listing |
| `Tools.ForecastListingAnswer` | src/index.ts:244-292 | with a forecast URL and some periods the handler lists the formatted periods under the coordinates |
| `Tools.ForecastListing` | src/index.ts:282-292 | a forecast is the header `Forecast for LAT, LON:`, an empty line, then the five lines of every period in order |
| `Tools.ForecastListingAt` | src/index.ts:282-292 | line `j` of period `i` is line `2 + 5 * i + j` of the forecast, which has `2 + 5 * n` lines for `n` periods |
| `Tools.AlertsTool` | src/index.ts:151-202 | `get_alerts` run on a session answers as `GetAlerts` with the session's `isAuthenticated()`; an unauthenticated session gets "Authentication required" and no request |
| `Tools.ForecastTool` | src/index.ts:216-302 | `get_forecast` run on a session answers as `GetForecast` with the session's `isAuthenticated()`; an unauthenticated session gets "Authentication required" and no request |
| `Tools.GateOpensOnVerification` | src/index.ts:153-227 | after any series of `authenticate` calls from start-up, each weather tool issues a request exactly when some call was verified; until then both return "Authentication required" |

## Left out

- `makeNWSRequest` and `fetch`: network I/O. Each fetch result is an input: `None` for a failed request, a non-2xx status, a parse error or a falsy body. The User-Agent and Accept headers are not modelled.
- URL construction, including `toFixed(4)`: requests are abstract values (`AlertsForArea`, `GridPoint`, `ForecastAt`), not URL strings.
- The display of coordinates (`${latitude}`): floating-point formatting. A `Coordinate` carries its displayed text as an input.
- Text.IntToString: the display is decimal digits for every integer. JavaScript's `${n}` agrees only below 10^21 in magnitude: from 10^21 on it uses exponent form (`1e+21`). Above 2^53 an integer is not exactly a JavaScript number at all.
- Tools.GetAlerts: the two-character requirement on `state` counts characters, while the schema's `.length(2)` counts UTF-16 code units; a state written with one character outside the Basic Multilingual Plane passes the schema but is not a two-character string here.
- Weather.TemperatureText: a temperature is an integer. Fractional, `NaN` and `-0` temperatures are not modelled, because their display is floating-point formatting.
- The Octokit call `users.getAuthenticated()`: a foreign library. Its outcome is the `Lookup` input. The client object is reduced to the token it was built with.
- Text.Upper: only ASCII letters are upper-cased. JavaScript's `toUpperCase` also maps non-ASCII letters, and some of them to several characters.
- Tools.AlertsListing: the line layout is stated only for fields and state codes without line breaks, because a field with a line break adds lines of its own.
- Tools.ForecastListing: the line layout is stated only for fields and coordinate texts without line breaks, for the same reason.
- Weather.FormatAlertLines: the six-line layout is stated only for fields without line breaks.
- Weather.FormatPeriodLines: the five-line layout is stated only for fields without line breaks.
- A feature without `properties`, and a period or feature field of a non-string type: `formatAlert` would throw, or JavaScript would coerce the value. The records here are always well typed.
- Concurrency: two handlers can interleave at an `await`. The model treats each handler call as atomic, reading the session once at its start.
- Server construction, tool registration, the zod schemas (kept only as the handlers' preconditions), the stdio transport and `main`/`process.exit`: protocol plumbing.
- Credential persistence, restoring a token after a restart, and an interactive OAuth flow: none of these exists in `src/index.ts`.
