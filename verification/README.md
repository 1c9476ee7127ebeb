# 404-service: state logic of the `/reason` endpoint

The service answers `GET /reason` with HTTP 404 and a randomly chosen rejection
reason. Behind that answer it keeps three small stores, each a whole-file JSON
snapshot rewritten after every change:

- a fetch counter (`totalFetches`);
- an hourly activity log keyed `YYYY-MM-DD-HH`, swept now and then of buckets
  older than fourteen days;
- analytics counts per browser, operating system and country.

There are two generations of the endpoint:

- `src/routes.js` refuses automated agents with 403. For everyone else it counts the request once in each store and answers 404.
- `index.js` is the older server. Its bot pattern is shorter. It counts only non-bots, has no analytics, and answers everyone 404.

This project models the stores and both handlers as pure functions over explicit
state records. Counts are `map<string, nat>`. A file write is a `Write` value
that carries what was written, so write order is part of each result.

- `Text`: ASCII lower-casing, substring search, decimal rendering, `padStart(2, "0")`, and `split`/`join` on one character.
- `Js`: parsed JSON values, truthiness, `Number(string)`, the `||` fallback, array reads, and `Math.floor(r * n)`.
- `Tally`: counting maps, with `Bump` for one event and the ghost sum `Total`.
- `ActivityKey`: the bucket key format and its parse.
- `Storage`: `src/storage.js`. The copies of this code in `index.js` (stats load at index.js:14-27, `trackActivity` at 49-60, `cleanupOldActivity` at 62-82, `incrementCounter` at 84-87) are the same code, so they are modelled here once.
- `Classify`: the case-insensitive token match.
- `Http`: the request, the moment it is handled, and the response.
- `Routes`: the `/reason` handler of `src/routes.js`.
- `Legacy`: the `/reason` handler of `index.js`.

Inputs the code gets from outside are parameters:

- the user-agent parser and the geo database, as functions returning `Option<string>`;
- `new Date(y, m, d, h)`, as a function from fields to milliseconds;
- the clock reading, as a calendar hour plus an instant;
- each `Math.random()` draw, as a real number.

Some behaviours of the code that a reader might not expect, and that the model follows:

- There is no bot rate limiter and no referrer facet.
- The router refuses every bot outright.
- An empty reason list is not rejected at start-up. The pick is then `undefined`, so the answer carries no reason.
- A bucket key that does not parse is kept forever. It is never deleted, because an Invalid Date is never before the cutoff.
- Browser and OS names come from the parser library, not from a fixed priority list.

## Model

| member | source | states |
|---|---|---|
| Storage.LoadStats | src/storage.js:12-23 | The stored `totalFetches` is used exactly when the file parses to an object whose `totalFetches` is a number. A missing or unreadable file, a non-object (`null` throws and is caught) or a non-numeric field leaves 0. |
| Storage.LoadSavedStats | src/storage.js:12-27 | A counter written by `saveStats` is read back unchanged at the next start. |
| Storage.IncrementCounter | src/storage.js:29-32 | The counter goes up by exactly one. The write is one rewrite of the stats file with the new value. |
| Legacy.ServeCountsHumans | index.js:145-147 | After any sequence of requests to `index.js`, `totalFetches` has grown by exactly the number of non-bot requests. |
| Routes.ServeCountsHumans | src/routes.js:28-30 | After any sequence of requests to the router, the counter and the total of each analytics facet have grown by exactly the number of non-bot requests. |
| ActivityKey.FormatKeyShape | src/storage.js:56 | For a real clock reading (month 1..12, day 1..31, hour 0..23), month, day and hour render as exactly two characters. The key is the year's digits followed by three dash-separated fields: length = year digits + 9, with dashes at the fixed offsets. |
| ActivityKey.ParseFormatRoundTrip | src/storage.js:56-72 | Splitting a key built by `trackActivity` on `-` and applying `Number` to each part gives back the same year, month, day and hour. |
| ActivityKey.FormatKeyInjective | src/storage.js:56 | Two different hours never share a bucket key. |
| Text.SplitJoin | src/storage.js:71 | `split` on a join of separator-free fields returns exactly those fields. |
| Text.JoinSplit | src/storage.js:71 | Joining the fields of `split` with the separator restores the original string, so `split` loses nothing but the separators. |
| Text.DecimalRoundTrip | src/storage.js:56-71 | The digits of `String(n)` read back as `n` for every non-negative integer. |
| Js.NumberOfDecimal | src/storage.js:56-71 | `Number(String(n))` is `n` for every non-negative integer. |
| Text.Pad2Facts | src/storage.js:56 | `String(n).padStart(2, "0")` is all digits and reads back as `n`. It is two characters for n < 100 and the plain rendering from 10 up. |
| Tally.Bump | src/storage.js:58-59 | `if (!m[k]) m[k] = 0; m[k]++` raises the count for `k` by exactly one, starting from zero. No other key changes, and only `k` can be added. |
| Tally.TotalBump | src/storage.js:58-59 | One increment raises the sum of all counts by exactly one. |
| Storage.TrackActivity | src/storage.js:54-63 | The current hour's bucket is one higher if it survives, and no other bucket gains. Without a cleanup draw (roll >= 0.01) the key set is the old one plus the current key. With a draw below 0.01 the key set is exactly the non-stale keys among the old ones plus the current key. The last write holds the final log. |
| Storage.TrackActivityCountsOnce | src/storage.js:58-61 | When the clock's fields and instant agree, the current bucket survives any cleanup and ends at exactly its old count plus one. |
| Storage.TrackActivityWellFormed | src/storage.js:56-61 | If every bucket key names an hour before an event, they all still do afterwards. |
| Storage.CleanupOldActivity | src/storage.js:65-80 | The pass keeps exactly the buckets whose parsed hour is not strictly before now minus 14 * 24 * 60 * 60 * 1000 ms. Kept buckets keep their counts. `changed` is true iff some bucket was removed. |
| Storage.CleanupLoop | src/storage.js:68-79 | The in-place walk over a snapshot of the keys, deleting stale ones, gives the same log and `changed` flag as the declarative pass. |
| Storage.CleanupIdempotent | src/storage.js:70-77 | A second pass at the same instant gives the same log and reports no change. |
| Storage.MalformedKeysSurvive | src/storage.js:71-76 | A bucket whose key does not parse into four numbers is never deleted and keeps its count. |
| Storage.StaleFormattedKey | src/storage.js:71-73 | A bucket created by `trackActivity` is stale iff the start of its hour is strictly before the cutoff. |
| Storage.LoadAnalytics | src/storage.js:96-99 | Corrected load: a missing or falsy facet becomes `{}`, and a stored value that is not an object gives the empty default. |
| Storage.LoadAnalyticsAsWritten | src/storage.js:94-103 | As written: the load leaves an unusable value exactly when the file parses to `null`, a boolean, a number or a string. In every other case it agrees with the corrected load. |
| Storage.NullAnalyticsFileIsUnusable | src/storage.js:96-101 | A file holding `null` leaves the as-written load without analytics. The corrected load yields the empty default. |
| Storage.LoadSavedAnalytics | src/storage.js:94-107 | Analytics written by `saveAnalytics` are read back unchanged at the next start. |
| Storage.UpdateAnalytics | src/storage.js:109-120 | Exactly `browser[b]`, `os[o]` and `country[c]` go up by one, each starting from zero. Every other count is unchanged. The call makes one rewrite of the file. |
| Storage.UpdateAnalyticsTotals | src/storage.js:109-118 | Each facet's total grows by exactly one per call. |
| Classify.MatchesAnyTokenIff | src/routes.js:16-17 | The pattern test succeeds iff some token occurs at some position of the lower-cased agent string. |
| Classify.MatchIgnoresCase | src/routes.js:16 | Agents that differ only in ASCII letter case are classified alike. |
| Routes.BotTokensLowerCase | src/routes.js:16 | All twelve tokens are lower-case, so lower-casing the agent matches the `i` flag. |
| Routes.ScriptedAgentsAreBots | src/routes.js:16-17 | `curl/7.68.0`, `CURL/7.68.0` and `HeadlessChrome/120.0` are bots. |
| Routes.MissingAgentIsHuman | src/routes.js:13-17 | A missing user-agent header becomes `""`, which is not a bot. |
| Routes.FacetsOf | src/routes.js:21-26 | Browser and OS are the parser's name when it is non-empty, else `"Other"`, so neither key is ever empty. Country is the lookup's result whenever a record is found, else `"Unknown"`. |
| Routes.EmptyCountryPassesThrough | src/routes.js:25-26 | A found record whose country is `""` gives the empty country key, not `"Unknown"`. |
| Http.LookupAddress | src/routes.js:14-25 | The geo lookup gets `cf-connecting-ip` if non-empty, else `req.ip` if non-empty, else `127.0.0.1`. |
| Routes.HandleReason | src/routes.js:12-34 | A bot gets 403 with the fixed message, and no store or file changes. Any other request raises the counter by one and goes through `trackActivity`. It raises each facet by one at the classified key and nowhere else. Its writes are the counter, then the activity log, then the analytics. The answer is 404 with the picked reason. |
| Routes.HumanRequestCountsHour | src/routes.js:28-29 | With a consistent clock, a human request raises the current hour's bucket by exactly one. |
| Routes.HumanRequestFacetTotals | src/routes.js:28-30 | A human request adds exactly one to the total of every facet. |
| Routes.HumanRequestAnswer | src/routes.js:28-33 | A human request's first write is the counter and its last is the analytics. It is answered 404 with an element of the reason list. |
| Http.ReasonFromList | src/routes.js:32 | For a draw in [0, 1) and a non-empty list, the index lies in [0, length), so the reason is an element of the list. |
| Http.EveryReasonReachable | src/routes.js:32 | Every reason is picked by some draw. |
| Js.FloorScaledInRange | src/routes.js:32 | `Math.floor(r * n)` lies in [0, n) for r in [0, 1) and n > 0. |
| Legacy.TokensArePrefixOfRouter | index.js:142 | The older pattern's seven tokens are the first seven of the router's twelve. |
| Legacy.BotIsRouterBot | index.js:142-143 | Every agent `index.js` treats as a bot, the router also refuses. |
| Legacy.CurlIsBot | index.js:142-143 | `curl/7.68.0` is a bot for the older pattern too. |
| Legacy.HandleReason | index.js:134-154 | Every caller gets 404 with the picked reason. A bot changes no store and writes nothing. Any other request raises `totalFetches` by one and goes through `trackActivity`, and its writes are the counter then the activity log. |
| Legacy.BotGetsReasonUncounted | index.js:145-153 | A bot leaves both stores unchanged and still receives 404 with an element of the reason list. |
| Legacy.HumanRequestCounts | index.js:145-147 | With a consistent clock, a human request raises `totalFetches` and the current hour's bucket by exactly one each. |
| Legacy.CleanupDuringRequest | index.js:62-82 | When a human request draws the cleanup, every older bucket survives iff it is not stale, with its count. No bucket other than the current hour's appears. |

## Left out

- HTTP plumbing: Express routing, static files, `sendFile`, `/config`, the `/no` redirect, CORS and `app.listen`. These are transport.
- The read-only endpoints `/stats`, `/activity` and `/analytics`, and the getters `getStats`, `getActivity` and `getAnalytics`. They return the stores unchanged.
- The `express-rate-limit` middleware (index.js:89-101). It is a third-party library whose behaviour is not part of this code.
- File-system access and JSON text. A data file is a `Stored` value (missing, unreadable or parsed), and a save is a `Write` record. The data directory creation is not modelled.
- The activity load (src/storage.js:42-48, index.js:34-43). The parsed value is taken as is, and the model starts from a given map.
- `ua-parser-js` and `geoip-lite`. They are parameters returning an optional name. A geo record without a `country` field is not modelled.
- `Math.random()`. Each draw is a real parameter. Floating-point rounding of `r * n` is not modelled.
- `new Date()` and local-time conversion. The clock is a calendar hour plus an instant, and `new Date(y, m, d, h)` is a parameter. It covers time zones, out-of-range normalisation and the 1900 offset for two-digit years. `trackActivity` and the cleanup it triggers each call `new Date()`. The model uses one instant for both.
- ActivityKey.ParseFormatRoundTrip: years are non-negative. A negative year would render with a leading `-` that `split` breaks apart.
- Storage.IncrementCounter: does not model IEEE-754 doubles. Above 2^53 the real counter stops growing, and stored fractional counts are not representable.
- Storage.LoadStats: JSON numbers are integers in the model. Fractions, `NaN` and infinities are not representable.
- Storage.LoadAnalytics: a stored count that is not a non-negative integer is dropped. A truthy non-object facet (e.g. `5`) is read as an empty table, where the code would keep it and silently ignore updates to it.
- Storage.LoadAnalyticsAsWritten: an array in the file acts in memory like an object with no facets. The model does not show that the next save writes the array back without its facets.
- Js.NumberOf: the other forms `Number` accepts are read as NaN. These are surrounding whitespace, signs, hexadecimal, exponents and fractions. Keys written by the service never contain them.
- Routes.HandleReason: the analytics store is always a table of facets, so the as-written state after a `null` analytics file is not represented. In that state a human request still saves the counter and the activity log. Then `updateAnalytics` throws (src/storage.js:110) and Express answers 500, not 404. The handler and `Routes.ServeCountsHumans` assume the corrected load, `Storage.LoadAnalytics`.
- Tally.Bump: facet keys are assumed not to be names inherited from `Object.prototype` such as `constructor`, `toString` or `__proto__`. On a plain object `m[k]++` would store `NaN` for the first two and change nothing for the last. The user-agent parser and the geo database do not return such names.
- Storage.UpdateAnalytics: same assumption about facet keys as `Tally.Bump`.
- Console logging. It has no effect on state.
- The bot rate limiter and the referrer facet. Neither exists in this code.

## Findings

| source | as written | input that shows it | evidently intended | confidence | as-written member | corrected member |
|---|---|---|---|---|---|---|
| src/storage.js:94-103 | The parsed file replaces the default `analytics` before its facets are checked. For `null`, the TypeError on `analytics.browser` is caught, but `null` stays stored. After that, every `updateAnalytics` throws. | an analytics file containing `null` | keep the empty default facets, as for an unreadable file | medium; not executed | Storage.LoadAnalyticsAsWritten | Storage.LoadAnalytics |
