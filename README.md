# IFPA API client — Dafny model

A model of the logic in the IFPA pinball-ranking API client, in its two versions:

- `src/ifpaApi.js`, class `IfpaApi`. Each endpoint operation checks its required argument and assembles a query. The request builder merges the api key into that query. The two calendar operations filter the reply's `calendar` list by `state` and index the kept entries by `tournament_id`.
- `ifpa-api.js`, the older client. `getIfpaError` maps HTTP status codes to messages. `getCalendarEvents` rewrites a reply in place: `calendar` becomes a dictionary keyed by `calendar_id`, and `total_entries` becomes the number of matching entries.

Files:

- `wrappers.dfy`: `Option` and `Result`.
- `js_values.dfy`: JavaScript values and truthiness, plus the decimal text of an integral number.
- `calendar.dfy`: calendar entries, the state filter and indexing by id. Both clients use these.
- `ifpa_api.dfy`: the model of `src/ifpaApi.js`.
- `legacy_ifpa_api.dfy`: the model of `ifpa-api.js`.

The HTTP transport is replaced by values:

- An operation returns the `Call` it would hand to `makeRequest`, or the rejection it returns instead.
- `MakeRequest` returns the `Request` (base URL, endpoint, query string map) that would be sent.
- The reply of a calendar endpoint is an input (`Response`, or a `CalendarResults` object for the older client).

An endpoint's URL path is an `Endpoint` value, not a string. The player endpoints carry the player id their path embeds.

JavaScript details the model makes explicit:

- Falsy values are `undefined`, `null`, `false`, `0` and `""`. An empty array is truthy, so a reply with `calendar: []` yields an empty `calendar` and an empty `dictionary`, not the empty object.
- In `src/ifpaApi.js`, `country = 'United States'` is a default parameter. It replaces only an omitted (`undefined`) country. An explicit `null` or `""` is sent as given (`CalendarCountry`). The older client writes `country || 'United States'`, so there any falsy country becomes the United States (`CalendarEventsRequest`). The two versions differ here, and the model follows each file's code.
- In the older client, a reply with a truthy `total_entries` but no `calendar` makes the callback throw at `results.calendar.length`. The deferred is then never resolved or rejected. `ProcessCalendarEvents` returns `settled == false` for that case.
- A `calendar` that is an object rather than an array has no `length`. The older loop then visits nothing (`Visited`).

## Model

| member | source | states |
|---|---|---|
| `Calendar.FilterByState` | src/ifpaApi.js:166 | The `.filter` of the calendar by strict equality of `state`. Its result is never longer than the input; its membership and order are stated by the three lemmas below. |
| `Calendar.FilterByStateMembers` | src/ifpaApi.js:166 | An entry is in the filtered list exactly when it is in the input with `state` strictly equal to the filter value. |
| `Calendar.MatchingPositions` | src/ifpaApi.js:166 | The positions of the input whose entry has the filter state, strictly increasing, with none missed. |
| `Calendar.FilterIsMatchingSubsequence` | src/ifpaApi.js:166 | The filtered list has one element per matching position, and its k-th element is the input entry at the k-th matching position. So it is exactly the subsequence of matching entries, in input order. |
| `Calendar.FilterAppend` | src/ifpaApi.js:166 | Filtering `a + b` gives filter(a) followed by filter(b). Relative order is preserved. |
| `Calendar.SelectByState` | src/ifpaApi.js:166 | With a falsy state, the selected calendar is the input list itself, element for element. The selection is never longer than the input. |
| `Calendar.SelectByStateMembers` | ifpa-api.js:72 | An entry is selected exactly when it is in the input and either the filter is falsy or its state equals the filter. This is the same selection the older loop's condition makes. |
| `Calendar.SelectByStateSnoc` | ifpa-api.js:69-75 | Visiting one more entry extends the selection by that entry exactly when it passes the filter. |
| `Calendar.IndexBy` | src/ifpaApi.js:173-177 | The dictionary's key set is the set of ids in the list. Each key maps to an entry of the list that carries that id. |
| `Calendar.IndexBySnoc` | src/ifpaApi.js:174-176 | Folding one more entry stores it under its id, replacing any earlier entry there. |
| `Calendar.IndexByLastWriteWins` | src/ifpaApi.js:174-176 | If no later entry shares an entry's id, the dictionary maps that id to that entry. Of entries that share an id, the last one wins. |
| `Calendar.IndexBySize` | ifpa-api.js:68-79 | The dictionary has at most as many keys as the list has entries. It has exactly as many if and only if no id repeats. |
| `IfpaApi.NewClient` | src/ifpaApi.js:7-10 | A new client keeps the given api key and uses the base URL 'https://api.ifpapinball.com'. |
| `IfpaApi.MakeRequest` | src/ifpaApi.js:12-18 | The sent query has the call's keys plus `apiKey`. Every call parameter keeps its value. `apiKey` is the client's key unless the call itself sets `apiKey`. |
| `IfpaApi.CalendarCountry` | src/ifpaApi.js:28 | An omitted country becomes 'United States', so it is then truthy. Any other value, falsy or not, is kept. |
| `IfpaApi.TournamentIdDictionary` | src/ifpaApi.js:173-178 | An omitted calendar gives an empty dictionary. Otherwise the keys are exactly the calendar's tournament ids, and each maps to a calendar entry with that id. |
| `IfpaApi.GetFilteredResults` | src/ifpaApi.js:163-171 | The result is the empty object exactly when the response or its calendar is missing. A falsy state gives back the input calendar unchanged. Otherwise the calendar's members are exactly the input entries of that state. Dictionary keys are exactly the tournament ids of the returned calendar. Each value is a returned entry with that id, so a filtered-out entry never appears. |
| `IfpaApi.FilteredResultsByState` | src/ifpaApi.js:163-177 | With a truthy state, the i-th returned entry is the input entry at the i-th matching position. The dictionary holds the last returned entry for each tournament id. |
| `IfpaApi.FilteredResultsLastWriteWins` | src/ifpaApi.js:173-177 | For any state filter, falsy or truthy, the dictionary maps each tournament id to the last returned entry with that id. So with no filter, `[{id:1,'A'},{id:1,'B'}]` gives the 'B' entry under 1. |
| `IfpaApi.PastCalendarEvents` | src/ifpaApi.js:28-31 | Requests the history listing with only a `country` parameter, defaulted as above. It resolves to the filtered result of the reply. |
| `IfpaApi.ActiveCalendarEvents` | src/ifpaApi.js:41-44 | The same for the active listing. |
| `IfpaApi.PlayerCall` | src/ifpaApi.js:51-56 | Rejects with 'playerId required' if and only if the player id is falsy. Otherwise it calls the player endpoint with no parameters. |
| `IfpaApi.GetPlayerVsPlayer` | src/ifpaApi.js:51-57 | Rejects with 'playerId required' if and only if the id is falsy, and makes no call then. Otherwise it calls the pvp endpoint of that player with an empty query. |
| `IfpaApi.GetPlayerInformation` | src/ifpaApi.js:64-70 | The same guard, for the player-information endpoint. |
| `IfpaApi.GetPlayerHistory` | src/ifpaApi.js:77-83 | The same guard, for the player-history endpoint. |
| `IfpaApi.GetPlayerResults` | src/ifpaApi.js:90-96 | The same guard, for the player-results endpoint. |
| `IfpaApi.GetCountryDirectors` | src/ifpaApi.js:102-104 | Always calls the country-directors endpoint with an empty query. |
| `IfpaApi.SearchPlayersByName` | src/ifpaApi.js:111-117 | Rejects with 'name required' if and only if the name is falsy. Otherwise it searches with `q` set to the name and nothing else. |
| `IfpaApi.SearchPlayersByEmail` | src/ifpaApi.js:124-130 | Rejects with 'email required' if and only if the email is falsy. Otherwise it searches with `email` and nothing else. |
| `IfpaApi.GetRankings` | src/ifpaApi.js:139-154 | `start_pos`, `count` and `order` are each in the query if and only if the matching argument is truthy, with that argument's value. No other key is in the query, so no arguments give an empty query. |
| `IfpaApi.GetBiggestMovers` | src/ifpaApi.js:159-161 | Always calls the biggest-movers endpoint with an empty query. |
| `IfpaApi.OperationCall` | src/ifpaApi.js:28-161 | Over every operation: it rejects exactly when its required argument is falsy, with '<name> required'. A call it does make never sets `apiKey` itself. The calendar operations send the defaulted country. |
| `IfpaApi.Issue` | src/ifpaApi.js:12-161 | A rejected operation issues no request. Every issued request carries the client's api key. Calendar requests carry the defaulted country. |
| `JsValues.Truthy` | src/ifpaApi.js:52 | The test behind every `!x` and `if (x)` of both clients: a value is falsy exactly when it is `undefined`, `null`, `false`, `0` or `""`. |
| `JsValues.NumberToString` | ifpa-api.js:31 | The text a number becomes when concatenated to a string: it is non-empty and starts with '-' exactly for negative numbers. It is injective, as the next row states. |
| `JsValues.NumberToStringInjective` | ifpa-api.js:31 | Different numbers have different decimal texts. This is proved through the round trip through `ParseNumber`. |
| `LegacyIfpaApi.IfpaError` | ifpa-api.js:8-36 | 400, 401, 404 and 500 each get their message. 405 and 429 both get 'Rate limit exceeded'. Any other number gets 'Got HTTP status code ' followed by its decimal text. A non-number gets the generic message. |
| `LegacyIfpaApi.UnknownStatusMessagesDiffer` | ifpa-api.js:30-31 | Two codes outside the switch cases with the same message are the same code, so the message identifies the code. |
| `LegacyIfpaApi.MethodNotAllowedReportedAsRateLimit` | ifpa-api.js:22-26 | As written, 405 gets the same message as 429. No input at all produces 'HTTP method not allowed'. |
| `LegacyIfpaApi.IntendedIfpaError` | ifpa-api.js:22-26 | With a `break` after the 405 case, 405 gets 'HTTP method not allowed'. Every other input keeps the as-written message. |
| `LegacyIfpaApi.IntendedNamedMessagesDiffer` | ifpa-api.js:12-29 | In the corrected mapping, the six codes named in the switch get six different messages. |
| `LegacyIfpaApi.CalendarEventsRequest` | ifpa-api.js:59-62 | Any falsy country becomes 'United States', so the sent country is always truthy. The history listing is chosen if and only if `past` is exactly `false`. An omitted `past` means the active listing. The api key is passed through. |
| `LegacyIfpaApi.Visited` | ifpa-api.js:69 | The entries the loop bound `results.calendar.length` lets it visit: all entries of a list, none of a dictionary, which has no `length`. |
| `LegacyIfpaApi.IndexMatching` | ifpa-api.js:67-76 | The loop leaves as dictionary the selected entries indexed by `calendar_id`. `matches` is the number of selected entries, duplicates included. |
| `LegacyIfpaApi.ProcessCalendarEvents` | ifpa-api.js:64-82 | With a falsy `total_entries`, the reply is left unchanged and resolved. With a truthy one and no calendar, it is left unchanged and never settles. Otherwise `calendar` becomes the `calendar_id` dictionary of the matching entries and `total_entries` becomes their count. |
| `LegacyIfpaApi.TotalEntriesCountsDuplicates` | ifpa-api.js:68-79 | After processing, `total_entries` is at least the number of dictionary keys. It is larger exactly when a calendar id repeats among the matching entries. |

## Findings

| source | as written | input that shows it | evidently intended | confidence | as-written member | corrected member |
|---|---|---|---|---|---|---|
| ifpa-api.js:22-26 | the `case 405` branch has no `break`, so control falls into `case 429` and overwrites the message | `getIfpaError(405)` returns 'Rate limit exceeded' | 405 reports 'HTTP method not allowed' | high; not executed | `LegacyIfpaApi.MethodNotAllowedReportedAsRateLimit` | `LegacyIfpaApi.IntendedIfpaError` |

`LegacyIfpaApi.IfpaError` keeps the code as written. The message is only ever logged, and nothing else in the model uses it.

## Left out

- HTTP transport, promises and deferreds, JSON decoding, `console.log` and URL building are not modelled. The transport failure path (a rejected request passed on unchanged) is not modelled either. Operations return the call they would make, and replies are inputs.
- Endpoint path templates and `encodeURIComponent` are not modelled. The path is an `Endpoint` value carrying the player id.
- Copy versus aliasing is not modelled. With a falsy state, `src/ifpaApi.js` returns a fresh array (`[].concat`). On values the model can only state that the list is equal element for element.
- JavaScript key coercion is not modelled. Dictionary keys are the id values themselves, so `1` and `"1"` are different keys here but one key in JavaScript. A missing id is the key `Undefined`.
- The older client compares states with loose `==`. The model uses plain equality, as it does for the strict `===` of the newer client.
- Numbers are integers. NaN, fractions, infinities and the exponent notation JavaScript uses for very large numbers are not modelled. `getIfpaError` of such a number is outside the model.
- Calling `_getFilteredResults` with `null` throws a `TypeError` in JavaScript. This is not modelled.
- A `calendar` that is truthy but not an array is not modelled either: a response's `calendar` here is either a list or absent. In JavaScript the outcome depends on the state filter. With a truthy state, `.filter` is missing and a `TypeError` is thrown. With a falsy state, `[].concat(x)` wraps the value into the one-element list `[x]`, and that single value is then indexed by its `tournament_id`.
- For the older client, a reply that is itself `null` is not modelled.
- For the older client, the fields of the reply other than `calendar` and `total_entries` are not modelled. The callback never touches them.
- `getPlayerVsPlayer` of the older client (ifpa-api.js:92-95) has no guard. It only builds a URL, so it is covered by the omission of URL building above.
