# get-events: a Dafny model of the calendar gateway function

This project models `functions/get-events.js`, a Netlify function. It reads a
Google Calendar API key and calendar id from the environment. It sends one request
to the Google Calendar events endpoint for a time window. It then turns the
returned items into FullCalendar event records, and answers with a JSON
envelope that carries CORS headers.

Everything is modelled as pure functions. The source has no loops: the item
conversion is a `.map`, and the rest of the handler is a sequence of early
returns. Once the environment, the clock, the host's `Date` operations and the
network are passed in as values, the handler is a case analysis.

- `wrappers.dfy` (`Wrappers`): `Option` for values that may be `undefined`, and `Try` for calls that may throw.
- `js_values.dfy` (`JsValues`): JavaScript truthiness of strings, the `a || b` fallback and `slice(0, n)`.
- `item_mapper.dfy` (`ItemMapper`): raw items, event records, and the per-item mapping (lines 52-61).
- `get_events.dfy` (`GetEvents`): the configuration check, the query window, the upstream request, the status and envelope decisions, and `corsHeaders()`.

How the parameters stand in for the host:
- The environment variables are an `Env` of two optional strings.
- The clock reading `new Date()` is the parameter `now`, a time value in milliseconds.
- `DateHost` holds the host's parse (`new Date(s)`), its month shift (`setMonth(getMonth() + k)` on a copy) and its `toISOString()`. Parse and shift give `None` for an Invalid Date.
- The network is a function from an `UpstreamRequest` to `Try<Reply>`. A `Reply` holds the status and what `res.text()` and `res.json()` would each give, a value or a thrown error.
- `Prepare` covers everything the handler does before the network, so "no request is made" is a statement about `Prepare`'s result, and about `Handle` not depending on the network function.

Where the code differs from a reading of its intent, the model follows the code:
- A malformed, non-empty `timeMin` or `timeMax` does not fall back to the default window. `new Date(bad).toISOString()` throws a RangeError at line 31 or 32. That line is outside the `try` that starts at line 39, so the handler's promise rejects. The model's outcome for this is `Rejected(TimeMin)` or `Rejected(TimeMax)`, not a response. `timeMin` is formatted first.
- The events carry no `extendedProps` and no flyer URL. The location and URL are absent, not `""`, when the item's value is empty or missing.
- Error responses carry only the three CORS headers, with no `Content-Type`. Only the success response is cacheable.
- `res.ok` is modelled as a status in 200-299. So status 200 occurs exactly when the body carries events.
- The window is not checked to satisfy `timeMin < timeMax`.

## Model

| member | source | states |
|---|---|---|
| `JsValues.SlicePrefix` | functions/get-events.js:59 | `slice(0, n)` gives a prefix of the string of length at most `n`; the whole string when it is no longer than `n`, and exactly `n` characters otherwise |
| `ItemMapper.MapItem` | functions/get-events.js:52-61 | `id` passes through. `title` is the summary when non-empty, else "Untitled", so never empty. `start` and `end` each take `dateTime` when non-empty, else `date`, independently. `allDay` holds iff `start.date` is non-empty and `start.dateTime` is absent or empty, and then `start` is that date. `location`/`url` are absent iff the raw value is absent or empty, else unchanged. `description` is a prefix of the raw description (or of "") of at most 1000 characters, equal to it when it fits |
| `ItemMapper.MapItems` | functions/get-events.js:52 | one event per item, same length, and the event at position i is the mapping of the item at position i (order preserved) |
| `ItemMapper.MapItemsAppend` | functions/get-events.js:52 | mapping a concatenation is the concatenation of the mappings: no event depends on its neighbours |
| `ItemMapper.MappedEventsWellFormed` | functions/get-events.js:52-61 | every event in a mapped list has a non-empty title and a description of at most 1000 characters |
| `GetEvents.Configured` | functions/get-events.js:9 | the handler is configured iff both the API key and the calendar id are present and non-empty (the negation of `!API_KEY \|\| !GCAL_ID`) |
| `GetEvents.CorsHeaders` | functions/get-events.js:81-87 | the three CORS headers: any origin, methods `GET, OPTIONS`, header `Content-Type` |
| `GetEvents.IsOk` | functions/get-events.js:41 | `res.ok`: the upstream status is in the range 200-299 |
| `GetEvents.ItemsOf` | functions/get-events.js:52 | `data.items \|\| []`: the upstream items, or no items when `items` is absent |
| `GetEvents.ResolveBound` | functions/get-events.js:22-32 | a non-empty caller bound is parsed and re-formatted, and it is never replaced by the default; formatting succeeds iff the parse gives a valid date. An absent or empty bound gives `now` shifted by the given number of months, formatted |
| `GetEvents.Prepare` | functions/get-events.js:9-37 | returns an early response iff the key or the calendar id is missing or empty, and that response is a 500 with the configuration error and only CORS headers. It fails iff configured and a bound cannot be formatted, naming `timeMin` when that one fails. Otherwise the request carries the key, the calendar id, both resolved bounds, `singleEvents`, `orderBy=startTime` and `maxResults=2500` |
| `GetEvents.Finish` | functions/get-events.js:39-78 | a thrown fetch, a thrown body read or a thrown JSON parse gives a 500 "Server fetch failed" with the error as `details`. A non-ok reply gives its own status, with the status and the text in the body. An ok reply gives 200, exactly the success headers, and the mapped `items`; the events are empty when `items` is absent. Status 200 holds iff the body has events. Error responses have exactly the CORS headers, and every response has them |
| `GetEvents.Handle` | functions/get-events.js:5-79 | every returned response has the CORS headers; without configuration the outcome is the 500 configuration error; the handler rejects iff a window bound fails, naming the bound `Prepare` names; a fetched request returns `Finish` of the upstream reply; a 200 comes only from a fetched request and carries events |
| `GetEvents.NoRequestWithoutConfig` | functions/get-events.js:9-15 | without configuration the outcome does not depend on the upstream service at all, so no request is made |
| `GetEvents.MalformedTimeMinRejects` | functions/get-events.js:31 | a configured handler given a non-empty `timeMin` the host cannot parse rejects with that bound's error; it does not fall back to the default |
| `GetEvents.MalformedTimeMaxRejects` | functions/get-events.js:32 | once `timeMin` has been formatted, a non-empty `timeMax` the host cannot parse rejects with that bound's error; it does not fall back to the default |
| `GetEvents.SuccessfulRequest` | functions/get-events.js:49-71 | on an ok reply with a JSON body the handler returns 200 with the success headers and one event per item in order, each with a non-empty title and a bounded description |
| `GetEvents.TimedEventExample` | functions/get-events.js:52-71 | a single timed item "Gig" gives exactly one event with its `dateTime` start and end, `allDay` false, its link as `url`, an empty description and no location |

## Left out

- Network I/O (`fetch`, `res.text()`, `res.json()`): these are the `fetch` parameter and the `Reply` values. Timeouts and retries are the platform's, and the code has none.
- `process.env`: passed in as `Env`.
- Host date semantics (`new Date(s)` parsing, local-time `setMonth` arithmetic, `toISOString` formatting): these are the `DateHost` functions. Their calendar behaviour is not modelled.
- URL construction (`URLSearchParams`, `encodeURIComponent`, the endpoint string on lines 18 and 27-37): the request is modelled as a record of its parameters, not as a URL string. `event.queryStringParameters || {}` is modelled as the two optional query values.
- `JSON.stringify` of the body, and the order of the keys in it: the body is a datatype.
- Non-object JSON: an item that is `null`, a `data` that is `null`, or an `items` value that is truthy but not an array. In the code each of these throws a TypeError, which the `try` turns into a 500. Items and payloads here are always objects with optional string fields.
- Strings are sequences of `char`, each standing for one UTF-16 code unit. A Dafny `char` is never a surrogate, so only text without surrogate code units (BMP characters) is represented. For text with characters outside the BMP, such as an emoji that JavaScript counts as two code units, the code-unit count that `.length` and `slice(0, 1000)` use is not modelled.
- The platform's treatment of a rejected handler promise (the response the caller then sees) is outside the function.
- Async/await and concurrent invocations: each call is independent and has no shared state.
