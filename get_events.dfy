/** The `get-events` request handler: configuration check, query window,
    one upstream request, and the response envelope. The environment, the
    clock, the host's Date arithmetic and the network are parameters. */
module GetEvents {
  import opened Wrappers
  import opened JsValues
  import opened ItemMapper

  /** The two environment variables the handler reads. */
  datatype Env = Env(apiKey: Option<string>, calendarId: Option<string>)

  /** The `timeMin` and `timeMax` query parameters (`qs.get` gives `null`
      for a missing one). */
  datatype Query = Query(timeMin: Option<string>, timeMax: Option<string>)

  /** The host's Date operations, on time values in milliseconds; `None`
      stands for an Invalid Date.
      - parse: `new Date(s)`
      - addMonths: copy a Date and `setMonth(getMonth() + k)` on the copy
      - toIso: `toISOString()` of a valid Date */
  datatype DateHost = DateHost(
    parse: string -> Option<int>,
    addMonths: (int, int) -> Option<int>,
    toIso: int -> string)

  /** What the upstream calendar service is asked for. */
  datatype UpstreamRequest = UpstreamRequest(
    calendarId: string,
    key: string,
    timeMin: string,
    timeMax: string,
    singleEvents: bool,
    orderBy: string,
    maxResults: nat)

  /** The parsed JSON body of a successful upstream reply (`data`). */
  datatype Payload = Payload(items: Option<seq<RawItem>>)

  /** An upstream reply as the handler may consume it: its status, and what
      `res.text()` and `res.json()` would each give. */
  datatype Reply = Reply(status: int, text: Try<string>, json: Try<Payload>)

  /** The JSON body of a response. */
  datatype Body =
    | ErrorBody(error: string, status: Option<int>, details: Option<string>)
    | EventsBody(events: seq<Event>)

  datatype Response = Response(statusCode: int, headers: map<string, string>, body: Body)

  /** Which window bound's `toISOString()` threw. */
  datatype Bound = TimeMin | TimeMax

  /** What the handler decides before any network traffic. */
  datatype Plan = Respond(response: Response) | Fail(bound: Bound) | Fetch(request: UpstreamRequest)

  /** What the handler's promise settles to: a returned response, or a
      rejection with the RangeError thrown while formatting a window bound. */
  datatype Outcome = Returned(response: Response) | Rejected(bound: Bound)

  const ConfigErrorMessage: string := "Server not configured: missing GOOGLE_CALENDAR_API_KEY or GOOGLE_CALENDAR_ID"
  const UpstreamErrorMessage: string := "Google API error"
  const FetchFailedMessage: string := "Server fetch failed"
  const CacheControl: string := "public, max-age=300, s-maxage=300"
  const MonthsBack: int := -6
  const MonthsAhead: int := 12
  const MaxResults: nat := 2500

  /** `corsHeaders()` */
  function CorsHeaders(): map<string, string> {
    map["Access-Control-Allow-Origin" := "*",
        "Access-Control-Allow-Methods" := "GET, OPTIONS",
        "Access-Control-Allow-Headers" := "Content-Type"]
  }

  /** The headers of the success response: the CORS headers, then the
      content type and the cache policy. */
  function SuccessHeaders(): map<string, string> {
    CorsHeaders()["Content-Type" := "application/json"]["Cache-Control" := CacheControl]
  }

  /** `m` carries every CORS header with its value. */
  predicate HasCors(m: map<string, string>) {
    forall k | k in CorsHeaders() :: k in m && m[k] == CorsHeaders()[k]
  }

  /** `res.ok`: the status is in the range 200-299. */
  predicate IsOk(status: int) {
    200 <= status <= 299
  }

  /** Both environment variables are set to non-empty strings. */
  predicate Configured(env: Env) {
    Truthy(env.apiKey) && Truthy(env.calendarId)
  }

  function ErrorResponse(status: int, error: string, upstreamStatus: Option<int>, details: Option<string>): Response {
    Response(status, CorsHeaders(), ErrorBody(error, upstreamStatus, details))
  }

  /** `toISOString()` of a Date that may be invalid; `None` when it throws. */
  function IsoOf(host: DateHost, d: Option<int>): Option<string> {
    if d.Some? then Some(host.toIso(d.value)) else None
  }

  /** One window bound: `(raw ? new Date(raw) : fallback).toISOString()`,
      where the fallback is `now` shifted by `months`. `None` when the
      formatting throws, which happens for a malformed non-empty `raw`. */
  function ResolveBound(host: DateHost, raw: Option<string>, now: int, months: int): (r: Option<string>)
    // a non-empty caller value is used, normalised, and never replaced by the default
    ensures Truthy(raw) ==> (r.Some? <==> host.parse(raw.value).Some?)
    ensures Truthy(raw) && r.Some? ==> r.value == host.toIso(host.parse(raw.value).value)
    // an absent or empty one gives the shifted clock
    ensures !Truthy(raw) ==> r == IsoOf(host, host.addMonths(now, months))
  {
    IsoOf(host, if Truthy(raw) then host.parse(raw.value) else host.addMonths(now, months))
  }

  /** Everything the handler does up to the upstream request. */
  function Prepare(env: Env, query: Query, now: int, host: DateHost): (p: Plan)
    // the configuration check comes first, and is the only early response
    ensures p.Respond? <==> !Configured(env)
    ensures p.Respond? ==> p.response.statusCode == 500 && p.response.body.ErrorBody?
                           && p.response.body.error == ConfigErrorMessage
                           && p.response.headers == CorsHeaders()
    // a bound that cannot be formatted stops the handler, timeMin before timeMax
    ensures p.Fail? ==> (p.bound == TimeMin <==> ResolveBound(host, query.timeMin, now, MonthsBack).None?)
    ensures p.Fail? <==> Configured(env) && (ResolveBound(host, query.timeMin, now, MonthsBack).None?
                                           || ResolveBound(host, query.timeMax, now, MonthsAhead).None?)
    // the request carries the configuration, the window and the fixed options
    ensures p.Fetch? ==>
      && Some(p.request.key) == env.apiKey && Some(p.request.calendarId) == env.calendarId
      && Some(p.request.timeMin) == ResolveBound(host, query.timeMin, now, MonthsBack)
      && Some(p.request.timeMax) == ResolveBound(host, query.timeMax, now, MonthsAhead)
      && p.request.singleEvents && p.request.orderBy == "startTime" && p.request.maxResults == MaxResults
  {
    if !Configured(env) then
      Respond(ErrorResponse(500, ConfigErrorMessage, None, None))
    else
      var lo := ResolveBound(host, query.timeMin, now, MonthsBack);
      var hi := ResolveBound(host, query.timeMax, now, MonthsAhead);
      if lo.None? then Fail(TimeMin)
      else if hi.None? then Fail(TimeMax)
      else Fetch(UpstreamRequest(env.calendarId.value, env.apiKey.value, lo.value, hi.value,
                                 true, "startTime", MaxResults))
  }

  /** `data.items || []` */
  function ItemsOf(data: Payload): (items: seq<RawItem>)
    ensures data.items.None? ==> items == []
    ensures data.items.Some? ==> items == data.items.value
  {
    if data.items.Some? then data.items.value else []
  }

  /** The `try` block: the response built from what the upstream request gave. */
  function Finish(upstream: Try<Reply>): (r: Response)
    ensures HasCors(r.headers)
    // a thrown fetch, body read or JSON parse becomes a 500 carrying the error
    ensures upstream.Threw? ==> r == ErrorResponse(500, FetchFailedMessage, None, Some(upstream.reason))
    ensures upstream.Done? && !IsOk(upstream.value.status) && upstream.value.text.Threw? ==>
              r == ErrorResponse(500, FetchFailedMessage, None, Some(upstream.value.text.reason))
    ensures upstream.Done? && IsOk(upstream.value.status) && upstream.value.json.Threw? ==>
              r == ErrorResponse(500, FetchFailedMessage, None, Some(upstream.value.json.reason))
    // a non-ok reply passes its status and text through
    ensures upstream.Done? && !IsOk(upstream.value.status) && upstream.value.text.Done? ==>
              && r.statusCode == upstream.value.status && r.body.ErrorBody?
              && r.body.error == UpstreamErrorMessage
              && r.body.status == Some(upstream.value.status)
              && r.body.details == Some(upstream.value.text.value)
    // an ok reply with a JSON body gives the mapped items
    ensures upstream.Done? && IsOk(upstream.value.status) && upstream.value.json.Done? ==>
              && r.body.EventsBody?
              && r.body.events == MapItems(ItemsOf(upstream.value.json.value))
    ensures upstream.Done? && IsOk(upstream.value.status) && upstream.value.json.Done?
              && upstream.value.json.value.items.None?
            ==> r.body.events == []
    // only the success response has status 200, and only it is cacheable
    ensures r.statusCode == 200 <==> r.body.EventsBody?
    ensures r.body.EventsBody? ==> r.headers == SuccessHeaders()
    ensures r.body.EventsBody? ==>
              && "Cache-Control" in r.headers && r.headers["Cache-Control"] == CacheControl
              && "Content-Type" in r.headers && r.headers["Content-Type"] == "application/json"
    ensures r.body.ErrorBody? ==> r.headers == CorsHeaders()
  {
    match upstream
    case Threw(reason) => ErrorResponse(500, FetchFailedMessage, None, Some(reason))
    case Done(res) =>
      if !IsOk(res.status) then
        match res.text
        case Threw(reason) => ErrorResponse(500, FetchFailedMessage, None, Some(reason))
        case Done(text) => ErrorResponse(res.status, UpstreamErrorMessage, Some(res.status), Some(text))
      else
        match res.json
        case Threw(reason) => ErrorResponse(500, FetchFailedMessage, None, Some(reason))
        case Done(data) => Response(200, SuccessHeaders(), EventsBody(MapItems(ItemsOf(data))))
  }

  /** `handler(event)`, with the upstream service as the function `fetch`. */
  function Handle(env: Env, query: Query, now: int, host: DateHost,
                  fetch: UpstreamRequest -> Try<Reply>): (o: Outcome)
    ensures o.Returned? ==> HasCors(o.response.headers)
    ensures !Configured(env) ==> o == Returned(ErrorResponse(500, ConfigErrorMessage, None, None))
    ensures o.Rejected? <==> Prepare(env, query, now, host).Fail?
    ensures o.Rejected? ==> o.bound == Prepare(env, query, now, host).bound
    ensures Prepare(env, query, now, host).Fetch? ==>
              o == Returned(Finish(fetch(Prepare(env, query, now, host).request)))
    ensures o.Returned? && o.response.statusCode == 200 ==>
              o.response.body.EventsBody? && Prepare(env, query, now, host).Fetch?
  {
    match Prepare(env, query, now, host)
    case Respond(response) => Returned(response)
    case Fail(bound) => Rejected(bound)
    case Fetch(request) => Returned(Finish(fetch(request)))
  }

  /** Without configuration no request is made: the outcome is the same
      whatever the upstream service would have answered. */
  lemma NoRequestWithoutConfig(env: Env, query: Query, now: int, host: DateHost,
                               fetch1: UpstreamRequest -> Try<Reply>, fetch2: UpstreamRequest -> Try<Reply>)
    requires !Configured(env)
    ensures Handle(env, query, now, host, fetch1) == Handle(env, query, now, host, fetch2)
  {
  }

  /** A malformed, non-empty `timeMin` does not fall back to the default
      window: the handler rejects, and makes no request. */
  lemma MalformedTimeMinRejects(env: Env, query: Query, now: int, host: DateHost,
                                fetch: UpstreamRequest -> Try<Reply>)
    requires Configured(env) && Truthy(query.timeMin) && host.parse(query.timeMin.value).None?
    ensures Handle(env, query, now, host, fetch) == Rejected(TimeMin)
  {
  }

  /** The same for `timeMax`, once `timeMin` has been formatted. */
  lemma MalformedTimeMaxRejects(env: Env, query: Query, now: int, host: DateHost,
                                fetch: UpstreamRequest -> Try<Reply>)
    requires Configured(env) && ResolveBound(host, query.timeMin, now, MonthsBack).Some?
    requires Truthy(query.timeMax) && host.parse(query.timeMax.value).None?
    ensures Handle(env, query, now, host, fetch) == Rejected(TimeMax)
  {
  }

  /** A successful round trip: the events are the upstream items mapped one
      by one, in order, each titled and with a bounded description. */
  lemma SuccessfulRequest(env: Env, query: Query, now: int, host: DateHost,
                                             fetch: UpstreamRequest -> Try<Reply>)
    requires Prepare(env, query, now, host).Fetch?
    requires fetch(Prepare(env, query, now, host).request).Done?
    requires IsOk(fetch(Prepare(env, query, now, host).request).value.status)
    requires fetch(Prepare(env, query, now, host).request).value.json.Done?
    ensures var items := ItemsOf(fetch(Prepare(env, query, now, host).request).value.json.value);
            var o := Handle(env, query, now, host, fetch);
            && o.Returned? && o.response.statusCode == 200
            && o.response.headers == SuccessHeaders()
            && o.response.body.EventsBody?
            && |o.response.body.events| == |items|
            && (forall i :: 0 <= i < |items| ==> o.response.body.events[i] == MapItem(items[i]))
            && (forall e | e in o.response.body.events :: e.title != "" && |e.description| <= DescriptionLimit)
  {
  }

  /** One timed event, end to end: no `extendedProps`, and the empty
      location is dropped rather than sent as "". */
  lemma TimedEventExample(env: Env, query: Query, now: int, host: DateHost,
                          fetch: UpstreamRequest -> Try<Reply>)
    requires Prepare(env, query, now, host).Fetch?
    requires fetch(Prepare(env, query, now, host).request) ==
      Done(Reply(200, Done(""), Done(Payload(Some([
        RawItem(Some("1"), Some("Gig"), None, None,
                Some(EventTime(None, Some("2024-06-01T20:00:00Z"))),
                Some(EventTime(None, Some("2024-06-01T23:00:00Z"))),
                Some("https://cal/1"))])))))
    ensures Handle(env, query, now, host, fetch) ==
      Returned(Response(200, SuccessHeaders(), EventsBody([
        Event(Some("1"), "Gig", Some("2024-06-01T20:00:00Z"), Some("2024-06-01T23:00:00Z"),
              None, Some("https://cal/1"), "", false)])))
  {
  }
}
