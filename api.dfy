/**
 * The data client of src/lib/api.ts: request construction and response classification,
 * the leads query string, the health check, the outreach deep links, and the two
 * group-and-count transformers used by the dashboard charts.
 *
 * The network is a parameter `server` that maps the request the client would send to the
 * outcome `fetch` would deliver. The browser's encoders (`encodeURIComponent`, the
 * URLSearchParams form encoding), `formatDateForChart` and `new Date(label).getTime()` are
 * parameters too: their exact tables are not part of this model.
 */
module Api {
  import opened Wrappers
  import opened Strings
  import opened LeadsQuery

  const ApiBaseUrl := "https://law-firm-backend-936902782519.us-central1.run.app"

  // ---------------------------------------------------------------------------
  // JSON bodies
  // ---------------------------------------------------------------------------

  /** A value produced by `response.json()`. */
  datatype Json =
    | JNull
    | JBool(b: bool)
    | JNumber(n: real)
    | JString(s: string)
    | JArray(items: seq<Json>)
    | JObject(fields: map<string, Json>)

  /** JavaScript truthiness of a parsed JSON value (JSON has no NaN). */
  predicate Truthy(j: Json)
  {
    match j
    case JNull => false
    case JBool(b) => b
    case JNumber(n) => n != 0.0
    case JString(s) => s != ""
    case _ => true
  }

  /** Property access `j.key` on a non-null value; `None` stands for `undefined`. */
  function Member(j: Json, key: string): Option<Json>
  {
    if j.JObject? && key in j.fields then Some(j.fields[key]) else None
  }

  // ---------------------------------------------------------------------------
  // apiRequest
  // ---------------------------------------------------------------------------

  type Headers = map<string, string>

  const DefaultHeaders: Headers := map["Content-Type" := "application/json"]

  /** The caller's `RequestInit` (only plain-object headers are modelled). */
  datatype RequestInit = RequestInit(verb: Option<string>, headers: Option<Headers>, body: Option<string>)

  /** What `fetch` is called with. `verb == None` is a GET (the `method` field). */
  datatype FetchRequest = FetchRequest(url: string, verb: Option<string>, headers: Headers, body: Option<string>)

  /** Result of `response.json()`. */
  datatype Body = Parsed(json: Json) | Unparsable(reason: string)

  /** What `await fetch(...)` delivers: a rejection or a response. */
  datatype FetchOutcome =
    | Rejected(reason: string)
    | Response(status: int, statusText: string, body: Body)

  /** The errors `apiRequest` rethrows. */
  datatype ApiFailure =
    | FetchFailed(reason: string)               // fetch rejected (network)
    | HttpStatus(status: int, statusText: string) // response.ok was false
    | BodyFailed(reason: string)                // response.json() rejected
    | NullEnvelope                              // `data.success` on a null body throws
    | ApiError(message: Json)                   // `new Error(data.message || 'Erro na API')`

  /** `response.ok`. */
  predicate IsOk(status: int)
  {
    200 <= status <= 299
  }

  /** The text of the error thrown for a non-2xx response. */
  function HttpErrorText(status: int, statusText: string): string
  {
    "HTTP " + IntToString(status) + ": " + statusText
  }

  /** The headers object literal: the default Content-Type, then the caller's headers. */
  function MergedHeaders(options: Option<RequestInit>): Headers
  {
    if options.Some? && options.value.headers.Some? then DefaultHeaders + options.value.headers.value
    else DefaultHeaders
  }

  /**
   * The `fetch` arguments. `...options` is spread after the merged `headers`, so a caller
   * that passes `headers` replaces the merged object, default Content-Type included.
   */
  function BuildRequest(endpoint: string, options: Option<RequestInit>): (req: FetchRequest)
    ensures req.url == ApiBaseUrl + endpoint
    ensures options.Some? && options.value.headers.Some? ==> req.headers == options.value.headers.value
    ensures options.None? || options.value.headers.None? ==> req.headers == DefaultHeaders
    ensures req.verb == (if options.Some? then options.value.verb else None)
  {
    var merged := MergedHeaders(options);
    match options
    case None => FetchRequest(ApiBaseUrl + endpoint, None, merged, None)
    case Some(o) =>
      FetchRequest(ApiBaseUrl + endpoint, o.verb, if o.headers.Some? then o.headers.value else merged, o.body)
  }

  /** The message passed to `new Error` for an envelope with `success === false`. */
  function EnvelopeMessage(j: Json): Json
  {
    var m := Member(j, "message");
    if m.Some? && Truthy(m.value) then m.value else JString("Erro na API")
  }

  /** The classification `apiRequest` performs on what `fetch` delivered. */
  function Classify(outcome: FetchOutcome): (r: Result<Json, ApiFailure>)
    // a non-2xx status fails with the status line; the body is not looked at
    ensures outcome.Response? && !IsOk(outcome.status) ==>
              r == Failure(HttpStatus(outcome.status, outcome.statusText))
    // an explicit `success: false` fails with the server's message or the default
    ensures outcome.Response? && IsOk(outcome.status) && outcome.body.Parsed?
            && Member(outcome.body.json, "success") == Some(JBool(false)) ==>
              r == Failure(ApiError(EnvelopeMessage(outcome.body.json)))
    // anything else that parsed to a non-null value passes through unchanged
    ensures r.Success? <==>
              && outcome.Response? && IsOk(outcome.status) && outcome.body.Parsed?
              && outcome.body.json != JNull
              && Member(outcome.body.json, "success") != Some(JBool(false))
    ensures r.Success? ==> r.value == outcome.body.json
    // the error `fetch`, `response.json()` or `data.success` threw is rethrown as it is
    ensures outcome.Rejected? ==> r == Failure(FetchFailed(outcome.reason))
    ensures outcome.Response? && IsOk(outcome.status) && outcome.body.Unparsable? ==>
              r == Failure(BodyFailed(outcome.body.reason))
    ensures outcome.Response? && IsOk(outcome.status) && outcome.body == Parsed(JNull) ==>
              r == Failure(NullEnvelope)
  {
    match outcome
    case Rejected(reason) => Failure(FetchFailed(reason))
    case Response(status, statusText, body) =>
      if !IsOk(status) then Failure(HttpStatus(status, statusText))
      else
        match body
        case Unparsable(reason) => Failure(BodyFailed(reason))
        case Parsed(data) =>
          if data == JNull then Failure(NullEnvelope)
          else if Member(data, "success") == Some(JBool(false)) then Failure(ApiError(EnvelopeMessage(data)))
          else Success(data)
  }

  /** `apiRequest(endpoint, options)` against the given server. */
  function ApiRequest(endpoint: string, options: Option<RequestInit>, server: FetchRequest -> FetchOutcome): Result<Json, ApiFailure>
  {
    Classify(server(BuildRequest(endpoint, options)))
  }

  /** `return response.data`: a failure propagates, a success yields the `data` member. */
  function ResponseData(r: Result<Json, ApiFailure>): Result<Option<Json>, ApiFailure>
  {
    match r
    case Success(j) => Success(Member(j, "data"))
    case Failure(e) => Failure(e)
  }

  lemma HttpErrorScenario(body: Body)
    ensures Classify(Response(404, "Not Found", body)) == Failure(HttpStatus(404, "Not Found"))
    ensures HttpErrorText(404, "Not Found") == "HTTP 404: Not Found"
  {
    assert NatToString(404) == NatToString(40) + ['4'];
    assert NatToString(40) == NatToString(4) + ['0'];
  }

  lemma EnvelopeScenarios(data: Json)
    ensures Classify(Response(200, "OK", Parsed(JObject(map["success" := JBool(false), "message" := JString("X")]))))
         == Failure(ApiError(JString("X")))
    ensures Classify(Response(200, "OK", Parsed(JObject(map["success" := JBool(false), "message" := JString("")]))))
         == Failure(ApiError(JString("Erro na API")))
    ensures Classify(Response(200, "OK", Parsed(JObject(map["success" := JBool(false)]))))
         == Failure(ApiError(JString("Erro na API")))
    ensures var ok := JObject(map["success" := JBool(true), "data" := data]);
            Classify(Response(200, "OK", Parsed(ok))) == Success(ok)
    ensures var bare := JObject(map["data" := data]);
            Classify(Response(201, "Created", Parsed(bare))) == Success(bare)
  {
  }

  /** Passing `headers` drops the default Content-Type unless the caller repeats it. */
  lemma CallerHeadersReplaceDefault(endpoint: string, h: Headers)
    requires "Content-Type" !in h
    ensures "Content-Type" in MergedHeaders(Some(RequestInit(None, Some(h), None)))
    ensures "Content-Type" !in BuildRequest(endpoint, Some(RequestInit(None, Some(h), None))).headers
  {
  }

  // ---------------------------------------------------------------------------
  // The fixed-path fetchers
  // ---------------------------------------------------------------------------

  /** `getFollowupLeads()` */
  function GetFollowupLeads(server: FetchRequest -> FetchOutcome): Result<Option<Json>, ApiFailure>
  {
    ResponseData(ApiRequest("/api/analytics/leads/followup", None, server))
  }

  /** `getAdvogados()` */
  function GetAdvogados(server: FetchRequest -> FetchOutcome): Result<Option<Json>, ApiFailure>
  {
    ResponseData(ApiRequest("/api/analytics/advogados", None, server))
  }

  /** `getDashboardSummary()` */
  function GetDashboardSummary(server: FetchRequest -> FetchOutcome): Result<Option<Json>, ApiFailure>
  {
    ResponseData(ApiRequest("/api/analytics/dashboard/summary", None, server))
  }

  /** A GET with the default headers at the given path, as every fetcher without options sends. */
  function DefaultGet(path: string): FetchRequest
  {
    FetchRequest(ApiBaseUrl + path, None, DefaultHeaders, None)
  }

  /**
   * Each fetcher sends one GET with the default headers to its fixed path; a failure is
   * passed on as it is, and a success yields the envelope's `data` member.
   */
  lemma {:induction false} FetchersUnwrapData(server: FetchRequest -> FetchOutcome)
    ensures GetAdvogados(server) == ResponseData(Classify(server(DefaultGet("/api/analytics/advogados"))))
    ensures GetDashboardSummary(server) == ResponseData(Classify(server(DefaultGet("/api/analytics/dashboard/summary"))))
    ensures GetFollowupLeads(server) == ResponseData(Classify(server(DefaultGet("/api/analytics/leads/followup"))))
    ensures forall e :: GetAdvogados(server) == Failure(e) <==> Classify(server(DefaultGet("/api/analytics/advogados"))) == Failure(e)
  {
  }

  /** `getLeads(filters)` */
  method GetLeads(filters: Option<LeadFilters>, encode: string -> string, server: FetchRequest -> FetchOutcome)
    returns (r: Result<Option<Json>, ApiFailure>)
    ensures r == ResponseData(ApiRequest(LeadsEndpoint(SelectedParams(filters), encode), None, server))
  {
    var params := LeadsQueryParams(filters);
    var endpoint := LeadsEndpoint(params, encode);
    var response := ApiRequest(endpoint, None, server);
    r := ResponseData(response);
  }

  // ---------------------------------------------------------------------------
  // checkApiHealth
  // ---------------------------------------------------------------------------

  /** `checkApiHealth()`: never fails; true iff the body's `status` is exactly "healthy". */
  function CheckApiHealth(server: FetchRequest -> FetchOutcome): (healthy: bool)
    ensures healthy <==>
              var o := server(DefaultGet("/api/analytics/health"));
              && o.Response? && IsOk(o.status) && o.body.Parsed?
              && Member(o.body.json, "status") == Some(JString("healthy"))
              && Member(o.body.json, "success") != Some(JBool(false))
  {
    match ApiRequest("/api/analytics/health", None, server)
    case Success(response) => Member(response, "status") == Some(JString("healthy"))
    case Failure(_) => false
  }

}
