/** The gateway's five actor routes: middleware, one service call, and the envelope. */
module ActorRoutes {
  import opened Wrappers
  import opened JsString
  import opened JsValue
  import opened ApifyService
  import opened GatewayEnvelope
  import opened AuthMiddleware

  datatype ActorRoute =
    | ListActorsRoute    // GET /
    | InputSchemaRoute   // GET /:actorId/input-schema
    | RunRoute           // POST /:actorId/run
    | RunStatusRoute     // GET /:actorId/runs/:runId/status
    | RunResultsRoute    // GET /:actorId/runs/:runId/results

  /** What a handler reads from the request: the header, the path parameters, the parsed body. */
  datatype RouteRequest = RouteRequest(authorization: Option<string>, actorId: string, runId: string, body: Value)

  /** The closed set of error codes each route can answer with. */
  function RouteCodes(route: ActorRoute): (codes: set<string>)
    ensures "INVALID_API_KEY" in codes && "NO_API_KEY" !in codes
  {
    match route
    case ListActorsRoute => {"INVALID_API_KEY", "FETCH_ACTORS_ERROR"}
    case InputSchemaRoute => {"INVALID_API_KEY", "INPUT_SCHEMA_NOT_FOUND", "FETCH_INPUT_SCHEMA_ERROR"}
    case RunRoute => {"INVALID_API_KEY", "ACTOR_NOT_FOUND", "INVALID_INPUTS", "EXECUTION_ERROR"}
    case RunStatusRoute => {"INVALID_API_KEY", "RUN_NOT_FOUND", "FETCH_RUN_STATUS_ERROR"}
    case RunResultsRoute => {"INVALID_API_KEY", "RUN_RESULTS_NOT_FOUND", "FETCH_RUN_RESULTS_ERROR"}
  }

  /** The nested ternaries of each handler, from `error.status` to the route's code. */
  function ErrorCode(route: ActorRoute, status: int): (code: string)
    ensures code in RouteCodes(route)
    ensures code == "INVALID_API_KEY" <==> status == 401
    ensures route == ListActorsRoute && status != 401 ==> code == "FETCH_ACTORS_ERROR"
    ensures route == InputSchemaRoute && status == 404 ==> code == "INPUT_SCHEMA_NOT_FOUND"
    ensures route == InputSchemaRoute && status !in {401, 404} ==> code == "FETCH_INPUT_SCHEMA_ERROR"
    ensures route == RunRoute && status == 404 ==> code == "ACTOR_NOT_FOUND"
    ensures route == RunRoute && status == 400 ==> code == "INVALID_INPUTS"
    ensures route == RunRoute && status !in {401, 404, 400} ==> code == "EXECUTION_ERROR"
    ensures route == RunStatusRoute && status == 404 ==> code == "RUN_NOT_FOUND"
    ensures route == RunStatusRoute && status !in {401, 404} ==> code == "FETCH_RUN_STATUS_ERROR"
    ensures route == RunResultsRoute && status == 404 ==> code == "RUN_RESULTS_NOT_FOUND"
    ensures route == RunResultsRoute && status !in {401, 404} ==> code == "FETCH_RUN_RESULTS_ERROR"
  {
    if status == 401 then "INVALID_API_KEY"
    else
      match route
      case ListActorsRoute => "FETCH_ACTORS_ERROR"
      case InputSchemaRoute => if status == 404 then "INPUT_SCHEMA_NOT_FOUND" else "FETCH_INPUT_SCHEMA_ERROR"
      case RunRoute =>
        if status == 404 then "ACTOR_NOT_FOUND" else if status == 400 then "INVALID_INPUTS" else "EXECUTION_ERROR"
      case RunStatusRoute => if status == 404 then "RUN_NOT_FOUND" else "FETCH_RUN_STATUS_ERROR"
      case RunResultsRoute => if status == 404 then "RUN_RESULTS_NOT_FOUND" else "FETCH_RUN_RESULTS_ERROR"
  }

  /** The service call each handler makes; the status and results routes pass only `runId`. */
  function ServiceCall(route: ActorRoute, apiKey: string, req: RouteRequest, platform: Platform): (o: Outcome)
    ensures o.Failure? ==> o.error.status in {400, 401, 404, 500}
    ensures o.Failure? && o.error.status in {400, 404} ==> route != ListActorsRoute
  {
    match route
    case ListActorsRoute => GetActors(Str(apiKey), platform)
    case InputSchemaRoute => GetActorInputSchema(Str(apiKey), Str(req.actorId), platform)
    case RunRoute => ExecuteActor(Str(apiKey), Str(req.actorId), req.body, platform)
    case RunStatusRoute => GetRunStatus(Str(apiKey), Str(req.runId), platform)
    case RunResultsRoute => GetRunResults(Str(apiKey), Str(req.runId), platform)
  }

  /** The one upstream request behind a route, if its guards let it through. */
  function UpstreamRequestOf(route: ActorRoute, apiKey: string, req: RouteRequest): (u: UpstreamRequest)
    ensures u.authorization == BearerPrefix + apiKey
    ensures StartsWith(u.url, ApiBase + "/")
    ensures u.verb == "POST" <==> route == RunRoute
    ensures u.body.Some? <==> route == RunRoute
    ensures route == RunRoute ==> u.body == Some(req.body) && u.contentType == Some("application/json")
  {
    match route
    case ListActorsRoute => ActorsRequest(Str(apiKey))
    case InputSchemaRoute => SchemaRequest(Str(apiKey), Str(req.actorId))
    case RunRoute => ExecuteRequest(Str(apiKey), Str(req.actorId), req.body)
    case RunStatusRoute => RunStatusRequest(Str(apiKey), Str(req.runId))
    case RunResultsRoute => RunResultsRequest(Str(apiKey), Str(req.runId))
  }

  /** The handler once the middleware has set `req.apiKey`: the service result in an envelope. */
  function Handler(route: ActorRoute, apiKey: string, req: RouteRequest, platform: Platform): (r: HttpResponse)
    ensures var o := ServiceCall(route, apiKey, req, platform);
            && (o.Success? ==> r == HttpResponse(200, SuccessBody(o.value)))
            && (o.Failure? ==> r == HttpResponse(o.error.status,
                                     ErrorBody(ErrorCode(route, o.error.status), o.error.message, o.error.details)))
  {
    var o := ServiceCall(route, apiKey, req, platform);
    match o
    case Success(data) => SuccessResponse(data)
    case Failure(e) =>
      assert e.status in {400, 401, 404, 500};
      ErrorResponse(e, ErrorCode(route, e.status))
  }

  /** A route as mounted: the bearer middleware, then the handler. */
  function Handle(route: ActorRoute, req: RouteRequest, platform: Platform): (r: HttpResponse)
    ensures !ExtractApiKey(req.authorization).Accept? ==> r == NoApiKeyResponse
    ensures r.status in {200, 400, 401, 404, 500}
    ensures r.body.SuccessBody? <==> r.status == 200
  {
    match ExtractApiKey(req.authorization)
    case Reject(response) => response
    case Accept(apiKey) => Handler(route, apiKey, req, platform)
  }

  /** Once the middleware accepts a key, the route's answer is the handler's. */
  lemma HandleAccepted(route: ActorRoute, req: RouteRequest, token: string, platform: Platform)
    requires ExtractApiKey(req.authorization) == Accept(token)
    ensures Handle(route, req, platform) == Handler(route, token, req, platform)
  {
  }

  /** Without a Bearer header every route answers 401 `NO_API_KEY`, whatever the upstream would say. */
  lemma NoHeaderRejected(route: ActorRoute, req: RouteRequest, platform: Platform)
    requires req.authorization.None? || !StartsWith(req.authorization.value, BearerPrefix)
    ensures Handle(route, req, platform) == NoApiKeyResponse
  {
  }

  /** Each handler depends on the upstream only through its one request, so at most one call is made per request. */
  lemma OneUpstreamRequest(route: ActorRoute, token: string, req: RouteRequest, p: Platform, q: Platform)
    requires p(UpstreamRequestOf(route, token, req)) == q(UpstreamRequestOf(route, token, req))
    ensures Handler(route, token, req, p) == Handler(route, token, req, q)
  {
    assert ServiceCall(route, token, req, p) == ServiceCall(route, token, req, q);
  }

  /** The run handler sends the request body to the platform as the run input, unchanged, and answers with the run. */
  lemma RunForwardsBody(token: string, req: RouteRequest, platform: Platform)
    requires token != "" && req.actorId != ""
    requires platform(ExecuteRequest(Str(token), Str(req.actorId), req.body)).Reply?
    ensures ExecuteRequest(Str(token), Str(req.actorId), req.body).body == Some(req.body)
    ensures Handler(RunRoute, token, req, platform)
            == HttpResponse(200, SuccessBody(platform(ExecuteRequest(Str(token), Str(req.actorId), req.body)).body))
  {
  }

  /** The status and results routes ignore the `actorId` path parameter. */
  lemma RunRoutesIgnoreActorId(route: ActorRoute, req: RouteRequest, actorId: string, platform: Platform)
    requires route == RunStatusRoute || route == RunResultsRoute
    ensures Handle(route, req, platform) == Handle(route, req.(actorId := actorId), platform)
  {
    var req' := req.(actorId := actorId);
    match ExtractApiKey(req.authorization)
    case Reject(_) =>
    case Accept(k) =>
      assert ServiceCall(route, k, req, platform) == ServiceCall(route, k, req', platform);
  }

  /** Every error response carries one of the route's own codes, and success is always 200. */
  lemma Answers(route: ActorRoute, req: RouteRequest, platform: Platform)
    ensures var r := Handle(route, req, platform);
            && (r.body.SuccessBody? ==> r.status == 200)
            && (r.body.ErrorBody? ==> r.body.code == "NO_API_KEY" || r.body.code in RouteCodes(route))
            && (r.body.ErrorBody? && r.body.code == "INVALID_API_KEY" ==> r.status == 401)
  {
    match ExtractApiKey(req.authorization)
    case Reject(_) =>
    case Accept(k) =>
      var o := ServiceCall(route, k, req, platform);
  }

  /** An upstream 401 is answered 401 `INVALID_API_KEY` by every handler. */
  lemma UpstreamRefusalOnEveryRoute(route: ActorRoute, token: string, req: RouteRequest, platform: Platform)
    requires token != ""
    requires route in {InputSchemaRoute, RunRoute} ==> req.actorId != ""
    requires route in {RunStatusRoute, RunResultsRoute} ==> req.runId != ""
    requires IsUpstreamStatus(platform(UpstreamRequestOf(route, token, req)), 401)
    ensures Handler(route, token, req, platform)
            == HttpResponse(401, ErrorBody("INVALID_API_KEY", "Invalid API key", Undefined))
  {
    assert ServiceCall(route, token, req, platform) == Failure(InvalidKey);
    assert ErrorCode(route, 401) == "INVALID_API_KEY";
  }

  /** An upstream 404 for the schema is answered 404 `INPUT_SCHEMA_NOT_FOUND`. */
  lemma SchemaNotFound(token: string, req: RouteRequest, platform: Platform)
    requires token != "" && req.actorId != ""
    requires IsUpstreamStatus(platform(SchemaRequest(Str(token), Str(req.actorId))), 404)
    ensures Handler(InputSchemaRoute, token, req, platform)
            == HttpResponse(404, ErrorBody("INPUT_SCHEMA_NOT_FOUND", "Actor input schema not found", Undefined))
  {
  }

  /** A 200 reply without a schema is answered 500 `FETCH_INPUT_SCHEMA_ERROR`, not 404. */
  lemma MissingSchemaRoute(token: string, req: RouteRequest, platform: Platform)
    requires token != "" && req.actorId != ""
    requires platform(SchemaRequest(Str(token), Str(req.actorId))).Reply?
    requires var body := platform(SchemaRequest(Str(token), Str(req.actorId))).body;
             !IsNullish(body) && !Truthy(OptGet(OptGet(GetProp(body, "components"), "schemas"), "inputSchema"))
    ensures Handler(InputSchemaRoute, token, req, platform)
            == HttpResponse(500, ErrorBody("FETCH_INPUT_SCHEMA_ERROR", "Failed to fetch actor input schema",
                                           Str(SchemaMissingMessage)))
  {
    MissingSchemaIsServerError(Str(token), Str(req.actorId), platform);
    assert ErrorCode(InputSchemaRoute, 500) == "FETCH_INPUT_SCHEMA_ERROR";
  }

  /** A run the platform rejects with 400 is answered 400 `INVALID_INPUTS`, echoing the platform's body. */
  lemma RejectedInputs(token: string, req: RouteRequest, platform: Platform)
    requires token != "" && req.actorId != ""
    requires IsUpstreamStatus(platform(ExecuteRequest(Str(token), Str(req.actorId), req.body)), 400)
    ensures Handler(RunRoute, token, req, platform)
            == HttpResponse(400, ErrorBody("INVALID_INPUTS", "Invalid input parameters",
                                           platform(ExecuteRequest(Str(token), Str(req.actorId), req.body)).body))
  {
    assert ErrorCode(RunRoute, 400) == "INVALID_INPUTS";
  }
}
