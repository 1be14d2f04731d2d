/**
 * The gateway's service layer: six operations against the platform's REST API.
 * Each checks its arguments, makes one upstream request, and either returns the
 * upstream body or throws a `{status, message, details}` error. The upstream is
 * a function from the request to what the HTTP client ends in.
 */
module ApifyService {
  import opened Wrappers
  import opened JsValue

  const ApiBase := "https://api.apify.com/v2"

  /** One request to the platform. `body` is present only on the run-creating POST. */
  datatype UpstreamRequest = UpstreamRequest(
    verb: string, url: string, authorization: string, contentType: Option<string>, body: Option<Value>)

  /** How one HTTP-client call ends. */
  datatype Upstream =
    | Reply(body: Value)                                   // 2xx, with `response.data`
    | HttpError(status: int, body: Value, message: string) // the error has a `response`
    | NoResponse(message: string)                          // network failure: no `response`

  type Platform = UpstreamRequest -> Upstream

  /** What a service function throws; `details` is `undefined` when the literal leaves it out. */
  datatype ServiceError = ServiceError(status: int, message: string, details: Value)

  type Outcome = Result<Value, ServiceError>

  /** The error value a `catch` block sees: one with an upstream response, or one without. */
  datatype Caught =
    | WithResponse(status: int, body: Value, message: string)
    | WithoutResponse(message: string)

  const MissingKey := ServiceError(401, "API key is required", Undefined)
  const InvalidKey := ServiceError(401, "Invalid API key", Undefined)
  const MissingActorId := ServiceError(400, "Actor ID is required", Undefined)
  const MissingRunId := ServiceError(400, "Run ID is required", Undefined)
  const SchemaMissingMessage := "Input schema not found for this actor"

  predicate IsUpstreamStatus(u: Upstream, status: int) {
    u.HttpError? && u.status == status
  }

  function Bearer(apiKey: Value): string {
    "Bearer " + ToString(apiKey)
  }

  function CaughtOf(u: Upstream): Caught
    requires !u.Reply?
  {
    match u
    case HttpError(status, body, message) => WithResponse(status, body, message)
    case NoResponse(message) => WithoutResponse(message)
  }

  /**
   * The shared shape of every `catch` block: an upstream 401 is an invalid key,
   * then (where the operation checks them) 404 and 400, and anything else is a
   * 500 with the operation's message and the caught error's message as details.
   */
  function Classify(c: Caught, notFound: Option<string>, checksBadInput: bool, failure: string): (e: ServiceError)
    ensures c.WithResponse? && c.status == 401 ==> e == InvalidKey
    ensures c.WithResponse? && c.status == 404 && notFound.Some? ==> e == ServiceError(404, notFound.value, Undefined)
    ensures c.WithResponse? && c.status == 400 && checksBadInput ==>
              e == ServiceError(400, "Invalid input parameters", c.body)
    ensures c.WithResponse? && c.status != 401 && !(c.status == 404 && notFound.Some?) &&
            !(c.status == 400 && checksBadInput) ==>
              e == ServiceError(500, failure, Str(c.message))
    ensures c.WithoutResponse? ==> e == ServiceError(500, failure, Str(c.message))
    ensures e.status in {400, 401, 404, 500}
  {
    if c.WithResponse? && c.status == 401 then InvalidKey
    else if c.WithResponse? && c.status == 404 && notFound.Some? then ServiceError(404, notFound.value, Undefined)
    else if c.WithResponse? && c.status == 400 && checksBadInput then
      ServiceError(400, "Invalid input parameters", c.body)
    else ServiceError(500, failure, Str(c.message))
  }

  /** The `try` of the operations that hand back `response.data` as it is. */
  function PassThrough(u: Upstream, notFound: Option<string>, checksBadInput: bool, failure: string): Outcome
  {
    match u
    case Reply(body) => Success(body)
    case _ => Failure(Classify(CaughtOf(u), notFound, checksBadInput, failure))
  }

  function ValidateRequest(apiKey: Value): UpstreamRequest {
    UpstreamRequest("GET", ApiBase + "/users/me", Bearer(apiKey), None, None)
  }

  function ActorsRequest(apiKey: Value): UpstreamRequest {
    UpstreamRequest("GET", ApiBase + "/acts", Bearer(apiKey), None, None)
  }

  function SchemaRequest(apiKey: Value, actorId: Value): UpstreamRequest {
    UpstreamRequest("GET", ApiBase + "/acts/" + ToString(actorId) + "/builds/default/openapi.json",
                    Bearer(apiKey), None, None)
  }

  function ExecuteRequest(apiKey: Value, actorId: Value, inputs: Value): UpstreamRequest {
    UpstreamRequest("POST", ApiBase + "/acts/" + ToString(actorId) + "/runs",
                    Bearer(apiKey), Some("application/json"), Some(inputs))
  }

  function RunStatusRequest(apiKey: Value, runId: Value): UpstreamRequest {
    UpstreamRequest("GET", ApiBase + "/actor-runs/" + ToString(runId), Bearer(apiKey), None, None)
  }

  function RunResultsRequest(apiKey: Value, runId: Value): UpstreamRequest {
    UpstreamRequest("GET", ApiBase + "/actor-runs/" + ToString(runId) + "/dataset/items",
                    Bearer(apiKey), None, None)
  }

  /** `validateApiKey`: the account record of the key's owner. */
  function ValidateApiKey(apiKey: Value, platform: Platform): (r: Outcome)
    ensures !Truthy(apiKey) ==> r == Failure(MissingKey)
    ensures Truthy(apiKey) && platform(ValidateRequest(apiKey)).Reply? ==>
              r == Success(platform(ValidateRequest(apiKey)).body)
    ensures Truthy(apiKey) && IsUpstreamStatus(platform(ValidateRequest(apiKey)), 401) ==> r == Failure(InvalidKey)
    ensures r.Failure? && r.error.status != 401 ==>
              r.error.status == 500 && r.error.message == "Failed to validate API key"
    ensures Truthy(apiKey) ==>
              var u := platform(ValidateRequest(apiKey));
              && (u.HttpError? && u.status !in {401} ==> r == Failure(ServiceError(500, "Failed to validate API key", Str(u.message))))
              && (u.NoResponse? ==> r == Failure(ServiceError(500, "Failed to validate API key", Str(u.message))))
  {
    if !Truthy(apiKey) then Failure(MissingKey)
    else PassThrough(platform(ValidateRequest(apiKey)), None, false, "Failed to validate API key")
  }

  /** `getActors`: the platform's actor-list envelope. */
  function GetActors(apiKey: Value, platform: Platform): (r: Outcome)
    ensures !Truthy(apiKey) ==> r == Failure(MissingKey)
    ensures Truthy(apiKey) && platform(ActorsRequest(apiKey)).Reply? ==>
              r == Success(platform(ActorsRequest(apiKey)).body)
    ensures Truthy(apiKey) && IsUpstreamStatus(platform(ActorsRequest(apiKey)), 401) ==> r == Failure(InvalidKey)
    ensures r.Failure? && r.error.status != 401 ==>
              r.error.status == 500 && r.error.message == "Failed to fetch actors"
    ensures Truthy(apiKey) ==>
              var u := platform(ActorsRequest(apiKey));
              && (u.HttpError? && u.status !in {401} ==> r == Failure(ServiceError(500, "Failed to fetch actors", Str(u.message))))
              && (u.NoResponse? ==> r == Failure(ServiceError(500, "Failed to fetch actors", Str(u.message))))
  {
    if !Truthy(apiKey) then Failure(MissingKey)
    else PassThrough(platform(ActorsRequest(apiKey)), None, false, "Failed to fetch actors")
  }

  /** `response.data.components?.schemas?.inputSchema`, where reading `components` of null throws. */
  function SchemaOf(body: Value): (r: Result<Value, string>)
    ensures r.Failure? <==> IsNullish(body)
    ensures r.Failure? ==> r.error == TypeErrorMessage
    ensures var components := GetProp(body, "components");
            !IsNullish(body) && !IsNullish(components) && !IsNullish(GetProp(components, "schemas")) ==>
              r == Success(GetProp(GetProp(components, "schemas"), "inputSchema"))
    ensures var components := GetProp(body, "components");
            !IsNullish(body) && (IsNullish(components) || IsNullish(GetProp(components, "schemas"))) ==>
              r == Success(Undefined)
  {
    match Deref(body, "components")
    case Failure(m) => Failure(m)
    case Success(components) => Success(OptGet(OptGet(components, "schemas"), "inputSchema"))
  }

  /** The body of the `try` in `getActorInputSchema`, as it ends: a result, or the error it raised. */
  function SchemaTry(u: Upstream): (r: Result<Value, Caught>)
    ensures !u.Reply? ==> r == Failure(CaughtOf(u))
    ensures u.Reply? && r.Failure? ==> r.error.WithoutResponse?
    ensures u.Reply? && SchemaOf(u.body).Success? && !Truthy(SchemaOf(u.body).value) ==>
              r == Failure(WithoutResponse(SchemaMissingMessage))
    ensures u.Reply? && SchemaOf(u.body).Failure? ==> r == Failure(WithoutResponse(TypeErrorMessage))
    ensures r.Success? <==> u.Reply? && SchemaOf(u.body).Success? && Truthy(SchemaOf(u.body).value)
    ensures r.Success? ==> r.value == Obj([Entry("inputSchema", SchemaOf(u.body).value)])
  {
    match u
    case Reply(body) =>
      (match SchemaOf(body)
       case Failure(m) => Failure(WithoutResponse(m))
       case Success(schema) =>
         if !Truthy(schema) then Failure(WithoutResponse(SchemaMissingMessage))
         else Success(Obj([Entry("inputSchema", schema)])))
    case _ => Failure(CaughtOf(u))
  }

  /**
   * `getActorInputSchema`: `{inputSchema}` taken from the build's OpenAPI document.
   * The "not found" error raised for a reply without a schema has no upstream
   * response, so the `catch` turns it into a 500.
   */
  function GetActorInputSchema(apiKey: Value, actorId: Value, platform: Platform): (r: Outcome)
    ensures !Truthy(apiKey) ==> r == Failure(MissingKey)
    ensures Truthy(apiKey) && !Truthy(actorId) ==> r == Failure(MissingActorId)
    ensures Truthy(apiKey) && Truthy(actorId) && IsUpstreamStatus(platform(SchemaRequest(apiKey, actorId)), 401) ==>
              r == Failure(InvalidKey)
    ensures Truthy(apiKey) && Truthy(actorId) && IsUpstreamStatus(platform(SchemaRequest(apiKey, actorId)), 404) ==>
              r == Failure(ServiceError(404, "Actor input schema not found", Undefined))
    ensures r.Success? ==> r.value.Obj? && |r.value.entries| == 1
                           && r.value.entries[0].key == "inputSchema" && Truthy(r.value.entries[0].val)
    ensures r.Failure? ==> r.error.status in {400, 401, 404, 500}
    ensures r.Failure? && r.error.status == 500 ==> r.error.message == "Failed to fetch actor input schema"
    ensures Truthy(apiKey) && Truthy(actorId) ==>
              var u := platform(SchemaRequest(apiKey, actorId));
              && (u.HttpError? && u.status !in {401, 404} ==> r == Failure(ServiceError(500, "Failed to fetch actor input schema", Str(u.message))))
              && (u.NoResponse? ==> r == Failure(ServiceError(500, "Failed to fetch actor input schema", Str(u.message))))
  {
    if !Truthy(apiKey) then Failure(MissingKey)
    else if !Truthy(actorId) then Failure(MissingActorId)
    else
      match SchemaTry(platform(SchemaRequest(apiKey, actorId)))
      case Success(v) => Success(v)
      case Failure(c) => Failure(Classify(c, Some("Actor input schema not found"), false,
                                          "Failed to fetch actor input schema"))
  }

  /** `executeActor`: the run record the platform creates; the inputs are the request body. */
  function ExecuteActor(apiKey: Value, actorId: Value, inputs: Value, platform: Platform): (r: Outcome)
    ensures !Truthy(apiKey) ==> r == Failure(MissingKey)
    ensures Truthy(apiKey) && !Truthy(actorId) ==> r == Failure(MissingActorId)
    ensures Truthy(apiKey) && Truthy(actorId) ==>
              var u := platform(ExecuteRequest(apiKey, actorId, inputs));
              && (u.Reply? ==> r == Success(u.body))
              && (IsUpstreamStatus(u, 401) ==> r == Failure(InvalidKey))
              && (IsUpstreamStatus(u, 404) ==> r == Failure(ServiceError(404, "Actor not found", Undefined)))
              && (IsUpstreamStatus(u, 400) ==> r == Failure(ServiceError(400, "Invalid input parameters", u.body)))
    ensures r.Failure? ==> r.error.status in {400, 401, 404, 500}
    ensures r.Failure? && r.error.status == 500 ==> r.error.message == "Failed to execute actor"
    ensures Truthy(apiKey) && Truthy(actorId) ==>
              var u := platform(ExecuteRequest(apiKey, actorId, inputs));
              && (u.HttpError? && u.status !in {401, 404, 400} ==> r == Failure(ServiceError(500, "Failed to execute actor", Str(u.message))))
              && (u.NoResponse? ==> r == Failure(ServiceError(500, "Failed to execute actor", Str(u.message))))
  {
    if !Truthy(apiKey) then Failure(MissingKey)
    else if !Truthy(actorId) then Failure(MissingActorId)
    else PassThrough(platform(ExecuteRequest(apiKey, actorId, inputs)), Some("Actor not found"), true,
                     "Failed to execute actor")
  }

  /** `getRunStatus`: the platform's run record. */
  function GetRunStatus(apiKey: Value, runId: Value, platform: Platform): (r: Outcome)
    ensures !Truthy(apiKey) ==> r == Failure(MissingKey)
    ensures Truthy(apiKey) && !Truthy(runId) ==> r == Failure(MissingRunId)
    ensures Truthy(apiKey) && Truthy(runId) ==>
              var u := platform(RunStatusRequest(apiKey, runId));
              && (u.Reply? ==> r == Success(u.body))
              && (IsUpstreamStatus(u, 401) ==> r == Failure(InvalidKey))
              && (IsUpstreamStatus(u, 404) ==> r == Failure(ServiceError(404, "Run not found", Undefined)))
    ensures r.Failure? ==> r.error.status in {400, 401, 404, 500}
    ensures r.Failure? && r.error.status == 500 ==> r.error.message == "Failed to fetch run status"
    ensures Truthy(apiKey) && Truthy(runId) ==>
              var u := platform(RunStatusRequest(apiKey, runId));
              && (u.HttpError? && u.status !in {401, 404} ==> r == Failure(ServiceError(500, "Failed to fetch run status", Str(u.message))))
              && (u.NoResponse? ==> r == Failure(ServiceError(500, "Failed to fetch run status", Str(u.message))))
  {
    if !Truthy(apiKey) then Failure(MissingKey)
    else if !Truthy(runId) then Failure(MissingRunId)
    else PassThrough(platform(RunStatusRequest(apiKey, runId)), Some("Run not found"), false,
                     "Failed to fetch run status")
  }

  /** `getRunResults`: the items of the run's default dataset. */
  function GetRunResults(apiKey: Value, runId: Value, platform: Platform): (r: Outcome)
    ensures !Truthy(apiKey) ==> r == Failure(MissingKey)
    ensures Truthy(apiKey) && !Truthy(runId) ==> r == Failure(MissingRunId)
    ensures Truthy(apiKey) && Truthy(runId) ==>
              var u := platform(RunResultsRequest(apiKey, runId));
              && (u.Reply? ==> r == Success(u.body))
              && (IsUpstreamStatus(u, 401) ==> r == Failure(InvalidKey))
              && (IsUpstreamStatus(u, 404) ==> r == Failure(ServiceError(404, "Run results not found", Undefined)))
    ensures r.Failure? ==> r.error.status in {400, 401, 404, 500}
    ensures r.Failure? && r.error.status == 500 ==> r.error.message == "Failed to fetch run results"
    ensures Truthy(apiKey) && Truthy(runId) ==>
              var u := platform(RunResultsRequest(apiKey, runId));
              && (u.HttpError? && u.status !in {401, 404} ==> r == Failure(ServiceError(500, "Failed to fetch run results", Str(u.message))))
              && (u.NoResponse? ==> r == Failure(ServiceError(500, "Failed to fetch run results", Str(u.message))))
  {
    if !Truthy(apiKey) then Failure(MissingKey)
    else if !Truthy(runId) then Failure(MissingRunId)
    else PassThrough(platform(RunResultsRequest(apiKey, runId)), Some("Run results not found"), false,
                     "Failed to fetch run results")
  }

  /**
   * A reply without `components.schemas.inputSchema` ends as a 500 whose details
   * carry the "not found" text, not as the 404 the thrown literal names.
   */
  lemma MissingSchemaIsServerError(apiKey: Value, actorId: Value, platform: Platform)
    requires Truthy(apiKey) && Truthy(actorId)
    requires platform(SchemaRequest(apiKey, actorId)).Reply?
    requires var body := platform(SchemaRequest(apiKey, actorId)).body;
             !IsNullish(body) && !Truthy(OptGet(OptGet(GetProp(body, "components"), "schemas"), "inputSchema"))
    ensures GetActorInputSchema(apiKey, actorId, platform)
            == Failure(ServiceError(500, "Failed to fetch actor input schema", Str(SchemaMissingMessage)))
  {
  }

  /** A reply that carries a schema yields `{inputSchema}` holding exactly that schema. */
  lemma SchemaExtracted(apiKey: Value, actorId: Value, platform: Platform)
    requires Truthy(apiKey) && Truthy(actorId)
    requires platform(SchemaRequest(apiKey, actorId)).Reply?
    requires var body := platform(SchemaRequest(apiKey, actorId)).body;
             !IsNullish(body) && Truthy(OptGet(OptGet(GetProp(body, "components"), "schemas"), "inputSchema"))
    ensures var body := platform(SchemaRequest(apiKey, actorId)).body;
            GetActorInputSchema(apiKey, actorId, platform)
            == Success(Obj([Entry("inputSchema", OptGet(OptGet(GetProp(body, "components"), "schemas"), "inputSchema"))]))
  {
  }

  /** Without a key no operation depends on the upstream: none is contacted. */
  lemma NoCallWithoutKey(apiKey: Value, id: Value, inputs: Value, p: Platform, q: Platform)
    requires !Truthy(apiKey)
    ensures ValidateApiKey(apiKey, p) == ValidateApiKey(apiKey, q)
    ensures GetActors(apiKey, p) == GetActors(apiKey, q)
    ensures GetActorInputSchema(apiKey, id, p) == GetActorInputSchema(apiKey, id, q)
    ensures ExecuteActor(apiKey, id, inputs, p) == ExecuteActor(apiKey, id, inputs, q)
    ensures GetRunStatus(apiKey, id, p) == GetRunStatus(apiKey, id, q)
    ensures GetRunResults(apiKey, id, p) == GetRunResults(apiKey, id, q)
  {
  }

  /** With a key but no ID, the operations that need one fail with 400 and contact nothing. */
  lemma NoCallWithoutId(apiKey: Value, id: Value, inputs: Value, p: Platform, q: Platform)
    requires Truthy(apiKey) && !Truthy(id)
    ensures GetActorInputSchema(apiKey, id, p) == GetActorInputSchema(apiKey, id, q) == Failure(MissingActorId)
    ensures ExecuteActor(apiKey, id, inputs, p) == ExecuteActor(apiKey, id, inputs, q) == Failure(MissingActorId)
    ensures GetRunStatus(apiKey, id, p) == GetRunStatus(apiKey, id, q) == Failure(MissingRunId)
    ensures GetRunResults(apiKey, id, p) == GetRunResults(apiKey, id, q) == Failure(MissingRunId)
  {
  }
}
