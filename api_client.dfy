/**
 * The front end's client for the gateway: one request per operation, and one
 * rule turning the response into the parsed body or into the message of the
 * error the method throws.
 */
module ApiClient {
  import opened Wrappers
  import opened JsString
  import opened JsValue
  import AuthMiddleware

  const BaseUrl := "http://localhost:5000/api"

  /** The six methods of the client, with the arguments that shape their requests. */
  datatype Operation =
    | ValidateApiKey
    | GetActors
    | GetActorInputSchema(actorId: Value)
    | ExecuteActor(actorId: Value, inputs: Value)
    | GetRunStatus(runId: Value)
    | GetRunResults(runId: Value)

  /**
   * What `fetch` and `response.json()` came to: a response with its `ok` flag
   * and its parsed body (or the message of the parse error), or the message of
   * a request that never got a response.
   */
  datatype FetchOutcome =
    | Response(ok: bool, body: Result<Value, string>)
    | NetworkError(message: string)

  /** A request as `fetch` is called with it; the body is the value `JSON.stringify` is applied to. */
  datatype ClientRequest = ClientRequest(httpMethod: string, url: string, authorization: string,
                                         jsonContent: bool, body: Option<Value>)

  /** The message used when the gateway's error envelope carries none. */
  function NotOkDefault(op: Operation): (m: string)
    ensures m != ""
  {
    match op
    case ValidateApiKey => "Validation failed"
    case GetActors => "Failed to fetch actors"
    case GetActorInputSchema(_) => "Failed to fetch input schema"
    case ExecuteActor(_, _) => "Failed to execute actor"
    case GetRunStatus(_) => "Failed to fetch run status"
    case GetRunResults(_) => "Failed to fetch run results"
  }

  /** The message used by the outer `catch` when the caught error's message is empty. */
  function CatchDefault(op: Operation): (m: string)
    ensures m != ""
    ensures !op.ValidateApiKey? ==> m == NotOkDefault(op)
  {
    if op.ValidateApiKey? then "Failed to validate API key" else NotOkDefault(op)
  }

  /** `message || fallback` on a string. */
  function OrDefault(message: string, fallback: string): (m: string)
    ensures message != "" ==> m == message
    ensures message == "" ==> m == fallback
  {
    if message != "" then message else fallback
  }

  /**
   * The message of `new Error(data.error?.message || default)`; when `data` is
   * null or undefined, reading `data.error` throws a TypeError instead.
   */
  function NotOkMessage(data: Value, fallback: string): (m: string)
    ensures IsNullish(data) ==> m == TypeErrorMessage
    ensures !IsNullish(data) && !Truthy(OptGet(GetProp(data, "error"), "message")) ==> m == fallback
    ensures !IsNullish(data) && OptGet(GetProp(data, "error"), "message").Str? &&
            Truthy(OptGet(GetProp(data, "error"), "message")) ==>
              m == OptGet(GetProp(data, "error"), "message").s
  {
    if IsNullish(data) then TypeErrorMessage
    else ToString(Or(OptGet(GetProp(data, "error"), "message"), Str(fallback)))
  }

  /** One client method: the parsed body when the response is ok, otherwise the message it throws. */
  function Call(op: Operation, outcome: FetchOutcome): (r: Result<Value, string>)
    ensures r.Failure? ==> r.error != ""
    ensures r.Success? <==> outcome.Response? && outcome.ok && outcome.body.Success?
    ensures r.Success? ==> r.value == outcome.body.value
  {
    match outcome
    case NetworkError(message) => Failure(OrDefault(message, CatchDefault(op)))
    case Response(ok, body) =>
      match body
      case Failure(message) => Failure(OrDefault(message, CatchDefault(op)))
      case Success(data) =>
        if ok then Success(data)
        else Failure(OrDefault(NotOkMessage(data, NotOkDefault(op)), CatchDefault(op)))
  }

  /** A refused request whose error envelope carries a message reports exactly that message. */
  lemma EnvelopeMessageReported(op: Operation, code: string, message: string, details: Value)
    requires message != ""
    ensures Call(op, Response(false, Success(Obj([Entry("success", Bool(false)),
                                                  Entry("error", Obj([Entry("code", Str(code)),
                                                                      Entry("message", Str(message)),
                                                                      Entry("details", details)]))]))))
            == Failure(message)
  {
    var err := Obj([Entry("code", Str(code)), Entry("message", Str(message)), Entry("details", details)]);
    var data := Obj([Entry("success", Bool(false)), Entry("error", err)]);
    assert "success" != "error" && "code" != "message";
    assert GetProp(data, "error") == err by {
      assert data.entries[1..] == [Entry("error", err)];
      assert Lookup(data.entries, "error") == Lookup(data.entries[1..], "error");
    }
    assert GetProp(err, "message") == Str(message) by {
      assert err.entries[1..][0] == Entry("message", Str(message));
      assert Lookup(err.entries, "message") == Lookup(err.entries[1..], "message");
    }
  }

  /** A refused request whose body has no `error.message` reports the operation's default message. */
  lemma NoMessageGivesDefault(op: Operation, data: Value)
    requires !IsNullish(data)
    requires !Truthy(OptGet(GetProp(data, "error"), "message"))
    ensures Call(op, Response(false, Success(data))) == Failure(NotOkDefault(op))
  {
  }

  /** A request that never got a response reports its own message, or the operation's fallback when that is empty. */
  lemma NetworkErrorMessage(op: Operation, message: string)
    ensures Call(op, NetworkError(message)) == Failure(if message != "" then message else CatchDefault(op))
  {
  }

  /** The path below the base URL; ids are interpolated with `String(..)`. */
  function PathOf(op: Operation): (p: string)
    ensures StartsWith(p, "/")
    ensures op.ValidateApiKey? <==> StartsWith(p, "/auth/")
    ensures op.GetActorInputSchema? || op.ExecuteActor? ==> StartsWith(p, "/actors/" + ToString(op.actorId) + "/")
    ensures op.GetRunStatus? || op.GetRunResults? ==> StartsWith(p, "/actors/runs/" + ToString(op.runId) + "/")
  {
    match op
    case ValidateApiKey => "/auth/validate"
    case GetActors =>
      assert "/actors"[..6][2] != "/auth/"[2];
      "/actors"
    case GetActorInputSchema(actorId) => "/actors/" + ToString(actorId) + "/input-schema"
    case ExecuteActor(actorId, _) => "/actors/" + ToString(actorId) + "/run"
    case GetRunStatus(runId) => "/actors/runs/" + ToString(runId) + "/status"
    case GetRunResults(runId) => "/actors/runs/" + ToString(runId) + "/results"
  }

  /** The request each method sends: always with the key as a bearer token, and a JSON body only for a run. */
  function RequestOf(op: Operation, apiKey: string): (q: ClientRequest)
    ensures q.authorization == AuthMiddleware.BearerPrefix + apiKey
    ensures q.url == BaseUrl + PathOf(op)
    ensures q.httpMethod == "POST" <==> op.ValidateApiKey? || op.ExecuteActor?
    ensures q.jsonContent <==> q.httpMethod == "POST"
    ensures q.body.Some? <==> op.ExecuteActor?
    ensures op.ExecuteActor? ==> q.body == Some(op.inputs)
  {
    var post := op.ValidateApiKey? || op.ExecuteActor?;
    ClientRequest(if post then "POST" else "GET", BaseUrl + PathOf(op), "Bearer " + apiKey, post,
                  if op.ExecuteActor? then Some(op.inputs) else None)
  }

  /** The run-status and run-results paths name the run and nothing else. */
  lemma RunPaths(runId: string, apiKey: string)
    ensures RequestOf(GetRunStatus(Str(runId)), apiKey).url == BaseUrl + "/actors/runs/" + runId + "/status"
    ensures RequestOf(GetRunResults(Str(runId)), apiKey).url == BaseUrl + "/actors/runs/" + runId + "/results"
  {
  }

  /**
   * The gateway recovers the key the client sent, trimmed: the header always
   * passes the bearer check, and a key without surrounding whitespace arrives
   * unchanged.
   */
  lemma GatewayRecoversKey(op: Operation, apiKey: string)
    ensures AuthMiddleware.ExtractApiKey(Some(RequestOf(op, apiKey).authorization)).Accept?
    ensures IsTrimmed(apiKey) ==>
              AuthMiddleware.ExtractApiKey(Some(RequestOf(op, apiKey).authorization)) == AuthMiddleware.Accept(apiKey)
  {
    var h := RequestOf(op, apiKey).authorization;
    assert StartsWith(h, AuthMiddleware.BearerPrefix);
    if IsTrimmed(apiKey) {
      AuthMiddleware.TokenRoundTrip(apiKey);
    }
  }
}
