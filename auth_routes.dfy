/** The gateway's `POST /validate` route. */
module AuthRoutes {
  import opened Wrappers
  import opened JsString
  import opened JsValue
  import opened ApifyService
  import opened GatewayEnvelope
  import opened AuthMiddleware

  /** The error code of `/validate`: decided by the service error's status alone. */
  function ValidateErrorCode(status: int): (code: string)
    ensures code == "INVALID_API_KEY" <==> status == 401
    ensures code in {"INVALID_API_KEY", "VALIDATION_ERROR"}
  {
    if status == 401 then "INVALID_API_KEY" else "VALIDATION_ERROR"
  }

  /** The handler once the middleware has set `req.apiKey`. */
  function ValidateHandler(apiKey: string, platform: Platform): (r: HttpResponse)
    ensures var o := ValidateApiKey(Str(apiKey), platform);
            && (o.Success? ==> r == HttpResponse(200, SuccessBody(o.value)))
            && (o.Failure? ==> r == HttpResponse(o.error.status,
                                     ErrorBody(ValidateErrorCode(o.error.status), o.error.message, o.error.details)))
  {
    match ValidateApiKey(Str(apiKey), platform)
    case Success(userInfo) => SuccessResponse(userInfo)
    case Failure(e) => ErrorResponse(e, ValidateErrorCode(e.status))
  }

  /** `POST /validate`: the middleware, then the handler. */
  function PostValidate(authorization: Option<string>, platform: Platform): (r: HttpResponse)
    ensures !ExtractApiKey(authorization).Accept? ==> r == NoApiKeyResponse
    ensures ExtractApiKey(authorization).Accept? ==> r == ValidateHandler(ExtractApiKey(authorization).apiKey, platform)
    ensures r.status in {200, 401, 500}
    ensures r.body.SuccessBody? <==> r.status == 200
  {
    match ExtractApiKey(authorization)
    case Reject(response) => response
    case Accept(apiKey) => ValidateHandler(apiKey, platform)
  }

  /** Every answer of the route: 200 with the account, or an error with one of three codes. */
  lemma ValidateAnswers(authorization: Option<string>, platform: Platform)
    ensures var r := PostValidate(authorization, platform);
            && (r.body.SuccessBody? ==> r.status == 200)
            && (r.body.ErrorBody? ==> r.body.code in {"NO_API_KEY", "INVALID_API_KEY", "VALIDATION_ERROR"})
            && (r.body.ErrorBody? && r.body.code != "VALIDATION_ERROR" ==> r.status == 401)
            && (r.body.ErrorBody? && r.body.code == "VALIDATION_ERROR" ==> r.status == 500)
  {
  }

  /** A key the platform refuses with 401 is answered 401 `INVALID_API_KEY`. */
  lemma ValidateRefusedKey(token: string, platform: Platform)
    requires IsTrimmed(token) && token != ""
    requires IsUpstreamStatus(platform(ValidateRequest(Str(token))), 401)
    ensures PostValidate(Some(BearerPrefix + token), platform)
            == HttpResponse(401, ErrorBody("INVALID_API_KEY", "Invalid API key", Undefined))
  {
    TokenRoundTrip(token);
    assert Truthy(Str(token));
    assert ValidateApiKey(Str(token), platform) == Failure(InvalidKey);
    assert PostValidate(Some(BearerPrefix + token), platform) == ValidateHandler(token, platform);
    assert ValidateErrorCode(401) == "INVALID_API_KEY";
  }

  /** `"Bearer "` with only blanks passes the middleware and is refused by the service, with no upstream call. */
  lemma ValidateBlankBearer(blank: string, platform: Platform)
    requires AllWhitespace(blank)
    ensures PostValidate(Some(BearerPrefix + blank), platform)
            == HttpResponse(401, ErrorBody("INVALID_API_KEY", "API key is required", Undefined))
  {
    BlankBearerAccepted(blank);
  }
}
