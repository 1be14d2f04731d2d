/** The JSON envelopes and HTTP statuses the gateway's handlers answer with. */
module GatewayEnvelope {
  import opened JsValue
  import opened ApifyService

  /** `{success: true, data}` or `{success: false, error: {code, message, details}}`. */
  datatype Envelope =
    | SuccessBody(data: Value)
    | ErrorBody(code: string, message: string, details: Value)

  datatype HttpResponse = HttpResponse(status: int, body: Envelope)

  /** `error.status || 500`: a falsy (zero) status falls back to 500. */
  function StatusOr500(status: int): (r: int)
    ensures r != 0
    ensures status != 0 ==> r == status
  {
    if status != 0 then status else 500
  }

  /** `res.json({success: true, data})`, which answers with the default status 200. */
  function SuccessResponse(data: Value): HttpResponse {
    HttpResponse(200, SuccessBody(data))
  }

  /** The error branch every handler shares: the service error's message and details, verbatim. */
  function ErrorResponse(e: ServiceError, code: string): HttpResponse {
    HttpResponse(StatusOr500(e.status), ErrorBody(code, e.message, e.details))
  }

  /** A service error never has a zero status, so the fallback to 500 is never taken for one. */
  lemma ServiceStatusKept(e: ServiceError, code: string)
    requires e.status in {400, 401, 404, 500}
    ensures ErrorResponse(e, code).status == e.status
  {
  }
}
