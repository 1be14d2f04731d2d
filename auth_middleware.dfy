/** The gateway's bearer-token middleware. */
module AuthMiddleware {
  import opened Wrappers
  import opened JsString
  import opened JsValue
  import opened GatewayEnvelope

  const BearerPrefix := "Bearer "

  const NoApiKeyResponse :=
    HttpResponse(401, ErrorBody("NO_API_KEY", "Authorization header with Bearer token required", Undefined))

  /** Either `req.apiKey` is set and `next()` runs once, or the request is answered here. */
  datatype Decision = Accept(apiKey: string) | Reject(response: HttpResponse)

  /**
   * `extractApiKey`: the `Authorization` header must start with the exact,
   * case-sensitive `"Bearer "`; the key is the rest of the header, trimmed.
   */
  function ExtractApiKey(authorization: Option<string>): (d: Decision)
    ensures d.Reject? <==> authorization.None? || !StartsWith(authorization.value, BearerPrefix)
    ensures d.Reject? ==> d.response == NoApiKeyResponse
    ensures d.Accept? ==> d.apiKey == Trim(authorization.value[|BearerPrefix|..])
    ensures d.Accept? ==> IsTrimmed(d.apiKey)
  {
    match authorization
    case None => Reject(NoApiKeyResponse)
    case Some(header) =>
      if header == "" || !StartsWith(header, BearerPrefix) then Reject(NoApiKeyResponse)
      else
        var rest := ReplaceFirst(header, BearerPrefix, "");
        assert rest == header[|BearerPrefix|..] by {
          assert "" + header[|BearerPrefix|..] == header[|BearerPrefix|..];
        }
        TrimFacts(rest, ' ');
        Accept(Trim(rest))
  }

  /** A header of `"Bearer "` and nothing but whitespace is accepted, with an empty key. */
  lemma BlankBearerAccepted(blank: string)
    requires AllWhitespace(blank)
    ensures ExtractApiKey(Some(BearerPrefix + blank)) == Accept("")
  {
    var h := BearerPrefix + blank;
    assert StartsWith(h, BearerPrefix);
    assert h[|BearerPrefix|..] == blank;
    TrimFacts(blank, ' ');
  }

  /** A well-formed header gives back exactly the token it carries. */
  lemma TokenRoundTrip(token: string)
    requires IsTrimmed(token)
    ensures ExtractApiKey(Some(BearerPrefix + token)) == Accept(token)
  {
    var h := BearerPrefix + token;
    assert StartsWith(h, BearerPrefix);
    assert h[|BearerPrefix|..] == token;
    TrimTrimmed(token);
  }
}
