/**
  What both Yandex models put in front of a gRPC call: the authorization header and the
  call metadata (stt/yandex/model.py and tts/yandex/model.py build them the same way).
*/
module YandexCall {
  import opened Wrappers
  import opened Values
  import opened Creds

  /** A gRPC metadata entry (key, value). */
  type Header = (string, string)

  /** Python's `str()` of an optional string inside an f-string: `None` prints as "None". */
  function FormatOptional(s: Option<string>): string {
    match s
    case None => "None"
    case Some(x) => x
  }

  /**
    The authorization header: an API key wins when one is set; otherwise the IAM token is
    sent as a bearer token, which reads "Bearer None" when the credentials hold neither.
  */
  function AuthorizationHeader(c: Credentials): (h: string)
    ensures c.apiKey.Some? ==> h == "Api-Key " + c.apiKey.value
    ensures c.apiKey.None? && c.iamToken.Some? ==> h == "Bearer " + c.iamToken.value
    ensures c.apiKey.None? && c.iamToken.None? ==> h == "Bearer None"
  {
    if c.apiKey.Some? then "Api-Key " + c.apiKey.value else "Bearer " + FormatOptional(c.iamToken)
  }

  /**
    The metadata list: authorization, then the request id, then the model's custom headers,
    and the data-logging flag last, only when the configuration's `data_logging` is truthy.
  */
  function RequestMetadata(c: Credentials, requestId: string, customHeaders: seq<Header>, dataLogging: Value): (m: seq<Header>)
    ensures |m| == 2 + |customHeaders| + (if Truthy(dataLogging) then 1 else 0)
    ensures m[0] == ("authorization", AuthorizationHeader(c))
    ensures m[1] == ("x-client-request-id", requestId)
    ensures m[2..2 + |customHeaders|] == customHeaders
    ensures Truthy(dataLogging) ==> m[|m| - 1] == ("x-data-logging-enabled", "true")
  {
    var m := [("authorization", AuthorizationHeader(c)), ("x-client-request-id", requestId)] + customHeaders;
    if Truthy(dataLogging) then m + [("x-data-logging-enabled", "true")] else m
  }

  /**
    Credentials with neither secret pass the constructor's assertion and then authorise
    calls with the literal bearer token "None"; the exactly-one check refuses them.
  */
  lemma EmptyCredentialsSendBearerNone()
    ensures NewCredentials(None, None) == Ok(Credentials(None, None))
    ensures AuthorizationHeader(NewCredentials(None, None).value) == "Bearer None"
    ensures NewCredentialsExactlyOne(None, None).Err?
  {
  }
}
