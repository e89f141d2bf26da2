/** common/utils/creds.py: the credentials record and its constructor's assertion. */
module Creds {
  import opened Wrappers

  /** `YandexCredentials`: two optional secrets, set once by the constructor and only read afterwards. */
  datatype Credentials = Credentials(apiKey: Option<string>, iamToken: Option<string>)

  /** The `AssertionError` the constructor raises. */
  datatype CredentialsError = OnlyOneShouldBeProvided

  /**
    `YandexCredentials(api_key=..., iam_token=...)`. The assertion adds up the two
    booleans `api_key is None` and `iam_token is None` and fails only when the sum is 0,
    so it rejects exactly the case where both secrets are given; giving neither passes.
  */
  function NewCredentials(apiKey: Option<string>, iamToken: Option<string>): (r: Result<Credentials, CredentialsError>)
    ensures r.Err? <==> apiKey.Some? && iamToken.Some?
    ensures r.Ok? ==> r.value.apiKey == apiKey && r.value.iamToken == iamToken
  {
    var missing := (if apiKey.None? then 1 else 0) + (if iamToken.None? then 1 else 0);
    if missing != 0 then Ok(Credentials(apiKey, iamToken)) else Err(OnlyOneShouldBeProvided)
  }

  /**
    The check the assertion message describes: exactly one of the two secrets. It refuses
    the empty credentials that `NewCredentials` lets through.
  */
  function NewCredentialsExactlyOne(apiKey: Option<string>, iamToken: Option<string>): (r: Result<Credentials, CredentialsError>)
    ensures r.Ok? <==> apiKey.Some? != iamToken.Some?
    ensures r.Ok? ==> r == NewCredentials(apiKey, iamToken)
  {
    if apiKey.Some? != iamToken.Some? then Ok(Credentials(apiKey, iamToken)) else Err(OnlyOneShouldBeProvided)
  }
}
