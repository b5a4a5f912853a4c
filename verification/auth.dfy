/** The API-key dependency of app/auth.py: the `api_key` request header must
    equal the configured key, where either may be absent (`None`). */
module Auth {
  import opened Wrappers
  import opened Errors

  const ApiKeyHeader: string := "api_key"

  /** `dict(request.headers).get("api_key")`. */
  function HeaderKey(headers: map<string, string>): Option<string> {
    if ApiKeyHeader in headers then Some(headers[ApiKeyHeader]) else None
  }

  /** Returns the header's value when it equals the configured key, and raises
      `Forbidden()` otherwise; `None == None` counts as equal. */
  function VerifyApiKey(headers: map<string, string>, configured: Option<string>): (r: Result<Option<string>, AppException>)
    ensures r.Success? <==>
              (if ApiKeyHeader in headers then configured == Some(headers[ApiKeyHeader]) else configured.None?)
    ensures r.Success? ==> r.value == configured
    ensures r.Failure? ==> r.error == Default(ForbiddenExc) && r.error.status == 403
                           && r.error.details == Some("Access forbidden")
  {
    var key := HeaderKey(headers);
    if key == configured then Success(key) else Failure(Default(ForbiddenExc))
  }

  /** Only the `api_key` header decides: maps that agree on it get the same
      answer. */
  lemma OnlyApiKeyHeaderMatters(h1: map<string, string>, h2: map<string, string>, configured: Option<string>)
    requires ApiKeyHeader in h1 <==> ApiKeyHeader in h2
    requires ApiKeyHeader in h1 ==> h1[ApiKeyHeader] == h2[ApiKeyHeader]
    ensures VerifyApiKey(h1, configured) == VerifyApiKey(h2, configured)
  {
  }

  /** With no key configured, a request without the header is let in. */
  lemma UnsetKeyAdmitsMissingHeader(headers: map<string, string>)
    requires ApiKeyHeader !in headers
    ensures VerifyApiKey(headers, None) == Success(None)
  {
  }

  /** With no key configured, any request that does send the header is
      refused. */
  lemma UnsetKeyRefusesAnyHeader(headers: map<string, string>)
    requires ApiKeyHeader in headers
    ensures VerifyApiKey(headers, None).Failure?
  {
  }

  /** With a key configured, a request without the header is refused. */
  lemma SetKeyRefusesMissingHeader(headers: map<string, string>, key: string)
    requires ApiKeyHeader !in headers
    ensures VerifyApiKey(headers, Some(key)) == Failure(Default(ForbiddenExc))
  {
  }

  /** With a key configured, sending exactly that key is let in. */
  lemma MatchingKeyIsAdmitted(headers: map<string, string>, key: string)
    requires ApiKeyHeader in headers && headers[ApiKeyHeader] == key
    ensures VerifyApiKey(headers, Some(key)) == Success(Some(key))
  {
  }
}
