/**
 * API-key authorization: `ApiKey` of
 * `src/authorize/authorizers/api_key/impls/api_key.rs` and
 * `DefaultApiKeyAuthorizer` of
 * `src/authorize/authorizers/api_key/impls/default_api_key_authorizer.rs`.
 */
module ApiKeys {
  import opened Wrappers
  import opened Http
  import opened Header

  /** `ApiKey`: equality and hashing are those of its single field. */
  datatype ApiKey = ApiKey(value: string) {

    /** The redacting `Debug`: the struct name and a placeholder, never the key. */
    function Debug(): (r: string)
      ensures r == "ApiKey { value: \"...\" }"
    {
      "ApiKey { value: \"...\" }"
    }
  }

  /** `ApiKey::new` (and `From`, which calls it): keeps the value as given. */
  function NewApiKey(value: string): (k: ApiKey)
    ensures k.value == value
  {
    ApiKey(value)
  }

  /** Two keys are equal exactly when their values are, so `new` is injective. */
  lemma ApiKeyEquality(a: string, b: string)
    ensures NewApiKey(a) == NewApiKey(b) <==> a == b
  {
  }

  /** The debug text is the same for every key, so it reveals nothing about the value. */
  lemma ApiKeyDebugRedacts(a: ApiKey, b: ApiKey)
    ensures a.Debug() == b.Debug()
  {
  }

  /** `DefaultApiKeyAuthorizeError`. */
  datatype DefaultApiKeyAuthorizeError<HE> = Header(cause: HE) | Invalid

  /** `DefaultApiKeyAuthorizer`: a header extractor and a fixed set of keys. */
  datatype DefaultApiKeyAuthorizer<HE> = DefaultApiKeyAuthorizer(headerExtractor: HeaderSource<HE>, validApiKeys: set<ApiKey>) {

    /** `extract`: look the header up, then test exact membership of its value. */
    function Extract(headers: HeaderMap): (r: Result<ApiKey, DefaultApiKeyAuthorizeError<HE>>)
      ensures headerExtractor.extractHeader(headers).Err? ==>
                r == Err(Header(headerExtractor.extractHeader(headers).error))
      // accepted exactly when the header's text, unaltered, is one of the keys
      ensures r.Ok? <==> headerExtractor.extractHeader(headers).Ok?
                         && ApiKey(headerExtractor.extractHeader(headers).value) in validApiKeys
      ensures r.Ok? ==> r.value.value == headerExtractor.extractHeader(headers).value && r.value in validApiKeys
      ensures headerExtractor.extractHeader(headers).Ok? && r.Err? ==> r.error == Invalid
    {
      match headerExtractor.extractHeader(headers)
      case Err(e) => Err(Header(e))
      case Ok(text) =>
        var used := NewApiKey(text);
        if used in validApiKeys then Ok(used) else Err(Invalid)
    }
  }

  /** The error response: 401 for every error, with no challenge header. */
  function ApiKeyErrorResponse<HE>(e: DefaultApiKeyAuthorizeError<HE>): (r: Response)
    ensures r.status == UNAUTHORIZED && r.headers == []
  {
    Response(UNAUTHORIZED, [])
  }

  /**
   * Keys differing only in case or surrounding spaces are different keys:
   * a request whose header text is not literally a configured key is refused.
   */
  lemma ExactMatchOnly<HE>(a: DefaultApiKeyAuthorizer<HE>, headers: HeaderMap)
    requires a.headerExtractor.extractHeader(headers).Ok?
    requires forall k | k in a.validApiKeys :: k.value != a.headerExtractor.extractHeader(headers).value
    ensures a.Extract(headers) == Err(Invalid)
  {
  }
}
