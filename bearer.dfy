/**
 * `DefaultBearerExtractor` of
 * `src/authorize/header/bearer/impls/default_bearer_extractor.rs`.
 */
module Bearer {
  import opened Wrappers
  import opened Http
  import opened Strings
  import opened Header

  /** `http::header::AUTHORIZATION`, lower case as the `http` crate stores it. */
  const AUTHORIZATION: string := "authorization"

  /** The scheme word, compared case-sensitively. */
  const SCHEME: string := "Bearer"

  /** `DefaultBearerError`: the header lookup failed, or the value is not `Bearer <token>`. */
  datatype DefaultBearerError = Header(cause: DefaultHeaderError) | Format

  /** The static `extract_bearer(&str)`: split at the first space, demand the exact scheme. */
  function ExtractBearerStr(authorization: string): (r: Result<string, DefaultBearerError>)
    ensures r.Err? ==> r.error == Format
    ensures r.Ok? ==> authorization == SCHEME + " " + r.value
  {
    match SplitOnce(authorization, ' ')
    case Some((scheme, token)) =>
      if scheme == SCHEME then Ok(token) else Err(Format)
    case None => Err(Format)
  }

  /** Any token, empty or holding spaces, comes back from `"Bearer " + token`. */
  lemma ExtractBearerRoundTrip(token: string)
    ensures ExtractBearerStr(SCHEME + " " + token) == Ok(token)
  {
    SplitOnceJoin(SCHEME, ' ', token);
    assert SCHEME + " " + token == SCHEME + [' '] + token;
  }

  /**
   * The value is accepted exactly when it starts with `"Bearer "`; otherwise
   * (no space, another or differently cased scheme) it is a format error.
   */
  lemma ExtractBearerAccepts(authorization: string)
    ensures ExtractBearerStr(authorization).Ok? <==>
              |authorization| >= 7 && authorization[..7] == SCHEME + " "
  {
    if |authorization| >= 7 && authorization[..7] == SCHEME + " " {
      ExtractBearerRoundTrip(authorization[7..]);
      assert authorization == SCHEME + " " + authorization[7..];
    }
  }

  /** `DefaultBearerExtractor`: always reads the `authorization` header. */
  datatype DefaultBearerExtractor = DefaultBearerExtractor(headerExtractor: DefaultHeaderExtractor) {

    /** `BearerExtractor::extract_bearer`: header lookup first, then the token parse. */
    function ExtractBearer(headers: HeaderMap): (r: Result<string, DefaultBearerError>)
      // a lookup failure is reported as it is, before any parsing
      ensures headerExtractor.ExtractHeader(headers).Err? ==>
                r == Err(Header(headerExtractor.ExtractHeader(headers).error))
      ensures headerExtractor.ExtractHeader(headers).Ok? ==>
                r == ExtractBearerStr(headerExtractor.ExtractHeader(headers).value)
      // the token is the tail of the header value after "Bearer "
      ensures r.Ok? ==> headerExtractor.ExtractHeader(headers).value == SCHEME + " " + r.value
    {
      match headerExtractor.ExtractHeader(headers)
      case Err(e) => Err(Header(e))
      case Ok(authorization) => ExtractBearerStr(authorization)
    }
  }

  /** `DefaultBearerExtractor::new`: the header name is fixed to `authorization`. */
  function NewDefaultBearerExtractor(): (x: DefaultBearerExtractor)
    ensures x.headerExtractor.HeaderName() == AUTHORIZATION
  {
    DefaultBearerExtractor(NewDefaultHeaderExtractor(AUTHORIZATION))
  }

  /** A request carrying `Authorization: Bearer <token>` yields that token. */
  lemma ExtractBearerFromHeaders(headers: HeaderMap, token: string)
    requires IsHeaderText(SCHEME + " " + token)
    requires AUTHORIZATION in headers && headers[AUTHORIZATION] == AsciiBytes(SCHEME + " " + token)
    ensures NewDefaultBearerExtractor().ExtractBearer(headers) == Ok(token)
  {
    ExtractHeaderRoundTrip(NewDefaultBearerExtractor().headerExtractor, headers, SCHEME + " " + token);
    ExtractBearerRoundTrip(token);
  }
}
