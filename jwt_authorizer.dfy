/**
 * `DefaultJwtAuthorizer` of
 * `src/authorize/authorizers/jwt/impls/default_jwt_authorizer.rs`: bearer
 * token, key set, then a fixed verification pipeline.
 */
module JwtAuthorizer {
  import opened Wrappers
  import opened Http
  import opened Extract
  import opened Jwks
  import opened JwtValidation

  /**
   * The `jsonwebtoken` functions the pipeline calls, as parameters of the
   * model: `decode_header`, `DecodingKey::from_jwk` and `decode::<C>`.
   * `K` is the decoding key and `C` the claims type.
   */
  datatype JwtLibrary<!K, C> = JwtLibrary(
    decodeHeader: string -> Result<JwtHeader, JwtError>,
    keyFromJwk: Jwk -> Result<K, JwtError>,
    decode: (string, K, JsonWebTokenValidation) -> Result<C, JwtError>)

  /** `DefaultJwtValidationError`: one variant per pipeline step. */
  datatype DefaultJwtValidationError =
    | DecodeHeader(headerError: JwtError)
    | Kid
    | MatchingJWK(kid: string)
    | DecodingKey(keyError: JwtError)
    | DecodeData(dataError: JwtError)

  /** `DefaultJwtAuthorizeError`: which of the three stages of `extract` failed. */
  datatype DefaultJwtAuthorizeError<BE, PE> =
    | Bearer(bearerError: BE)
    | JwkSet(providerError: PE)
    | Jwt(jwtError: DefaultJwtValidationError)

  /** `DefaultJwtAuthorizer`: a bearer extractor, a policy and the library. */
  datatype DefaultJwtAuthorizer<BE, !K, C> = DefaultJwtAuthorizer(
    bearerExtractor: HeaderMap -> Result<string, BE>,
    validation: Validation,
    library: JwtLibrary<K, C>)
  {

    /** `validate`: header, key id, matching key, decoding key, then verified claims. */
    function Validate(jwt: string, jwks: Jwks.JwkSet): (r: Result<C, DefaultJwtValidationError>)
      ensures library.decodeHeader(jwt).Err? ==> r == Err(DecodeHeader(library.decodeHeader(jwt).error))
      ensures library.decodeHeader(jwt).Ok? && library.decodeHeader(jwt).value.kid.None? ==> r == Err(Kid)
      // a key id absent from the set is reported with that very key id
      ensures library.decodeHeader(jwt).Ok? && library.decodeHeader(jwt).value.kid.Some? ==>
                var kid := library.decodeHeader(jwt).value.kid.value;
                (jwks.Find(kid).None? <==> r == Err(MatchingJWK(kid)))
      // a key that cannot be built from the matching JWK is reported with the library's error
      ensures library.decodeHeader(jwt).Ok? && library.decodeHeader(jwt).value.kid.Some? ==>
                var kid := library.decodeHeader(jwt).value.kid.value;
                jwks.Find(kid).Some? && library.keyFromJwk(jwks.Find(kid).value).Err? ==>
                  r == Err(DecodingKey(library.keyFromJwk(jwks.Find(kid).value).error))
      // a token that fails to decode or verify under that key is reported with the library's error
      ensures library.decodeHeader(jwt).Ok? && library.decodeHeader(jwt).value.kid.Some? ==>
                var header := library.decodeHeader(jwt).value;
                jwks.Find(header.kid.value).Some? && library.keyFromJwk(jwks.Find(header.kid.value).value).Ok? ==>
                  var key := library.keyFromJwk(jwks.Find(header.kid.value).value).value;
                  var decoded := library.decode(jwt, key, validation.ToJsonWebTokenValidation(header.alg));
                  decoded.Err? ==> r == Err(DecodeData(decoded.error))
      // success: the claims `decode` returned, verified with the matching key
      // under the policy built for the algorithm the token's header names
      ensures r.Ok? <==>
                && library.decodeHeader(jwt).Ok?
                && library.decodeHeader(jwt).value.kid.Some?
                && jwks.Find(library.decodeHeader(jwt).value.kid.value).Some?
                && library.keyFromJwk(jwks.Find(library.decodeHeader(jwt).value.kid.value).value).Ok?
                && library.decode(jwt,
                                  library.keyFromJwk(jwks.Find(library.decodeHeader(jwt).value.kid.value).value).value,
                                  validation.ToJsonWebTokenValidation(library.decodeHeader(jwt).value.alg)).Ok?
      ensures r.Ok? ==>
                var header := library.decodeHeader(jwt).value;
                var key := library.keyFromJwk(jwks.Find(header.kid.value).value).value;
                r.value == library.decode(jwt, key, validation.ToJsonWebTokenValidation(header.alg)).value
    {
      match library.decodeHeader(jwt)
      case Err(e) => Err(DecodeHeader(e))
      case Ok(header) =>
        match header.kid
        case None => Err(Kid)
        case Some(kid) =>
          match jwks.Find(kid)
          case None => Err(MatchingJWK(kid))
          case Some(jwk) =>
            match library.keyFromJwk(jwk)
            case Err(e) => Err(DecodingKey(e))
            case Ok(key) =>
              match library.decode(jwt, key, validation.ToJsonWebTokenValidation(header.alg))
              case Err(e) => Err(DecodeData(e))
              case Ok(claims) => Ok(claims)
    }

    /**
     * `extract`: the bearer token, then the key set, then `validate`.
     * `provided` is what the key-set provider answers when it is asked;
     * the log records whether it was asked.
     */
    function Extract<PE>(headers: HeaderMap, provided: Result<Jwks.JwkSet, PE>): (r: Run<C, DefaultJwtAuthorizeError<BE, PE>>)
      // a bearer failure is reported first and the provider is not asked
      ensures bearerExtractor(headers).Err? ==>
                r.result == Err(Bearer(bearerExtractor(headers).error))
                && r.calls == [Consulted(BearerExtractorRole, headers)]
      // a provider failure stops the pipeline before any validation
      ensures bearerExtractor(headers).Ok? && provided.Err? ==>
                r.result == Err(DefaultJwtAuthorizeError.JwkSet(provided.error))
                && r.calls == [Consulted(BearerExtractorRole, headers), Applied(JwkSetProviderRole)]
      // otherwise the answer is `validate`'s, any failure tagged Jwt
      ensures bearerExtractor(headers).Ok? && provided.Ok? ==>
                var validated := Validate(bearerExtractor(headers).value, provided.value);
                && r.calls == [Consulted(BearerExtractorRole, headers), Applied(JwkSetProviderRole), Applied(TokenValidation)]
                && (validated.Ok? ==> r.result == Ok(validated.value))
                && (validated.Err? ==> r.result == Err(Jwt(validated.error)))
    {
      match bearerExtractor(headers)
      case Err(e) => Run(Err(Bearer(e)), [Consulted(BearerExtractorRole, headers)])
      case Ok(bearer) =>
        match provided
        case Err(e) => Run(Err(DefaultJwtAuthorizeError.JwkSet(e)), [Consulted(BearerExtractorRole, headers), Applied(JwkSetProviderRole)])
        case Ok(jwks) =>
          var calls := [Consulted(BearerExtractorRole, headers), Applied(JwkSetProviderRole), Applied(TokenValidation)];
          match Validate(bearer, jwks)
          case Err(e) => Run(Err(Jwt(e)), calls)
          case Ok(claims) => Run(Ok(claims), calls)
    }
  }

  /** The challenge every error response carries. */
  const BEARER_CHALLENGE: string := "Bearer"

  /** The error response: 500 when the key set is unavailable, 401 otherwise, always challenging for Bearer. */
  function JwtErrorResponse<BE, PE>(e: DefaultJwtAuthorizeError<BE, PE>): (r: Response)
    ensures r.status == (if e.JwkSet? then INTERNAL_SERVER_ERROR else UNAUTHORIZED)
    ensures r.headers == [(WWW_AUTHENTICATE, BEARER_CHALLENGE)]
  {
    var status := match e
      case Bearer(_) => UNAUTHORIZED
      case JwkSet(_) => INTERNAL_SERVER_ERROR
      case Jwt(_) => UNAUTHORIZED;
    Response(status, [(WWW_AUTHENTICATE, BEARER_CHALLENGE)])
  }

  /**
   * Removing the token's key from the set turns an accepted token into
   * `MatchingJWK` with its key id, whatever else the set holds.
   */
  lemma RemovedKeyIsReported<BE, K, C>(a: DefaultJwtAuthorizer<BE, K, C>, jwt: string, others: seq<Jwk>, kid: string)
    requires a.library.decodeHeader(jwt).Ok? && a.library.decodeHeader(jwt).value.kid == Some(kid)
    requires forall i | 0 <= i < |others| :: others[i].kid != Some(kid)
    ensures a.Validate(jwt, Jwks.JwkSet(others)) == Err(MatchingJWK(kid))
  {
  }

  /**
   * With the token's key first in the set, the outcome is the library's
   * verdict on the token under that key: its claims, or `DecodeData`.
   */
  lemma MatchingKeyDecides<BE, K, C>(a: DefaultJwtAuthorizer<BE, K, C>, jwt: string, jwk: Jwk, others: seq<Jwk>, kid: string, key: K)
    requires a.library.decodeHeader(jwt).Ok? && a.library.decodeHeader(jwt).value.kid == Some(kid)
    requires jwk.kid == Some(kid)
    requires a.library.keyFromJwk(jwk) == Ok(key)
    ensures var decoded := a.library.decode(jwt, key, a.validation.ToJsonWebTokenValidation(a.library.decodeHeader(jwt).value.alg));
            a.Validate(jwt, Jwks.JwkSet([jwk] + others)) == (if decoded.Ok? then Ok(decoded.value) else Err(DecodeData(decoded.error)))
  {
    FindPrefers(jwk, kid, others);
  }
}
