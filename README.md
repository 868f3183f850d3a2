# composable-tower-http, modelled in Dafny

This project models the core of `composable-tower-http`, a Rust library of
composable request authorization for tower/axum services. The model covers
the following parts:

- **Extractors.** An extractor reads a request's header map and yields a
  value or an error. The combinators over extractors are `and`, `or`,
  `any`, `optional`, `map`, `async_map`, `map_err`, `convert`, `chain`
  (lite and tagged), `validate` and `authorize`. The sealed wrappers
  `SealedExtracted`, `SealedValidated` and `SealedAuthorized` are modelled
  too.
- **Header parsers.** `DefaultHeaderExtractor` with `map_err`; the Bearer
  parser; the Basic-auth parser (scheme, base64, UTF-8, colon split).
- **Authorizers.** The API-key and Basic-auth authorizers with their
  principals (`ApiKey`, `BasicAuthUser`) and their redacting `Debug`. The
  JWT authorizer: the `Validation` builder and its translation to the
  `jsonwebtoken` validation; `JwkSet::find`; the validation pipeline
  (header, `kid`, matching key, decoding key, claims).
- **JWK-set caches.** The fetcher error mapping. The lazily rotating cache
  `RotatingJwkSetProvider`. The background-refreshed cache
  `BackgroundRotatingJwkSetProvider`.
- **Tower services.** The service that inserts the extracted value into
  the request extensions. The service that replaces it with a modified
  value.
- **Two example rules.** The rules the library's examples define: email
  verification as a `chain` and group membership as a `modify`.

## How each part is modelled

**Extractors.** An extractor is a function `HeaderMap -> Result<T, E>`.
Each combinator is a datatype holding its parts. Its `Extract` returns the
result together with a log of the sub-extractors and user functions it
ran, so the contracts can say which side was consulted, in what order and
with which headers.

**Header values.** A header map is a map from names to byte strings.
`HeaderValue::to_str` is modelled concretely: it accepts visible ASCII and
tab.

**Delegated codecs and crypto.** Base64 decoding, UTF-8 decoding and the
`jsonwebtoken` primitives are passed in as function parameters
(`Codec`, `JwtLibrary`). The model therefore proves what the library does
with their answers, not what those answers are. The primitives are
`decode_header`, `DecodingKey::from_jwk` and `decode`.

**JWK-set caches.** Both caches are classes whose methods update the
holder in place. Each is proved against a function of the old holder:
`Provide` for the lazily rotating cache, `Refresh` and `Replay` for the
background one. The clock is a parameter `now`, in whole seconds. The
fetcher's answer is a parameter as well. The background task is a method
that replays a sequence of timer ticks, ending at cancellation.

**Tower services.** The request is a class whose extension map the
services update.

`Validation::required_spec_claims` has no effect on the produced
`jsonwebtoken` validation: `to_jsonwebtoken_validation` never copies it.
The model keeps that behaviour and proves it
(`RequiredSpecClaimsNotTransferred`).

## Model

| member | source | states |
|---|---|---|
| `Http.ToStr` | src/authorize/header/impls/default_header_extractor.rs:28-29 | a header value converts to text exactly when every byte is visible ASCII or tab, and the text has the value's bytes as characters |
| `Http.ToStrAsciiBytes` | src/authorize/header/impls/default_header_extractor.rs:28-29 | text made of visible ASCII converts back to itself |
| `Strings.SplitOnce` | src/authorize/header/bearer/impls/default_bearer_extractor.rs:25 | `split_once`: none exactly when the separator is absent; otherwise the input is prefix + separator + suffix with a separator-free prefix |
| `Strings.SplitOnceJoin` | src/authorize/header/bearer/impls/default_bearer_extractor.rs:25 | splitting a separator-free prefix, the separator and any suffix gives back the prefix and the suffix |
| `Extract.AndExtractor.Extract` | src/extract/and.rs:31-36 | left runs first; a left failure is `Left(e)` and skips the right; both succeed exactly when the result is `And(l, r)`; a right failure is `Right(e)` |
| `Extract.AndErrorResponse` | src/extract/and.rs:58-63 | the response is the failing side's own response |
| `Extract.OrExtractor.Extract` | src/extract/or.rs:32-43 | a left success wins without consulting the right; otherwise the right runs once; the result fails exactly when both fail, with both causes |
| `Extract.OrErrorResponse` | src/extract/or.rs:63-65 | the response to a double failure is the left cause's response, whatever the right cause |
| `Extract.AnyExtractor.Extract` | src/extract/any.rs:22-24 | `any` delegates: same result, inner consulted once with the same headers |
| `Extract.NewAny` | src/extract/any.rs:9-11 | the wrapper is a root and behaves as the inner extractor |
| `Extract.OptionalExtractor.Extract` | src/extract/optional.rs:26-28 | never fails; `Some(v)` on inner success and `None` on inner failure |
| `Extract.MapExtractor.Extract` | src/extract/map.rs:53-58 | an inner success is mapped; an inner error passes through unchanged and the mapping is not applied |
| `Extract.AsyncMapExtractor.Extract` | src/extract/map.rs:72-78 | the same as `map`, for an asynchronous mapping |
| `Extract.MapErrorExtractor.Extract` | src/extract/map.rs:90-95 | an inner success passes unchanged; an inner error is mapped, and only then is the function applied |
| `Extract.AsyncMapIsMap` | src/extract/map.rs:72-78 | `async_map` and `map` have the same behaviour and call log |
| `Extract.MapIdentity` | src/extract/map.rs:53-58 | mapping with the identity changes nothing |
| `Extract.MapFusion` | src/extract/map.rs:53-58 | mapping by `f` then `g` equals mapping by their composition |
| `Extract.ConvertExtractor.Extract` | src/extract/convert.rs:41-45 | the result is the conversion of the inner result, whether that succeeded or failed |
| `Extract.AsyncConvertExtractor.Extract` | src/extract/convert.rs:59-63 | the same as `convert`, for an asynchronous conversion |
| `Extract.ConvertIdentity` | src/extract/convert.rs:41-45 | converting with the identity changes nothing |
| `Extract.ConvertCanRecover` | src/extract/convert.rs:41-45 | a conversion may turn a failure into a success and a success into a failure |
| `Extract.MapIsConvert` | src/extract/convert.rs:41-45 | `map` and `map_err` are the special cases of `convert` |
| `Extract.ChainLiteExtractor.Extract` | src/extract/chain/lite.rs:42-46 | an inner error is converted into the chain's error without running the chain; otherwise the result is the chain's |
| `Extract.AsyncChainLiteExtractor.Extract` | src/extract/chain/lite.rs:61-65 | the same as the lite chain, for an asynchronous chain |
| `Extract.ChainLiteAcceptingIsMapError` | src/extract/chain/lite.rs:42-46 | a lite chain that accepts every value is `map_err` by the error conversion |
| `Extract.SealedExtracted.IntoInner` | src/extract/sealed_extracted.rs:7-9 | unwrapping and re-sealing gives the same wrapper |
| `Extract.SealedExtracted.Map` | src/extract/sealed_extracted.rs:11-16 | the mapped wrapper holds the function applied to the sealed value |
| `Extract.SealedExtracted.Deref` | src/extract/sealed_extracted.rs:19-24 | dereferencing reads the sealed value |
| `Extract.SealedExtractedMapLaws` | src/extract/sealed_extracted.rs:11-16 | `map` preserves identity and composition |
| `Mapper.Mapper.Extract` | src/map/mapper.rs:28-34 | a mapper over an extractor maps its success and passes its error through |
| `Mapper.AsyncMapper.Extract` | src/map/mapper.rs:61-67 | the same for an asynchronous mapper |
| `Mapper.MappersAreMap` | src/map/mapper.rs:28-34 | both mappers behave exactly as the `map` combinator |
| `Chain.ChainExtractor.Extract` | src/chain/chain_extractor.rs:58-72 | an extraction error is tagged `Extract` and the chain is not run; a chain error is tagged `Chain`; success exactly when both stages succeed |
| `Chain.ChainExtractorIsTaggedChainLite` | src/chain/chain_extractor.rs:58-72 | the tagged chain is the lite chain with the errors wrapped in `ChainError` |
| `Validate.SealedValidated.IntoInner` | src/validate/extract/sealed_validated.rs:7-9 | unwrapping and re-sealing gives the same wrapper |
| `Validate.SealedValidated.Map` | src/validate/extract/sealed_validated.rs:11-16 | the mapped wrapper holds the function applied to the sealed value |
| `Validate.SealedValidated.Deref` | src/validate/extract/sealed_validated.rs:19-24 | dereferencing reads the sealed value |
| `Validate.SealedValidatedMapLaws` | src/validate/extract/sealed_validated.rs:11-16 | `map` preserves identity and composition |
| `Validate.ValidationExtractor.Extract` | src/validate/extract/validation_extractor.rs:61-74 | an extraction error is tagged `Authorize`; a validator error is tagged `Validate`; on success the sealed value is the extracted value, unchanged |
| `Validate.ValidationIsChain` | src/validate/extract/validation_extractor.rs:61-74 | validation is a chain that returns its input when the validator accepts it |
| `Validate.ValidateErrorResponse` | src/validate/extract/validation_extractor.rs:96-103 | each tagged error is answered by its own stage's response |
| `Authorize.SealedAuthorized.IntoInner` | src/authorize/extract/sealed_authorized.rs:12-16 | unwrapping and re-sealing gives the same wrapper |
| `Authorize.SealedAuthorized.Deref` | src/authorize/extract/sealed_authorized.rs:18-24 | dereferencing reads the sealed value |
| `Authorize.AuthorizationExtractor.Extract` | src/authorize/extract/authorization_extractor.rs:27-31 | the authorizer runs once; its error is returned unchanged and its success is sealed |
| `Authorize.AuthorizationIsSealingMap` | src/authorize/extract/authorization_extractor.rs:27-31 | the authorization extractor is `map` by sealing |
| `Header.HeaderSource.MapErr` | src/authorize/header/header_extractor.rs:19-21 | `map_err` keeps the header name and the successes, and maps each error |
| `Header.DefaultHeaderExtractor.ExtractHeader` | src/authorize/header/impls/default_header_extractor.rs:24-32 | `Missing` when the header is absent, `Ascii` when its value is not visible ASCII; otherwise the value as text |
| `Header.DefaultHeaderExtractor.HeaderName` | src/authorize/header/impls/default_header_extractor.rs:35-37 | the reported name is the configured name |
| `Header.DefaultHeaderExtractor.AsSource` | src/authorize/header/impls/default_header_extractor.rs:20-38 | the extractor seen as a header source, with the same name and behaviour |
| `Header.NewDefaultHeaderExtractor` | src/authorize/header/impls/default_header_extractor.rs:13-17 | the new extractor reads the given header name |
| `Header.OnlyConfiguredHeaderConsulted` | src/authorize/header/impls/default_header_extractor.rs:24-32 | two header maps that agree on the configured header give the same answer |
| `Header.ExtractHeaderRoundTrip` | src/authorize/header/impls/default_header_extractor.rs:24-32 | a header holding the ASCII bytes of some text extracts to that text |
| `Header.ErrorMap.ExtractHeader` | src/authorize/header/header_extractor.rs:44-46 | successes pass unchanged and errors are mapped |
| `Header.ErrorMap.HeaderName` | src/authorize/header/header_extractor.rs:49-51 | the name is the inner extractor's name |
| `Header.ErrorMap.AsSource` | src/authorize/header/header_extractor.rs:36-52 | the mapped extractor seen as a header source, with the same name and behaviour |
| `Bearer.ExtractBearerStr` | src/authorize/header/bearer/impls/default_bearer_extractor.rs:24-32 | every failure is `Format`; an accepted header is exactly `Bearer`, a space and the token |
| `Bearer.ExtractBearerRoundTrip` | src/authorize/header/bearer/impls/default_bearer_extractor.rs:24-32 | `Bearer <token>` yields the token, for any token, spaces included |
| `Bearer.ExtractBearerAccepts` | src/authorize/header/bearer/impls/default_bearer_extractor.rs:24-32 | a header is accepted exactly when it starts with `Bearer ` (case-sensitive) |
| `Bearer.DefaultBearerExtractor.ExtractBearer` | src/authorize/header/bearer/impls/default_bearer_extractor.rs:44-49 | a header error is wrapped as `Header`; otherwise the result is the Bearer parse of the header text |
| `Bearer.NewDefaultBearerExtractor` | src/authorize/header/bearer/impls/default_bearer_extractor.rs:18-22 | the extractor reads the `authorization` header |
| `Bearer.ExtractBearerFromHeaders` | src/authorize/header/bearer/impls/default_bearer_extractor.rs:44-49 | an `authorization` header holding `Bearer <token>` in ASCII yields the token |
| `BasicAuthHeader.ExtractEncodedBasic` | src/authorize/header/basic_auth/impls/default_basic_auth_extractor.rs:25-33 | every failure is `Format`; an accepted header is exactly `Basic`, a space and the payload |
| `BasicAuthHeader.ExtractEncodedBasicRoundTrip` | src/authorize/header/basic_auth/impls/default_basic_auth_extractor.rs:25-33 | `Basic <payload>` yields the payload |
| `BasicAuthHeader.DecodeBasic` | src/authorize/header/basic_auth/impls/default_basic_auth_extractor.rs:35-43 | a base64 failure is `Decode`, a UTF-8 failure is `Utf8`; otherwise the decoded text |
| `BasicAuthHeader.Split` | src/authorize/header/basic_auth/impls/default_basic_auth_extractor.rs:45-50 | `Colon` exactly when there is no colon; otherwise the text is username, colon, password with a colon-free username |
| `BasicAuthHeader.SplitRoundTrip` | src/authorize/header/basic_auth/impls/default_basic_auth_extractor.rs:45-50 | a colon-free username joined to any password by a colon splits back into both |
| `BasicAuthHeader.DefaultBasicAuthExtractor.ExtractBasicAuth` | src/authorize/header/basic_auth/impls/default_basic_auth_extractor.rs:62-69 | the stages run in order: header, scheme, decode, split; the first failing stage's error is returned |
| `BasicAuthHeader.NewDefaultBasicAuthExtractor` | src/authorize/header/basic_auth/impls/default_basic_auth_extractor.rs:19-23 | the extractor reads the `authorization` header |
| `BasicAuthHeader.ErrorIsFirstFailingStage` | src/authorize/header/basic_auth/impls/default_basic_auth_extractor.rs:62-69 | the reported error belongs to the earliest stage that fails, and every earlier stage succeeded |
| `BasicAuthHeader.ExtractBasicAuthRoundTrip` | src/authorize/header/basic_auth/impls/default_basic_auth_extractor.rs:62-69 | a well-formed `Basic` header whose payload decodes to `user:pass` yields that pair |
| `ApiKeys.NewApiKey` | src/authorize/authorizers/api_key/impls/api_key.rs:14-19 | the key holds the given value |
| `ApiKeys.ApiKeyEquality` | src/authorize/authorizers/api_key/impls/api_key.rs:3-6 | two keys are equal exactly when their values are |
| `ApiKeys.ApiKey.Debug` | src/authorize/authorizers/api_key/impls/api_key.rs:8-12 | the debug text is the fixed `ApiKey { value: "..." }`, whatever the key |
| `ApiKeys.ApiKeyDebugRedacts` | src/authorize/authorizers/api_key/impls/api_key.rs:8-12 | the debug output is the same for every key, so it never reveals the value |
| `ApiKeys.DefaultApiKeyAuthorizer.Extract` | src/authorize/authorizers/api_key/impls/default_api_key_authorizer.rs:62-75 | a header error is wrapped as `Header`; otherwise success exactly when the header text is a valid key, else `Invalid` |
| `ApiKeys.ApiKeyErrorResponse` | src/authorize/authorizers/api_key/impls/default_api_key_authorizer.rs:97-101 | every error is answered 401 with no challenge header |
| `ApiKeys.ExactMatchOnly` | src/authorize/authorizers/api_key/impls/default_api_key_authorizer.rs:62-75 | a header text that is not exactly a valid key is refused as `Invalid` |
| `BasicAuth.BasicAuthUser.Debug` | src/authorize/authorizers/basic_auth/impls/basic_auth_user.rs:9-15 | the debug text is the struct head, the escaped username in quotes, and the password always as `"..."` |
| `BasicAuth.EscapeChar` | src/authorize/authorizers/basic_auth/impls/basic_auth_user.rs:9-15 | a plain character is kept; quote, backslash, tab, carriage return and newline become exactly `\"`, `\\`, `\t`, `\r` and `\n` |
| `BasicAuth.EscapeDebug` | src/authorize/authorizers/basic_auth/impls/basic_auth_user.rs:9-15 | escaping never shortens the text |
| `BasicAuth.EscapeDebugAppend` | src/authorize/authorizers/basic_auth/impls/basic_auth_user.rs:9-15 | escaping works character by character: the escape of a concatenation is the concatenation of the escapes |
| `BasicAuth.EscapeDebugPlain` | src/authorize/authorizers/basic_auth/impls/basic_auth_user.rs:9-15 | text made only of visible ASCII other than quote and backslash is printed as is |
| `BasicAuth.DebugHidesPassword` | src/authorize/authorizers/basic_auth/impls/basic_auth_user.rs:9-15 | the debug output does not depend on the password |
| `BasicAuth.DebugShowsUsername` | src/authorize/authorizers/basic_auth/impls/basic_auth_user.rs:9-15 | for a username of visible ASCII without quote or backslash the debug output shows it verbatim, with the password as `"..."` |
| `BasicAuth.NewBasicAuthUser` | src/authorize/authorizers/basic_auth/impls/basic_auth_user.rs:19-27 | the user holds the given username and password |
| `BasicAuth.BasicAuthUserEquality` | src/authorize/authorizers/basic_auth/impls/basic_auth_user.rs:3-7 | two users are equal exactly when both username and password are |
| `BasicAuth.DefaultBasicAuthAuthorizer.Authorize` | src/authorize/authorizers/basic_auth/impls/default_basic_auth_authorizer.rs:65-78 | an extraction error is wrapped as `BasicAuth`; otherwise success exactly when the pair is a configured user, else `Invalid` |
| `BasicAuth.BasicAuthErrorResponse` | src/authorize/authorizers/basic_auth/impls/default_basic_auth_authorizer.rs:100-111 | every error is answered 401 with the Basic challenge header |
| `BasicAuth.WrongPasswordRefused` | src/authorize/authorizers/basic_auth/impls/default_basic_auth_authorizer.rs:65-78 | a known username with a password other than its own is refused as `Invalid` |
| `Jwks.JwkSet.Find` | src/authorize/authorizers/jwt/impls/default_jwt_authorizer.rs:42-44 | none exactly when no key carries the `kid`; otherwise a key of the set |
| `Jwks.FindPrefers` | src/authorize/authorizers/jwt/impls/default_jwt_authorizer.rs:42-44 | the first key carrying the `kid` is the one found |
| `Jwks.FindSkipsOthers` | src/authorize/authorizers/jwt/impls/default_jwt_authorizer.rs:42-44 | keys with other `kid`s before the match do not change the answer |
| `JwtValidation.Collect` | src/authorize/authorizers/jwt/impls/validation.rs:76 | collecting a slice into a set keeps exactly its elements |
| `JwtValidation.Validation.RequiredSpecClaims` | src/authorize/authorizers/jwt/impls/validation.rs:42-45 | sets the required claims and nothing else |
| `JwtValidation.Validation.Leeway` | src/authorize/authorizers/jwt/impls/validation.rs:47-50 | sets the leeway and nothing else |
| `JwtValidation.Validation.RejectTokensExpiringInLessThan` | src/authorize/authorizers/jwt/impls/validation.rs:52-58 | sets the expiry margin and nothing else |
| `JwtValidation.Validation.ValidateExp` | src/authorize/authorizers/jwt/impls/validation.rs:60-63 | sets the `exp` check flag and nothing else |
| `JwtValidation.Validation.ValidateNbf` | src/authorize/authorizers/jwt/impls/validation.rs:65-68 | sets the `nbf` check flag and nothing else |
| `JwtValidation.Validation.ValidateAud` | src/authorize/authorizers/jwt/impls/validation.rs:70-73 | sets the `aud` check flag and nothing else |
| `JwtValidation.Validation.Aud` | src/authorize/authorizers/jwt/impls/validation.rs:75-78 | sets the audiences to the set of the given ones and nothing else |
| `JwtValidation.Validation.Iss` | src/authorize/authorizers/jwt/impls/validation.rs:80-83 | sets the issuers to the set of the given ones and nothing else |
| `JwtValidation.Validation.Sub` | src/authorize/authorizers/jwt/impls/validation.rs:86-89 | sets the subject and nothing else |
| `JwtValidation.Validation.InsecureDisableSignatureValidation` | src/authorize/authorizers/jwt/impls/validation.rs:91-94 | turns signature validation off and nothing else |
| `JwtValidation.Validation.ToJsonWebTokenValidation` | src/authorize/authorizers/jwt/impls/validation.rs:96-115 | the token's algorithm only; leeway, margin, flags, audiences, issuers, subject and signature switch copied; required claims left at the library default |
| `JwtValidation.DefaultValidation` | src/authorize/authorizers/jwt/impls/validation.rs:20-35 | the documented defaults: `exp` required, leeway 60, margin 0, `exp` and `aud` checked, `nbf` not, no audiences, issuers or subject, signatures checked |
| `JwtValidation.JsonWebTokenValidation.InsecureDisableSignatureValidation` | src/authorize/authorizers/jwt/impls/validation.rs:110-112 | the library call turns signature validation off and nothing else |
| `JwtValidation.NewJsonWebTokenValidation` | src/authorize/authorizers/jwt/impls/validation.rs:97 | the library's validation for one algorithm, with its defaults |
| `JwtValidation.InsecureDisableIdempotent` | src/authorize/authorizers/jwt/impls/validation.rs:91-94 | disabling signature validation twice is disabling it once |
| `JwtValidation.AudIssIgnoreDuplicatesAndOrder` | src/authorize/authorizers/jwt/impls/validation.rs:75-83 | audiences and issuers given in another order or with repeats give the same validation |
| `JwtValidation.AudEmptyIsSomeEmpty` | src/authorize/authorizers/jwt/impls/validation.rs:75-78 | an empty audience list sets an empty set, not `None` |
| `JwtValidation.RequiredSpecClaimsNotTransferred` | src/authorize/authorizers/jwt/impls/validation.rs:96-115 | the required claims setting has no effect on the produced validation |
| `JwtValidation.DefaultTranslatesToLibraryDefault` | src/authorize/authorizers/jwt/impls/validation.rs:96-115 | the default builder translates to the library's own default for the algorithm |
| `JwtAuthorizer.DefaultJwtAuthorizer.Validate` | src/authorize/authorizers/jwt/impls/default_jwt_authorizer.rs:35-55 | header decode, `kid`, matching key, decoding key and claim decode run in order, each failure with its own error; success exactly when all succeed, with the decoded claims |
| `JwtAuthorizer.DefaultJwtAuthorizer.Extract` | src/authorize/authorizers/jwt/impls/default_jwt_authorizer.rs:101-115 | a Bearer failure stops before the provider; a provider failure is `JwkSet`; otherwise the validation result, its error wrapped as `Jwt` |
| `JwtAuthorizer.JwtErrorResponse` | src/authorize/authorizers/jwt/impls/default_jwt_authorizer.rs:201-211 | a key-set failure is 500, every other error 401, each with the Bearer challenge |
| `JwtAuthorizer.RemovedKeyIsReported` | src/authorize/authorizers/jwt/impls/default_jwt_authorizer.rs:42-44 | a token whose `kid` is in no key of the set fails with `MatchingJWK` naming that `kid` |
| `JwtAuthorizer.MatchingKeyDecides` | src/authorize/authorizers/jwt/impls/default_jwt_authorizer.rs:42-52 | with a matching key first in the set, the outcome is the claim decode under that key and the translated validation |
| `JwkFetch.MapErrorFetcher.FetchJwkSet` | src/authorize/authorizers/jwt/jwk_set/fetch/jwk_set_fetcher.rs:44-49 | a fetched set passes unchanged and a fetch error is mapped |
| `JwkFetch.MapErrorFetcher.FetchJwkSetRun` | src/authorize/authorizers/jwt/jwk_set/fetch/jwk_set_fetcher.rs:44-49 | the inner fetcher is asked exactly once |
| `JwkFetch.MapErrorFetcher.AsFetcher` | src/authorize/authorizers/jwt/jwk_set/fetch/jwk_set_fetcher.rs:44-49 | the mapped fetcher seen as a fetcher, with the same answers |
| `JwkFetch.MapErr` | src/authorize/authorizers/jwt/jwk_set/fetch/jwk_set_fetcher.rs:20-22 | `map_err` keeps successes and maps errors, for every state of the world |
| `JwkFetch.MapErrFusion` | src/authorize/authorizers/jwt/jwk_set/fetch/jwk_set_fetcher.rs:20-22 | mapping errors by `f` then `g` equals mapping by their composition |
| `RotatingProvider.ElapsedSeconds` | src/authorize/authorizers/jwt/jwk_set/impls/rotating/rotating_jwk_set_provider.rs:69 | whole seconds since the stamp, zero for a clock reading before it |
| `RotatingProvider.NeedsRefresh` | src/authorize/authorizers/jwt/jwk_set/impls/rotating/rotating_jwk_set_provider.rs:67-75 | a refresh is due exactly when the clock is strictly past the stamp plus the time to live |
| `RotatingProvider.Provide` | src/authorize/authorizers/jwt/jwk_set/impls/rotating/rotating_jwk_set_provider.rs:67-91 | the fetcher is asked exactly when the holder is past its time to live; a success replaces and stamps the set; a failure changes nothing and is reported; otherwise the stored set is served |
| `RotatingProvider.RefreshThreshold` | src/authorize/authorizers/jwt/jwk_set/impls/rotating/rotating_jwk_set_provider.rs:67-75 | a refresh needs strictly more than the time to live; exactly the time to live does not refresh |
| `RotatingProvider.StalenessBound` | src/authorize/authorizers/jwt/jwk_set/impls/rotating/rotating_jwk_set_provider.rs:67-91 | a served set was fetched at most the time to live ago |
| `RotatingProvider.FailedRefreshRetries` | src/authorize/authorizers/jwt/jwk_set/impls/rotating/rotating_jwk_set_provider.rs:49-75 | after a failed refresh the next read asks the fetcher again |
| `RotatingProvider.LazyRotation` | src/authorize/authorizers/jwt/jwk_set/impls/rotating/rotating_jwk_set_provider.rs:67-91 | reads within the time to live serve the old set without fetching; the first later read fetches once; reads after that serve the new set |
| `RotatingProvider.RotatingJwkSetProvider.New` | src/authorize/authorizers/jwt/jwk_set/impls/rotating/rotating_jwk_set_provider.rs:27-46 | creation fetches once; a failure creates no provider; a success stores the set stamped now |
| `RotatingProvider.RotatingJwkSetProvider.RefreshJwkSet` | src/authorize/authorizers/jwt/jwk_set/impls/rotating/rotating_jwk_set_provider.rs:49-64 | a fetched set replaces the stored one, stamped now; a failure leaves the holder unchanged |
| `RotatingProvider.RotatingJwkSetProvider.Get` | src/authorize/authorizers/jwt/jwk_set/impls/rotating/rotating_jwk_set_provider.rs:67-75 | the new holder and the fetch decision are those of `Provide` |
| `RotatingProvider.RotatingJwkSetProvider.ProvideJwkSet` | src/authorize/authorizers/jwt/jwk_set/impls/rotating/rotating_jwk_set_provider.rs:86-91 | the answer, the new holder and the fetch decision are exactly `Provide` of the old holder |
| `BackgroundProvider.Refresh` | src/authorize/authorizers/jwt/jwk_set/impls/rotating/background_rotating_jwk_set_provider.rs:98-129 | every attempt is stamped now; a success replaces the set and clears the error; a failure keeps the set and records the error |
| `BackgroundProvider.Served` | src/authorize/authorizers/jwt/jwk_set/impls/rotating/background_rotating_jwk_set_provider.rs:152-160 | a recorded error is returned; otherwise the stored set |
| `BackgroundProvider.Replay` | src/authorize/authorizers/jwt/jwk_set/impls/rotating/background_rotating_jwk_set_provider.rs:73-95 | the loop's effect on the holder: untouched when cancellation comes before any tick, otherwise stamped by the last tick before cancellation |
| `BackgroundProvider.ActiveTicks` | src/authorize/authorizers/jwt/jwk_set/impls/rotating/background_rotating_jwk_set_provider.rs:73-95 | the number of refreshes before cancellation: every earlier event is a tick and the next one, if any, is the cancellation |
| `BackgroundProvider.CancelStops` | src/authorize/authorizers/jwt/jwk_set/impls/rotating/background_rotating_jwk_set_provider.rs:73-95 | events after a cancellation have no effect |
| `BackgroundProvider.ReplayTick` | src/authorize/authorizers/jwt/jwk_set/impls/rotating/background_rotating_jwk_set_provider.rs:73-95 | each tick before cancellation performs one refresh |
| `BackgroundProvider.LastSuccessKept` | src/authorize/authorizers/jwt/jwk_set/impls/rotating/background_rotating_jwk_set_provider.rs:98-129 | after failed refreshes the last successfully fetched set is still stored |
| `BackgroundProvider.SuccessClearsError` | src/authorize/authorizers/jwt/jwk_set/impls/rotating/background_rotating_jwk_set_provider.rs:98-129 | after a successful refresh reads serve the fetched set |
| `BackgroundProvider.BackgroundRotation` | src/authorize/authorizers/jwt/jwk_set/impls/rotating/background_rotating_jwk_set_provider.rs:73-160 | a rotation scenario: a success serves the new set, a failure makes reads fail, the next success recovers |
| `BackgroundProvider.BackgroundRotatingJwkSetProvider.New` | src/authorize/authorizers/jwt/jwk_set/impls/rotating/background_rotating_jwk_set_provider.rs:37-70 | creation fetches once; a failure creates no provider; a success stores the set with no error |
| `BackgroundProvider.BackgroundRotatingJwkSetProvider.RefreshJwkSetInner` | src/authorize/authorizers/jwt/jwk_set/impls/rotating/background_rotating_jwk_set_provider.rs:98-129 | the answer and the new holder are `Refresh` of the old holder |
| `BackgroundProvider.BackgroundRotatingJwkSetProvider.RefreshJwkSet` | src/authorize/authorizers/jwt/jwk_set/impls/rotating/background_rotating_jwk_set_provider.rs:131-136 | the answer and the new holder are `Refresh` of the old holder |
| `BackgroundProvider.BackgroundRotatingJwkSetProvider.ProvideJwkSet` | src/authorize/authorizers/jwt/jwk_set/impls/rotating/background_rotating_jwk_set_provider.rs:152-160 | reads never fetch and answer `Served` of the holder |
| `BackgroundProvider.BackgroundRotatingJwkSetProvider.BackgroundRefreshLoop` | src/authorize/authorizers/jwt/jwk_set/impls/rotating/background_rotating_jwk_set_provider.rs:73-95 | the final holder is `Replay` of the events, and one refresh is made per tick before cancellation |
| `Extension.ExtensionService.Call` | src/extension/service.rs:40-56 | an extraction error becomes the response and the inner service is not called; otherwise the value is inserted under its type and the service called |
| `Extension.Remove` | src/extension/modify/service.rs:52 | removing a type's entry drops only that entry and yields the stored value when it has that type |
| `Extension.ModificationService.Call` | src/extension/modify/service.rs:47-64 | no sealed value gives `Extract`; a modifier error gives `Modification`; otherwise the modified value replaces the sealed one and the service is called |
| `Extension.ModificationErrorResponse` | src/extension/modify/service.rs:86-91 | a missing value is 500 with no headers; a modifier error uses the modifier's response |
| `AppRules.VerifyEmail` | examples/jwt_email_verfied.rs:99-105 | the claims pass unchanged exactly when the email is verified |
| `AppRules.EmailVerifiedChain` | examples/jwt_email_verfied.rs:99-105 | the chained authorizer succeeds exactly when the claims are authorized and verified |
| `AppRules.ValidateGroups` | examples/jwt_groups.rs:113-123 | the claims pass unchanged exactly when one of their groups is allowed |
| `AppRules.GroupsRoute` | examples/jwt_groups.rs:72-85 | a route guarded by one `GroupsValidator` layer runs its handler exactly when the stored claims share a group with the validator's set, and the handler sees the claims unchanged; otherwise the layer's `Extract` or `Modification` error answers |

## Left out

- Concurrency: `Arc`, `RwLock`, tokio tasks, `select!` and the oneshot cancellation channel. Each method runs atomically on its holder.
- The background loop's sleep between refreshes. Each tick carries its own clock reading, so `refreshIntervalInSeconds` is stored but not used to space ticks.
- Sub-second clocks and the time a fetch takes. The stamp of a refresh is the `now` the caller passes.
- Awaiting futures. Async and sync variants are the same function.
- Network access by the HTTP JWK-set fetcher, and JSON decoding of its body. The fetcher's answer is a parameter.
- Base64 and UTF-8 decoding, `decode_header`, `DecodingKey::from_jwk` and `decode` from `jsonwebtoken`. They are parameters, so their own correctness is not modelled.
- Header-name case folding and multi-valued headers. A header map holds one value per exact name.
- `Http.ToStr`: follows the `http` crate rule (visible ASCII or tab) but is not that crate's code. The `http` crate is not part of this model.
- `BasicAuth.EscapeDebug`: escapes `"`, `\`, tab, carriage return and newline only. Rust's `{:?}` also escapes other control and non-printable Unicode characters.
- `Extract.AnyExtractor.Extract`: only delegates to its inner extractor, as the code does. No first-success search over several extractors happens here.
- Visibility of the sealed wrappers' constructors (crate-private in Rust). The model cannot hide a datatype constructor.
- Axum and tower glue: `IntoResponse` bodies, error `Display` texts, `Layer`s, `Clone`, the `then` authorizer adapter, `poll_ready` and tracing.
- The inner tower service. It is a function from the request's headers and extensions to a response.
