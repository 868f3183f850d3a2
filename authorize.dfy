/**
 * `AuthorizationExtractor` of `src/authorize/extract/authorization_extractor.rs`
 * and the `SealedAuthorized` wrapper it produces.
 */
module Authorize {
  import opened Wrappers
  import opened Http
  import opened Extract

  /** `SealedAuthorized<T>`: a value marked as produced by an authorizer. */
  datatype SealedAuthorized<T> = SealedAuthorized(value: T) {

    /** `into_inner`: the wrapped value; wrapping it again gives this wrapper back. */
    function IntoInner(): (v: T)
      ensures SealedAuthorized(v) == this
    {
      value
    }

    /** `deref`: a view of the wrapped value. */
    function Deref(): (v: T)
      ensures v == IntoInner()
    {
      value
    }
  }

  /** `Authorizer::authorize`: headers to an authorized value or an error. */
  type Authorizer<A, E> = HeaderMap -> Result<A, E>

  /** `AuthorizationExtractor`: run the authorizer once and seal its output. */
  datatype AuthorizationExtractor<A, E> = AuthorizationExtractor(authorizer: Authorizer<A, E>) {

    function Extract(headers: HeaderMap): (r: Run<SealedAuthorized<A>, E>)
      ensures r.calls == [Consulted(AuthorizerRole, headers)]
      // the authorizer's error is returned as it is
      ensures authorizer(headers).Err? <==> r.result.Err?
      ensures r.result.Err? ==> r.result.error == authorizer(headers).error
      // the sealed value is exactly what the authorizer produced
      ensures r.result.Ok? ==> r.result.value.IntoInner() == authorizer(headers).value
    {
      match authorizer(headers)
      case Err(e) => Run(Err(e), [Consulted(AuthorizerRole, headers)])
      case Ok(a) => Run(Ok(SealedAuthorized(a)), [Consulted(AuthorizerRole, headers)])
    }
  }

  /** Authorization is `Map` with the sealing constructor over the authorizer. */
  lemma AuthorizationIsSealingMap<A, E>(authorizer: Authorizer<A, E>, headers: HeaderMap)
    ensures
      var seal: A -> SealedAuthorized<A> := a => SealedAuthorized(a);
      AuthorizationExtractor(authorizer).Extract(headers).result
      == MapExtractor(authorizer, seal).Extract(headers).result
  {
  }
}
