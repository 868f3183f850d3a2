/** `Mapper` and `AsyncMapper` of `src/map/mapper.rs`. */
module Mapper {
  import opened Wrappers
  import opened Http
  import opened Extract

  /** `Mapper`: `?` on the inner result, then the (copyable) mapping closure. */
  datatype Mapper<!T, U, E> = Mapper(extractor: Extractor<T, E>, mapping: T -> U) {

    function Extract(headers: HeaderMap): (r: Run<U, E>)
      // the inner error type is kept and an inner error passes unchanged, unmapped
      ensures extractor(headers).Err? ==>
                r.result == Err(extractor(headers).error)
                && r.calls == [Consulted(InnerExtractor, headers)]
      ensures extractor(headers).Ok? ==>
                r.result == Ok(mapping(extractor(headers).value))
                && r.calls == [Consulted(InnerExtractor, headers), Applied(MapFunction)]
    {
      match extractor(headers)
      case Err(e) => Run(Err(e), [Consulted(InnerExtractor, headers)])
      case Ok(v) => Run(Ok(mapping(v)), [Consulted(InnerExtractor, headers), Applied(MapFunction)])
    }
  }

  /** `AsyncMapper`: the same, with the mapping's future awaited. */
  datatype AsyncMapper<!T, U, E> = AsyncMapper(extractor: Extractor<T, E>, mapping: T -> U) {

    function Extract(headers: HeaderMap): (r: Run<U, E>)
      ensures extractor(headers).Err? ==>
                r.result == Err(extractor(headers).error)
                && r.calls == [Consulted(InnerExtractor, headers)]
      ensures extractor(headers).Ok? ==>
                r.result == Ok(mapping(extractor(headers).value))
                && r.calls == [Consulted(InnerExtractor, headers), Applied(MapFunction)]
    {
      match extractor(headers)
      case Err(e) => Run(Err(e), [Consulted(InnerExtractor, headers)])
      case Ok(v) => Run(Ok(mapping(v)), [Consulted(InnerExtractor, headers), Applied(MapFunction)])
    }
  }

  /** Both mappers are the `Map` combinator under another name, calls included. */
  lemma MappersAreMap<T, U, E>(extractor: Extractor<T, E>, f: T -> U, headers: HeaderMap)
    ensures Mapper(extractor, f).Extract(headers) == MapExtractor(extractor, f).Extract(headers)
    ensures AsyncMapper(extractor, f).Extract(headers) == MapExtractor(extractor, f).Extract(headers)
  {
  }
}
