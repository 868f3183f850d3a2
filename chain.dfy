/** `ChainExtractor` of `src/chain/chain_extractor.rs`. */
module Chain {
  import opened Wrappers
  import opened Http
  import opened Extract

  /** `ChainError`: the failing stage, with its error. */
  datatype ChainError<EX, EC> = Extract(extractError: EX) | Chain(chainError: EC)

  /** `ChainExtractor`: extract, then pass the value through the `Chain` step. */
  datatype ChainExtractor<!T, EX, U, EC> = ChainExtractor(extractor: Extractor<T, EX>, chain: T -> Result<U, EC>) {

    function Extract(headers: HeaderMap): (r: Run<U, ChainError<EX, EC>>)
      // the extractor always runs first
      ensures |r.calls| >= 1 && r.calls[0] == Consulted(InnerExtractor, headers)
      // an extraction failure is tagged Extract and the chain is never called
      ensures extractor(headers).Err? ==>
                r.result == Err(ChainError.Extract(extractor(headers).error))
                && r.calls == [Consulted(InnerExtractor, headers)]
      ensures extractor(headers).Ok? ==>
                r.calls == [Consulted(InnerExtractor, headers), Applied(ChainFunction)]
      // a chain failure is tagged Chain
      ensures extractor(headers).Ok? && chain(extractor(headers).value).Err? ==>
                r.result == Err(ChainError.Chain(chain(extractor(headers).value).error))
      // success exactly when both stages succeed, with the chain's output
      ensures r.result.Ok? <==> extractor(headers).Ok? && chain(extractor(headers).value).Ok?
      ensures r.result.Ok? ==> r.result.value == chain(extractor(headers).value).value
    {
      match extractor(headers)
      case Err(e) => Run(Err(ChainError.Extract(e)), [Consulted(InnerExtractor, headers)])
      case Ok(v) =>
        var calls := [Consulted(InnerExtractor, headers), Applied(ChainFunction)];
        match chain(v)
        case Err(e) => Run(Err(ChainError.Chain(e)), calls)
        case Ok(u) => Run(Ok(u), calls)
    }
  }

  /**
   * `ChainExtractor` is `ChainLite` over an error-tagging `MapError`, with a
   * chain whose error is tagged as well: the two chaining styles agree.
   */
  lemma ChainExtractorIsTaggedChainLite<T, EX, U, EC>(extractor: Extractor<T, EX>, chain: T -> Result<U, EC>, headers: HeaderMap)
    ensures
      var tagged: EX -> ChainError<EX, EC> := e => ChainError.Extract(e);
      var taggedChain: T -> Result<U, ChainError<EX, EC>> := v => chain(v).MapErr(e => ChainError.Chain(e));
      var same: ChainError<EX, EC> -> ChainError<EX, EC> := e => e;
      ChainExtractor(extractor, chain).Extract(headers).result
      == ChainLiteExtractor(MapErrorExtractor(extractor, tagged).AsExtractor(), taggedChain, same).Extract(headers).result
  {
  }
}
