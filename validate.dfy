/**
 * `ValidationExtractor` of `src/validate/extract/validation_extractor.rs` and
 * the `SealedValidated` wrapper it produces.
 */
module Validate {
  import opened Wrappers
  import opened Http
  import opened Extract
  import Chain

  /** `SealedValidated<T>`: a value marked as having passed a validator. */
  datatype SealedValidated<T> = SealedValidated(value: T) {

    /** `into_inner`: the wrapped value; wrapping it again gives this wrapper back. */
    function IntoInner(): (v: T)
      ensures SealedValidated(v) == this
    {
      value
    }

    /** `map`: a new wrapper around the transformed value. */
    function Map<U>(f: T -> U): (r: SealedValidated<U>)
      ensures r.IntoInner() == f(IntoInner())
    {
      SealedValidated(f(value))
    }

    /** `deref`: a view of the wrapped value. */
    function Deref(): (v: T)
      ensures v == IntoInner()
    {
      value
    }
  }

  /** `map` by the identity changes nothing, and two maps compose. */
  lemma SealedValidatedMapLaws<T, U, V>(s: SealedValidated<T>, f: T -> U, g: U -> V)
    ensures s.Map(x => x) == s
    ensures s.Map(f).Map(g) == s.Map(x => g(f(x)))
  {
  }

  /** `Validator::validate`: inspects a borrowed value and accepts it or names a failure. */
  type Validator<!T, VE> = T -> Result<(), VE>

  /** `ValidateError`: which stage failed. */
  datatype ValidateError<EX, VE> = Authorize(authorizeError: EX) | Validate(validateError: VE)

  /** `ValidationExtractor`: extract, validate the value, then seal it. */
  datatype ValidationExtractor<!T, EX, VE> = ValidationExtractor(extractor: Extractor<T, EX>, validator: Validator<T, VE>) {

    function Extract(headers: HeaderMap): (r: Run<SealedValidated<T>, ValidateError<EX, VE>>)
      ensures |r.calls| >= 1 && r.calls[0] == Consulted(InnerExtractor, headers)
      // an extraction failure is tagged Authorize and the validator is not called
      ensures extractor(headers).Err? ==>
                r.result == Err(Authorize(extractor(headers).error))
                && r.calls == [Consulted(InnerExtractor, headers)]
      // the validator is called once, after the extractor, when there is a value
      ensures extractor(headers).Ok? ==>
                r.calls == [Consulted(InnerExtractor, headers), Applied(ValidatorRole)]
      ensures extractor(headers).Ok? && validator(extractor(headers).value).Err? ==>
                r.result == Err(Validate(validator(extractor(headers).value).error))
      // success exactly when both accept; the sealed value is the extracted value itself
      ensures r.result.Ok? <==> extractor(headers).Ok? && validator(extractor(headers).value).Ok?
      ensures r.result.Ok? ==> r.result.value.IntoInner() == extractor(headers).value
    {
      match extractor(headers)
      case Err(e) => Run(Err(Authorize(e)), [Consulted(InnerExtractor, headers)])
      case Ok(v) =>
        var calls := [Consulted(InnerExtractor, headers), Applied(ValidatorRole)];
        match validator(v)
        case Err(e) => Run(Err(Validate(e)), calls)
        case Ok(_) => Run(Ok(SealedValidated(v)), calls)
    }
  }

  /**
   * Validation is a chain step that returns its input when the validator
   * accepts it: the two stages and their error tags line up one for one.
   */
  lemma ValidationIsChain<T, EX, VE>(extractor: Extractor<T, EX>, validator: Validator<T, VE>, headers: HeaderMap)
    ensures
      var step: T -> Result<SealedValidated<T>, VE> := v => validator(v).MapOk(_ => SealedValidated(v));
      var validated := ValidationExtractor(extractor, validator).Extract(headers);
      var chained := Chain.ChainExtractor(extractor, step).Extract(headers);
      && validated.calls == (if extractor(headers).Ok? then [Consulted(InnerExtractor, headers), Applied(ValidatorRole)] else [Consulted(InnerExtractor, headers)])
      && (chained.result.Ok? <==> validated.result.Ok?)
      && (validated.result.Ok? ==> validated.result.value == chained.result.value)
      && (chained.result.Err? && chained.result.error.Extract? ==> validated.result == Err(Authorize(chained.result.error.extractError)))
      && (chained.result.Err? && chained.result.error.Chain? ==> validated.result == Err(Validate(chained.result.error.chainError)))
  {
  }

  /** `ValidateError`'s response: the failing stage's own response. */
  function ValidateErrorResponse<EX, VE>(e: ValidateError<EX, VE>, authorizeResponse: EX -> Response, validateResponse: VE -> Response): (r: Response)
    ensures e.Authorize? ==> r == authorizeResponse(e.authorizeError)
    ensures e.Validate? ==> r == validateResponse(e.validateError)
  {
    match e
    case Authorize(x) => authorizeResponse(x)
    case Validate(x) => validateResponse(x)
  }
}
