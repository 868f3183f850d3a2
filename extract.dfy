/**
 * The extraction abstraction and the combinators of `src/extract/`:
 * `And`, `Or`, `Any`, `Optional`, `Map`, `AsyncMap`, `MapError`,
 * `Convert`, `AsyncConvert`, `ChainLite`, `AsyncChainLite` and the
 * `SealedExtracted` wrapper.
 *
 * An extractor is a total function from request headers to a typed value or
 * a typed error. Every combinator is a datatype that owns its children, and
 * its `Extract` returns a `Run`: the result together with the log of the
 * children and closures it consulted, in order. Awaiting a future is not
 * modelled: an asynchronous closure is the function from its argument to the
 * value its future resolves to.
 */
module Extract {
  import opened Wrappers
  import opened Http

  /** `Extractor::extract`: headers to a value or an error. */
  type Extractor<T, E> = HeaderMap -> Result<T, E>

  /** The parties a combinator can consult while extracting. */
  datatype Role =
    | LeftExtractor | RightExtractor | InnerExtractor
    | MapFunction | ConvertFunction | ChainFunction
    | ValidatorRole | AuthorizerRole | ModifierRole | InnerService
    | BearerExtractorRole | JwkSetProviderRole | TokenValidation | FetcherRole

  /** One consultation: an extractor given headers, or a closure applied to a value. */
  datatype Call = Consulted(role: Role, headers: HeaderMap) | Applied(role: Role)

  /** The outcome of one extraction and the calls it made, first call first. */
  datatype Run<T, E> = Run(result: Result<T, E>, calls: seq<Call>)

  // ---------------------------------------------------------------- And

  /** `And<L, R>`: both values, each in its own slot. */
  datatype And<L, R> = And(left: L, right: R)

  /** `AndError<L, R>`: which side failed, with its error. */
  datatype AndError<EL, ER> = Left(leftError: EL) | Right(rightError: ER)

  /** `AndExtractor`: both sides must succeed, left first. */
  datatype AndExtractor<L, R, EL, ER> = AndExtractor(left: Extractor<L, EL>, right: Extractor<R, ER>) {

    function Extract(headers: HeaderMap): (r: Run<And<L, R>, AndError<EL, ER>>)
      // the left extractor always runs first, on the request's headers
      ensures |r.calls| >= 1 && r.calls[0] == Consulted(LeftExtractor, headers)
      // a left failure is tagged Left and the right side is never consulted
      ensures left(headers).Err? ==>
                r.result == Err(AndError.Left(left(headers).error))
                && r.calls == [Consulted(LeftExtractor, headers)]
      // after a left success the right side runs exactly once, on the same headers
      ensures left(headers).Ok? ==>
                r.calls == [Consulted(LeftExtractor, headers), Consulted(RightExtractor, headers)]
      ensures left(headers).Ok? && right(headers).Err? ==>
                r.result == Err(AndError.Right(right(headers).error))
      // success exactly when both sides succeed; the values keep their sides
      ensures r.result.Ok? <==> left(headers).Ok? && right(headers).Ok?
      ensures r.result.Ok? ==> r.result.value == And(left(headers).value, right(headers).value)
    {
      match left(headers)
      case Err(e) => Run(Err(AndError.Left(e)), [Consulted(LeftExtractor, headers)])
      case Ok(l) =>
        var calls := [Consulted(LeftExtractor, headers), Consulted(RightExtractor, headers)];
        match right(headers)
        case Err(e) => Run(Err(AndError.Right(e)), calls)
        case Ok(v) => Run(Ok(And(l, v)), calls)
    }

    function AsExtractor(): Extractor<And<L, R>, AndError<EL, ER>> {
      h => Extract(h).result
    }
  }

  /** `IntoResponse for AndError`: the failing side's own response. */
  function AndErrorResponse<EL, ER>(e: AndError<EL, ER>, leftResponse: EL -> Response, rightResponse: ER -> Response): (r: Response)
    ensures e.Left? ==> r == leftResponse(e.leftError)
    ensures e.Right? ==> r == rightResponse(e.rightError)
  {
    match e
    case Left(l) => leftResponse(l)
    case Right(r) => rightResponse(r)
  }

  // ---------------------------------------------------------------- Or

  /** `Or<L, R>`: which side matched, with its value. */
  datatype Or<L, R> = Left(leftValue: L) | Right(rightValue: R)

  /** `OrError<L, R>`: both causes, when both sides failed. */
  datatype OrError<EL, ER> = OrError(left: EL, right: ER)

  /** `OrExtractor`: the first side that succeeds wins, left first. */
  datatype OrExtractor<L, R, EL, ER> = OrExtractor(left: Extractor<L, EL>, right: Extractor<R, ER>) {

    function Extract(headers: HeaderMap): (r: Run<Or<L, R>, OrError<EL, ER>>)
      ensures |r.calls| >= 1 && r.calls[0] == Consulted(LeftExtractor, headers)
      // a left success is tagged Left and the right side is never consulted
      ensures left(headers).Ok? ==>
                r.result == Ok(Or.Left(left(headers).value))
                && r.calls == [Consulted(LeftExtractor, headers)]
      // after a left failure the right side runs exactly once, on the same headers
      ensures left(headers).Err? ==>
                r.calls == [Consulted(LeftExtractor, headers), Consulted(RightExtractor, headers)]
      // the left error is dropped when the right side succeeds
      ensures left(headers).Err? && right(headers).Ok? ==>
                r.result == Ok(Or.Right(right(headers).value))
      // both causes are kept when both sides fail
      ensures r.result.Err? <==> left(headers).Err? && right(headers).Err?
      ensures r.result.Err? ==> r.result.error == OrError(left(headers).error, right(headers).error)
      // the result is tagged Left exactly when the left side succeeded
      ensures (r.result.Ok? && r.result.value.Left?) <==> left(headers).Ok?
    {
      match left(headers)
      case Ok(l) => Run(Ok(Or.Left(l)), [Consulted(LeftExtractor, headers)])
      case Err(le) =>
        var calls := [Consulted(LeftExtractor, headers), Consulted(RightExtractor, headers)];
        match right(headers)
        case Ok(v) => Run(Ok(Or.Right(v)), calls)
        case Err(re) => Run(Err(OrError(le, re)), calls)
    }

    function AsExtractor(): Extractor<Or<L, R>, OrError<EL, ER>> {
      h => Extract(h).result
    }
  }

  /** `IntoResponse for OrError`: only the left cause is rendered. */
  function OrErrorResponse<EL, ER>(e: OrError<EL, ER>, leftResponse: EL -> Response): (r: Response)
    ensures r == leftResponse(e.left)
  {
    leftResponse(e.left)
  }

  // ---------------------------------------------------------------- Any

  /** `Any<Ex, IS_ROOT>`: a wrapper flagged with whether it is the root of an `any` chain. */
  datatype AnyExtractor<T, E> = AnyExtractor(inner: Extractor<T, E>, isRoot: bool) {

    /** Only `Any<_, true>` implements `Extractor`: it hands the call to its inner extractor. */
    function Extract(headers: HeaderMap): (r: Run<T, E>)
      requires isRoot
      ensures r.result == inner(headers)
      ensures r.calls == [Consulted(InnerExtractor, headers)]
    {
      Run(inner(headers), [Consulted(InnerExtractor, headers)])
    }
  }

  /** `Any::new`: whatever the caller's flag, the result is a root wrapper around `inner`. */
  function NewAny<T, E>(inner: Extractor<T, E>): (a: AnyExtractor<T, E>)
    ensures a.isRoot
    ensures forall h :: a.inner(h) == inner(h)
  {
    AnyExtractor(inner, true)
  }

  // ---------------------------------------------------------------- Optional

  /** `InfallibleError`: the error type of an extractor that never fails. */
  datatype InfallibleError = InfallibleError

  /** `Optional`: a failure becomes an absent value. */
  datatype OptionalExtractor<T, E> = OptionalExtractor(inner: Extractor<T, E>) {

    function Extract(headers: HeaderMap): (r: Run<Option<T>, InfallibleError>)
      // never fails
      ensures r.result.Ok?
      ensures inner(headers).Ok? ==> r.result.value == Some(inner(headers).value)
      ensures inner(headers).Err? ==> r.result.value == None
      // one attempt, no retry
      ensures r.calls == [Consulted(InnerExtractor, headers)]
    {
      Run(Ok(inner(headers).ToOption()), [Consulted(InnerExtractor, headers)])
    }
  }

  // ---------------------------------------------------------------- Map, AsyncMap, MapError

  /** `Map`: a success is transformed by `map`, an error passes unchanged. */
  datatype MapExtractor<!T, U, E> = MapExtractor(inner: Extractor<T, E>, mapping: T -> U) {

    function Extract(headers: HeaderMap): (r: Run<U, E>)
      ensures inner(headers).Ok? ==> r.result == Ok(mapping(inner(headers).value))
      ensures inner(headers).Err? ==> r.result == Err(inner(headers).error)
      // `mapping` is applied only to a success
      ensures Applied(MapFunction) in r.calls <==> inner(headers).Ok?
      ensures 1 <= |r.calls| <= 2 && r.calls[0] == Consulted(InnerExtractor, headers)
    {
      var ex := inner(headers);
      Run(ex.MapOk(mapping),
          [Consulted(InnerExtractor, headers)] + (if ex.Ok? then [Applied(MapFunction)] else []))
    }

    function AsExtractor(): Extractor<U, E> {
      h => Extract(h).result
    }
  }

  /** `AsyncMap`: `?` on the inner result, then the awaited mapping. */
  datatype AsyncMapExtractor<!T, U, E> = AsyncMapExtractor(inner: Extractor<T, E>, mapping: T -> U) {

    function Extract(headers: HeaderMap): (r: Run<U, E>)
      ensures inner(headers).Ok? ==> r.result == Ok(mapping(inner(headers).value))
      ensures inner(headers).Err? ==> r.result == Err(inner(headers).error)
      ensures inner(headers).Err? ==> r.calls == [Consulted(InnerExtractor, headers)]
      ensures inner(headers).Ok? ==>
                r.calls == [Consulted(InnerExtractor, headers), Applied(MapFunction)]
    {
      match inner(headers)
      case Err(e) => Run(Err(e), [Consulted(InnerExtractor, headers)])
      case Ok(v) => Run(Ok(mapping(v)), [Consulted(InnerExtractor, headers), Applied(MapFunction)])
    }
  }

  /** `MapError`: an error is transformed by `mapErr`, a success passes unchanged. */
  datatype MapErrorExtractor<T, !E, F> = MapErrorExtractor(inner: Extractor<T, E>, mapErr: E -> F) {

    function Extract(headers: HeaderMap): (r: Run<T, F>)
      ensures inner(headers).Ok? ==> r.result == Ok(inner(headers).value)
      ensures inner(headers).Err? ==> r.result == Err(mapErr(inner(headers).error))
      ensures Applied(MapFunction) in r.calls <==> inner(headers).Err?
      ensures 1 <= |r.calls| <= 2 && r.calls[0] == Consulted(InnerExtractor, headers)
    {
      var ex := inner(headers);
      Run(ex.MapErr(mapErr),
          [Consulted(InnerExtractor, headers)] + (if ex.Err? then [Applied(MapFunction)] else []))
    }

    function AsExtractor(): Extractor<T, F> {
      h => Extract(h).result
    }
  }

  /** `AsyncMap` and `Map` agree on every request, calls included. */
  lemma AsyncMapIsMap<T, U, E>(inner: Extractor<T, E>, f: T -> U, headers: HeaderMap)
    ensures AsyncMapExtractor(inner, f).Extract(headers) == MapExtractor(inner, f).Extract(headers)
  {
  }

  /** `Map` with the identity closure is observationally its inner extractor. */
  lemma MapIdentity<T, E>(inner: Extractor<T, E>, headers: HeaderMap)
    ensures MapExtractor(inner, (x: T) => x).Extract(headers).result == inner(headers)
  {
  }

  /** Two nested maps behave as one map by the composed closure. */
  lemma MapFusion<T, U, V, E>(inner: Extractor<T, E>, f: T -> U, g: U -> V, headers: HeaderMap)
    ensures MapExtractor(MapExtractor(inner, f).AsExtractor(), g).Extract(headers).result
            == MapExtractor(inner, (x: T) => g(f(x))).Extract(headers).result
  {
  }

  // ---------------------------------------------------------------- Convert, AsyncConvert

  /** `Convert`: the closure sees the whole inner `Result` and decides the outcome. */
  datatype ConvertExtractor<!T, !E, U, F> = ConvertExtractor(inner: Extractor<T, E>, convert: Result<T, E> -> Result<U, F>) {

    function Extract(headers: HeaderMap): (r: Run<U, F>)
      ensures r.result == convert(inner(headers))
      // the inner extractor and the closure are each called exactly once, in that order
      ensures r.calls == [Consulted(InnerExtractor, headers), Applied(ConvertFunction)]
    {
      var ex := inner(headers);
      Run(convert(ex), [Consulted(InnerExtractor, headers), Applied(ConvertFunction)])
    }
  }

  /** `AsyncConvert`: the same, with the closure's future awaited. */
  datatype AsyncConvertExtractor<!T, !E, U, F> = AsyncConvertExtractor(inner: Extractor<T, E>, convert: Result<T, E> -> Result<U, F>) {

    function Extract(headers: HeaderMap): (r: Run<U, F>)
      ensures r.result == convert(inner(headers))
      ensures r.calls == [Consulted(InnerExtractor, headers), Applied(ConvertFunction)]
    {
      Run(convert(inner(headers)), [Consulted(InnerExtractor, headers), Applied(ConvertFunction)])
    }
  }

  /** `Convert` with `r ↦ r` is observationally its inner extractor. */
  lemma ConvertIdentity<T, E>(inner: Extractor<T, E>, headers: HeaderMap)
    ensures ConvertExtractor(inner, (x: Result<T, E>) => x).Extract(headers).result == inner(headers)
  {
  }

  /** `Convert` can turn an inner error into a success and an inner success into an error. */
  lemma ConvertCanRecover<T, E>(inner: Extractor<T, E>, fallback: T, e0: E, headers: HeaderMap)
    ensures ConvertExtractor(inner, (x: Result<T, E>) => if x.Ok? then x else Ok(fallback)).Extract(headers).result.Ok?
    ensures var reject: Result<T, E> -> Result<T, E> := _ => Err(e0);
            ConvertExtractor(inner, reject).Extract(headers).result == Err(e0)
  {
  }

  /** `Map` and `MapError` are the two special cases of `Convert`. */
  lemma MapIsConvert<T, U, E, F>(inner: Extractor<T, E>, f: T -> U, g: E -> F, headers: HeaderMap)
    ensures MapExtractor(inner, f).Extract(headers).result
            == ConvertExtractor(inner, (x: Result<T, E>) => x.MapOk(f)).Extract(headers).result
    ensures MapErrorExtractor(inner, g).Extract(headers).result
            == ConvertExtractor(inner, (x: Result<T, E>) => x.MapErr(g)).Extract(headers).result
  {
  }

  // ---------------------------------------------------------------- ChainLite, AsyncChainLite

  /**
   * `ChainLite`: `?` on the inner result (converting the error with
   * `E: From<Ex::Error>`, here `from`), then the chain closure decides.
   */
  datatype ChainLiteExtractor<!T, !EI, U, E> = ChainLiteExtractor(inner: Extractor<T, EI>, chain: T -> Result<U, E>, from: EI -> E) {

    function Extract(headers: HeaderMap): (r: Run<U, E>)
      ensures inner(headers).Err? ==>
                r.result == Err(from(inner(headers).error))
                && r.calls == [Consulted(InnerExtractor, headers)]
      ensures inner(headers).Ok? ==>
                r.result == chain(inner(headers).value)
                && r.calls == [Consulted(InnerExtractor, headers), Applied(ChainFunction)]
    {
      match inner(headers)
      case Err(e) => Run(Err(from(e)), [Consulted(InnerExtractor, headers)])
      case Ok(v) => Run(chain(v), [Consulted(InnerExtractor, headers), Applied(ChainFunction)])
    }
  }

  /** `AsyncChainLite`: the same, with the chain's future awaited. */
  datatype AsyncChainLiteExtractor<!T, !EI, U, E> = AsyncChainLiteExtractor(inner: Extractor<T, EI>, chain: T -> Result<U, E>, from: EI -> E) {

    function Extract(headers: HeaderMap): (r: Run<U, E>)
      ensures inner(headers).Err? ==>
                r.result == Err(from(inner(headers).error))
                && r.calls == [Consulted(InnerExtractor, headers)]
      ensures inner(headers).Ok? ==>
                r.result == chain(inner(headers).value)
                && r.calls == [Consulted(InnerExtractor, headers), Applied(ChainFunction)]
    {
      match inner(headers)
      case Err(e) => Run(Err(from(e)), [Consulted(InnerExtractor, headers)])
      case Ok(v) => Run(chain(v), [Consulted(InnerExtractor, headers), Applied(ChainFunction)])
    }
  }

  /** A chain that always accepts turns `ChainLite` into a plain error conversion. */
  lemma ChainLiteAcceptingIsMapError<T, EI, E>(inner: Extractor<T, EI>, from: EI -> E, headers: HeaderMap)
    ensures ChainLiteExtractor(inner, (v: T) => Ok(v), from).Extract(headers).result
            == MapErrorExtractor(inner, from).Extract(headers).result
  {
  }

  // ---------------------------------------------------------------- SealedExtracted

  /** `SealedExtracted<T>`: a value marked as produced by an extraction. */
  datatype SealedExtracted<T> = SealedExtracted(value: T) {

    /** `into_inner`: the wrapped value; wrapping it again gives this wrapper back. */
    function IntoInner(): (v: T)
      ensures SealedExtracted(v) == this
    {
      value
    }

    /** `map`: a new wrapper around the transformed value. */
    function Map<U>(f: T -> U): (r: SealedExtracted<U>)
      ensures r.IntoInner() == f(IntoInner())
    {
      SealedExtracted(f(value))
    }

    /** `deref`: a view of the wrapped value. */
    function Deref(): (v: T)
      ensures v == IntoInner()
    {
      value
    }
  }

  /** `map` by the identity changes nothing, and two maps compose. */
  lemma SealedExtractedMapLaws<T, U, V>(s: SealedExtracted<T>, f: T -> U, g: U -> V)
    ensures s.Map((x: T) => x) == s
    ensures s.Map(f).Map(g) == s.Map((x: T) => g(f(x)))
  {
  }
}
