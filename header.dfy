/**
 * Header lookup: `DefaultHeaderExtractor` of
 * `src/authorize/header/impls/default_header_extractor.rs` and the `ErrorMap`
 * combinator of `src/authorize/header/header_extractor.rs`.
 */
module Header {
  import opened Wrappers
  import opened Http

  /** `DefaultHeaderError`: the header is absent, or its value is not visible ASCII. */
  datatype DefaultHeaderError = Missing | Ascii(cause: ToStrError)

  /**
   * A `HeaderExtractor` seen from outside: its configured header name and
   * its `extract_header`.
   */
  datatype HeaderSource<E> = HeaderSource(name: string, extractHeader: HeaderMap -> Result<string, E>) {

    /** `HeaderExtractorExt::map_err`: the same lookup with its error rewritten by `f`. */
    function MapErr<F>(f: E -> F): (r: ErrorMap<E, F>)
      ensures r.HeaderName() == name
      ensures forall headers :: r.ExtractHeader(headers).Ok? <==> extractHeader(headers).Ok?
      ensures forall headers | extractHeader(headers).Ok? :: r.ExtractHeader(headers).value == extractHeader(headers).value
      ensures forall headers | extractHeader(headers).Err? :: r.ExtractHeader(headers).error == f(extractHeader(headers).error)
    {
      ErrorMap(this, f)
    }
  }

  /** `DefaultHeaderExtractor`: reads one configured header. */
  datatype DefaultHeaderExtractor = DefaultHeaderExtractor(headerName: string) {

    /** `extract_header`: the configured header's value, as a string. */
    function ExtractHeader(headers: HeaderMap): (r: Result<string, DefaultHeaderError>)
      ensures headerName !in headers ==> r == Err(Missing)
      ensures headerName in headers && ToStr(headers[headerName]).Err? ==> r == Err(Ascii(ToStrError))
      // a value that is all visible ASCII is returned character for byte
      ensures r.Ok? <==> headerName in headers && ToStr(headers[headerName]).Ok?
      ensures r.Ok? ==> |r.value| == |headers[headerName]|
                        && forall i | 0 <= i < |r.value| :: r.value[i] as int == headers[headerName][i]
    {
      if headerName !in headers then Err(Missing)
      else ToStr(headers[headerName]).MapErr(e => Ascii(e))
    }

    /** `header_name`: the name given to `new`. */
    function HeaderName(): (n: string)
      ensures DefaultHeaderExtractor(n) == this
    {
      headerName
    }

    /** This extractor as a generic header source. */
    function AsSource(): (s: HeaderSource<DefaultHeaderError>)
      ensures s.name == HeaderName()
      ensures forall headers :: s.extractHeader(headers) == ExtractHeader(headers)
    {
      HeaderSource(headerName, headers => ExtractHeader(headers))
    }
  }

  /** `DefaultHeaderExtractor::new`. */
  function NewDefaultHeaderExtractor(headerName: string): (x: DefaultHeaderExtractor)
    ensures x.HeaderName() == headerName
  {
    DefaultHeaderExtractor(headerName)
  }

  /** Only the configured header is consulted: maps that agree on it give the same answer. */
  lemma OnlyConfiguredHeaderConsulted(x: DefaultHeaderExtractor, h1: HeaderMap, h2: HeaderMap)
    requires x.headerName in h1 <==> x.headerName in h2
    requires x.headerName in h1 ==> h1[x.headerName] == h2[x.headerName]
    ensures x.ExtractHeader(h1) == x.ExtractHeader(h2)
  {
  }

  /** A header holding the bytes of a visible-ASCII text is read back as that text. */
  lemma ExtractHeaderRoundTrip(x: DefaultHeaderExtractor, headers: HeaderMap, text: string)
    requires IsHeaderText(text)
    requires x.headerName in headers && headers[x.headerName] == AsciiBytes(text)
    ensures x.ExtractHeader(headers) == Ok(text)
  {
    ToStrAsciiBytes(text);
  }

  /** `ErrorMap`: a header extractor whose errors pass through `mapErr`. */
  datatype ErrorMap<!E, F> = ErrorMap(inner: HeaderSource<E>, mapErr: E -> F) {

    /** `extract_header`: the inner lookup, errors rewritten. */
    function ExtractHeader(headers: HeaderMap): (r: Result<string, F>)
      ensures inner.extractHeader(headers).Ok? ==> r == Ok(inner.extractHeader(headers).value)
      ensures inner.extractHeader(headers).Err? ==> r == Err(mapErr(inner.extractHeader(headers).error))
    {
      inner.extractHeader(headers).MapErr(mapErr)
    }

    /** `header_name`: the inner extractor's name. */
    function HeaderName(): (n: string)
      ensures n == inner.name
    {
      inner.name
    }

    /** This extractor as a generic header source. */
    function AsSource(): (s: HeaderSource<F>)
      ensures s.name == HeaderName()
      ensures forall headers :: s.extractHeader(headers) == ExtractHeader(headers)
    {
      HeaderSource(inner.name, headers => ExtractHeader(headers))
    }
  }
}
