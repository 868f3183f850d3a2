/**
 * The `MapError` fetcher combinator of
 * `src/authorize/authorizers/jwt/jwk_set/fetch/jwk_set_fetcher.rs`.
 */
module JwkFetch {
  import opened Wrappers
  import opened Extract
  import opened Jwks

  /**
   * `JwkSetFetcher::fetch_jwk_set`: the answer depends on the state `W` of
   * the outside world (the key server and the network) when it is asked.
   */
  type Fetcher<!W, E> = W -> Result<JwkSet, E>

  /** `MapError`: a fetcher whose error passes through `mapErr`. */
  datatype MapErrorFetcher<!W(!new), !E, F> = MapErrorFetcher(inner: Fetcher<W, E>, mapErr: E -> F) {

    /** `fetch_jwk_set`: ask the inner fetcher once, rewrite its error. */
    function FetchJwkSet(world: W): (r: Result<JwkSet, F>)
      ensures inner(world).Ok? ==> r == Ok(inner(world).value)
      ensures inner(world).Err? ==> r == Err(mapErr(inner(world).error))
    {
      inner(world).MapErr(mapErr)
    }

    /** The same fetch with its log: the inner fetcher is asked exactly once. */
    function FetchJwkSetRun(world: W): (r: Run<JwkSet, F>)
      ensures r.result == FetchJwkSet(world)
      ensures r.calls == [Applied(FetcherRole)]
    {
      Run(inner(world).MapErr(mapErr), [Applied(FetcherRole)])
    }

    /** This combinator as a fetcher in its own right. */
    function AsFetcher(): (f: Fetcher<W, F>)
      ensures forall world :: f(world) == FetchJwkSet(world)
    {
      world => FetchJwkSet(world)
    }
  }

  /** `JwkSetFetcherExt::map_err`: wraps the fetcher with the function. */
  function MapErr<W(!new), E, F>(fetcher: Fetcher<W, E>, f: E -> F): (r: MapErrorFetcher<W, E, F>)
    ensures forall world :: r.FetchJwkSet(world).Ok? <==> fetcher(world).Ok?
    ensures forall world | fetcher(world).Ok? :: r.FetchJwkSet(world).value == fetcher(world).value
    ensures forall world | fetcher(world).Err? :: r.FetchJwkSet(world).error == f(fetcher(world).error)
  {
    MapErrorFetcher(fetcher, f)
  }

  /** Mapping errors twice is mapping them once by the composition. */
  lemma MapErrFusion<W(!new), E, F, G>(fetcher: Fetcher<W, E>, f: E -> F, g: F -> G, world: W)
    ensures MapErrorFetcher(MapErr(fetcher, f).AsFetcher(), g).FetchJwkSet(world)
            == MapErr(fetcher, e => g(f(e))).FetchJwkSet(world)
  {
  }
}
