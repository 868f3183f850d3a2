/**
 * `RotatingJwkSetProvider` of
 * `src/authorize/authorizers/jwt/jwk_set/impls/rotating/rotating_jwk_set_provider.rs`:
 * a key-set cache that refetches lazily, on a read, once its time to live
 * has passed.
 *
 * The clock is a parameter: `now` is the current instant in whole seconds.
 * The fetcher's answer is a parameter too: `fetchOutcome` is what the
 * fetcher returns if it is asked during the call, and the methods report
 * whether it was asked.
 */
module RotatingProvider {
  import opened Wrappers
  import opened Jwks
  import opened JwtValidation

  /** `JwkSetHolder`: the key set and the instant it was fetched. */
  datatype JwkSetHolder = JwkSetHolder(lastUpdated: nat, jwkSet: JwkSet)

  /** `RotatingJwkSetProvideError`. */
  datatype RotatingJwkSetProvideError<E> = Fetch(cause: E)

  /**
   * `Instant::elapsed().as_secs()`: whole seconds since `since`; a clock
   * reading earlier than `since` counts as no time at all.
   */
  function ElapsedSeconds(since: nat, now: nat): (s: nat)
    ensures now >= since ==> since + s == now
    ensures now < since ==> s == 0
  {
    if now >= since then now - since else 0
  }

  /** The condition `get` tests: strictly more whole seconds than the time to live. */
  predicate NeedsRefresh(holder: JwkSetHolder, timeToLiveInSeconds: u64, now: nat): (b: bool)
    // a clock reading before the stamp never triggers a refresh
    ensures b <==> now > holder.lastUpdated + timeToLiveInSeconds
  {
    ElapsedSeconds(holder.lastUpdated, now) > timeToLiveInSeconds
  }

  /** What one `provide_jwk_set` does: the new holder, the answer, and whether the fetcher was asked. */
  datatype ProvideOutcome<E> = ProvideOutcome(holder: JwkSetHolder, result: Result<JwkSet, RotatingJwkSetProvideError<E>>, fetched: bool)

  /** `provide_jwk_set` as a function of the holder, the clock and the fetcher's answer. */
  function Provide<E>(holder: JwkSetHolder, timeToLiveInSeconds: u64, now: nat, fetchOutcome: Result<JwkSet, E>): (o: ProvideOutcome<E>)
    // the fetcher is asked exactly when the holder is past its time to live
    ensures o.fetched <==> NeedsRefresh(holder, timeToLiveInSeconds, now)
    // within the time to live nothing changes and the stored set is served
    ensures !o.fetched ==> o.holder == holder && o.result == Ok(holder.jwkSet)
    // a successful refresh replaces the set and stamps it with the current time
    ensures o.fetched && fetchOutcome.Ok? ==>
              o.holder == JwkSetHolder(now, fetchOutcome.value) && o.result == Ok(fetchOutcome.value)
    // a failed refresh leaves the holder as it was and reports the failure
    ensures o.fetched && fetchOutcome.Err? ==>
              o.holder == holder && o.result == Err(Fetch(fetchOutcome.error))
    // whatever is served is what the holder now stores
    ensures o.result.Ok? ==> o.result.value == o.holder.jwkSet
  {
    if NeedsRefresh(holder, timeToLiveInSeconds, now) then
      match fetchOutcome
      case Ok(jwkSet) => ProvideOutcome(JwkSetHolder(now, jwkSet), Ok(jwkSet), true)
      case Err(e) => ProvideOutcome(holder, Err(Fetch(e)), true)
    else
      ProvideOutcome(holder, Ok(holder.jwkSet), false)
  }

  /**
   * With a clock that has not gone back, a refresh happens exactly when more
   * than the time to live has passed: elapsed time equal to it does not refresh.
   */
  lemma RefreshThreshold(holder: JwkSetHolder, timeToLiveInSeconds: u64, now: nat)
    requires now >= holder.lastUpdated
    ensures NeedsRefresh(holder, timeToLiveInSeconds, now) <==> now > holder.lastUpdated + timeToLiveInSeconds
    ensures !NeedsRefresh(holder, timeToLiveInSeconds, holder.lastUpdated + timeToLiveInSeconds)
  {
  }

  /** A served key set was fetched at most the time to live ago. */
  lemma StalenessBound<E>(holder: JwkSetHolder, timeToLiveInSeconds: u64, now: nat, fetchOutcome: Result<JwkSet, E>)
    ensures var o := Provide(holder, timeToLiveInSeconds, now, fetchOutcome);
            o.result.Ok? ==> ElapsedSeconds(o.holder.lastUpdated, now) <= timeToLiveInSeconds
  {
  }

  /** After a failed refresh, every later read asks the fetcher again. */
  lemma FailedRefreshRetries<E>(holder: JwkSetHolder, timeToLiveInSeconds: u64, now: nat, e: E, later: nat, nextOutcome: Result<JwkSet, E>)
    requires NeedsRefresh(holder, timeToLiveInSeconds, now)
    requires later >= now
    ensures var o := Provide(holder, timeToLiveInSeconds, now, Err(e));
            o.result == Err(Fetch(e)) && Provide(o.holder, timeToLiveInSeconds, later, nextOutcome).fetched
  {
  }

  /**
   * The lazy rotation scenario: a read within the time to live serves the
   * original set untouched; the first read past it performs one refresh;
   * reads within the new time to live serve the refreshed set without
   * asking the fetcher.
   */
  lemma LazyRotation<E>(a: JwkSet, b: JwkSet, t0: nat, timeToLiveInSeconds: u64, t1: nat, t2: nat, t3: nat, outcome1: Result<JwkSet, E>, outcome3: Result<JwkSet, E>)
    requires t0 <= t1 <= t0 + timeToLiveInSeconds
    requires t2 > t0 + timeToLiveInSeconds
    requires t2 <= t3 <= t2 + timeToLiveInSeconds
    ensures var h0 := JwkSetHolder(t0, a);
            var r1 := Provide(h0, timeToLiveInSeconds, t1, outcome1);
            var r2 := Provide<E>(r1.holder, timeToLiveInSeconds, t2, Ok(b));
            var r3 := Provide(r2.holder, timeToLiveInSeconds, t3, outcome3);
            && !r1.fetched && r1.result == Ok(a) && r1.holder == h0
            && r2.fetched && r2.result == Ok(b)
            && !r3.fetched && r3.result == Ok(b)
  {
  }

  /** The provider: a fixed time to live and the holder it updates in place. */
  class RotatingJwkSetProvider<E> {
    const timeToLiveInSeconds: u64
    var lastUpdated: nat
    var jwkSet: JwkSet

    /** The holder as a value. */
    function Holder(): JwkSetHolder
      reads this
    {
      JwkSetHolder(lastUpdated, jwkSet)
    }

    constructor (timeToLiveInSeconds: u64, lastUpdated: nat, jwkSet: JwkSet)
      ensures this.timeToLiveInSeconds == timeToLiveInSeconds
      ensures Holder() == JwkSetHolder(lastUpdated, jwkSet)
    {
      this.timeToLiveInSeconds := timeToLiveInSeconds;
      this.lastUpdated := lastUpdated;
      this.jwkSet := jwkSet;
    }

    /** `new`: fetch once; a failure creates no provider. */
    static method New(timeToLiveInSeconds: u64, now: nat, fetchOutcome: Result<JwkSet, E>)
      returns (r: Result<RotatingJwkSetProvider<E>, RotatingJwkSetProvideError<E>>)
      ensures fetchOutcome.Err? ==> r == Err(Fetch(fetchOutcome.error))
      ensures fetchOutcome.Ok? ==>
                && r.Ok? && fresh(r.value)
                && r.value.timeToLiveInSeconds == timeToLiveInSeconds
                && r.value.Holder() == JwkSetHolder(now, fetchOutcome.value)
    {
      match fetchOutcome
      case Err(e) =>
        return Err(Fetch(e));
      case Ok(jwkSet) =>
        var provider := new RotatingJwkSetProvider(timeToLiveInSeconds, now, jwkSet);
        return Ok(provider);
    }

    /** `refresh_jwk_set`: fetch; on success replace the set and stamp it, on failure change nothing. */
    method RefreshJwkSet(now: nat, fetchOutcome: Result<JwkSet, E>) returns (r: Result<(), RotatingJwkSetProvideError<E>>)
      modifies this
      ensures fetchOutcome.Ok? ==> r == Ok(()) && Holder() == JwkSetHolder(now, fetchOutcome.value)
      ensures fetchOutcome.Err? ==> r == Err(Fetch(fetchOutcome.error)) && Holder() == old(Holder())
    {
      match fetchOutcome
      case Err(e) =>
        return Err(Fetch(e));
      case Ok(fetched) =>
        jwkSet := fetched;
        lastUpdated := now;
        return Ok(());
    }

    /** `get`: refresh first when the holder is past its time to live. */
    method Get(now: nat, fetchOutcome: Result<JwkSet, E>) returns (r: Result<(), RotatingJwkSetProvideError<E>>, fetched: bool)
      modifies this
      ensures var o := Provide(old(Holder()), timeToLiveInSeconds, now, fetchOutcome);
              && Holder() == o.holder
              && fetched == o.fetched
              && (r.Ok? <==> o.result.Ok?)
              && (r.Err? ==> o.result == Err(r.error))
    {
      var elapsed := ElapsedSeconds(lastUpdated, now);
      fetched := false;
      if elapsed > timeToLiveInSeconds {
        fetched := true;
        r := RefreshJwkSet(now, fetchOutcome);
        if r.Err? {
          return;
        }
      }
      r := Ok(());
    }

    /** `provide_jwk_set`: `get`, then a read of the stored set. */
    method ProvideJwkSet(now: nat, fetchOutcome: Result<JwkSet, E>) returns (r: Result<JwkSet, RotatingJwkSetProvideError<E>>, fetched: bool)
      modifies this
      ensures ProvideOutcome(Holder(), r, fetched) == Provide(old(Holder()), timeToLiveInSeconds, now, fetchOutcome)
    {
      var got;
      got, fetched := Get(now, fetchOutcome);
      match got
      case Err(e) =>
        r := Err(e);
      case Ok(_) =>
        r := Ok(jwkSet);
    }
  }
}
