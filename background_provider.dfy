/**
 * `BackgroundRotatingJwkSetProvider` of
 * `src/authorize/authorizers/jwt/jwk_set/impls/rotating/background_rotating_jwk_set_provider.rs`:
 * a key-set cache refreshed by a periodic task, which remembers the last
 * refresh failure and reports it to readers until a refresh succeeds.
 *
 * The clock and the fetcher's answers are parameters, as in
 * `RotatingProvider`. The refresh task is a loop over a sequence of events:
 * a timer tick (with the time and the fetcher's answer at that tick) or
 * the cancellation signal.
 */
module BackgroundProvider {
  import opened Wrappers
  import opened Jwks
  import opened JwtValidation

  /** `BackgroundRotatingJwkSetProvideError`. */
  datatype BackgroundRotatingJwkSetProvideError<E> = Fetch(cause: E)

  /** `JwkSetHolder`: the last refresh time, the last refresh failure, the last fetched set. */
  datatype JwkSetHolder<E> = JwkSetHolder(lastUpdated: nat, lastError: Option<BackgroundRotatingJwkSetProvideError<E>>, jwkSet: JwkSet)

  /** The holder after `refresh_jwk_set_inner`, and what that call returns. */
  datatype RefreshOutcome<E> = RefreshOutcome(holder: JwkSetHolder<E>, result: Result<JwkSet, BackgroundRotatingJwkSetProvideError<E>>)

  /** `refresh_jwk_set_inner` as a function of the holder, the clock and the fetcher's answer. */
  function Refresh<E>(holder: JwkSetHolder<E>, now: nat, fetchOutcome: Result<JwkSet, E>): (o: RefreshOutcome<E>)
    // every refresh stamps the holder with the current time
    ensures o.holder.lastUpdated == now
    // success: the whole holder is replaced, the error cleared, the new set returned
    ensures fetchOutcome.Ok? ==>
              o.holder == JwkSetHolder(now, None, fetchOutcome.value) && o.result == Ok(fetchOutcome.value)
    // failure: the set is kept, the failure is remembered and returned
    ensures fetchOutcome.Err? ==>
              && o.holder.jwkSet == holder.jwkSet
              && o.holder.lastError == Some(Fetch(fetchOutcome.error))
              && o.result == Err(Fetch(fetchOutcome.error))
  {
    match fetchOutcome
    case Ok(jwkSet) => RefreshOutcome(JwkSetHolder(now, None, jwkSet), Ok(jwkSet))
    case Err(e) => RefreshOutcome(holder.(lastUpdated := now, lastError := Some(Fetch(e))), Err(Fetch(e)))
  }

  /** `provide_jwk_set` as a function of the holder: the remembered failure first, else the set. */
  function Served<E>(holder: JwkSetHolder<E>): (r: Result<JwkSet, BackgroundRotatingJwkSetProvideError<E>>)
    ensures r.Err? <==> holder.lastError.Some?
    ensures r.Err? ==> r.error == holder.lastError.value
    ensures r.Ok? ==> r.value == holder.jwkSet
  {
    match holder.lastError
    case Some(e) => Err(e)
    case None => Ok(holder.jwkSet)
  }

  /** An event the refresh task can observe. */
  datatype LoopEvent<E> = Tick(now: nat, fetchOutcome: Result<JwkSet, E>) | Cancel

  /** `background_refresh_loop` as a function: one refresh per tick, nothing from cancellation on. */
  function Replay<E>(holder: JwkSetHolder<E>, events: seq<LoopEvent<E>>): (r: JwkSetHolder<E>)
    // no tick before the first cancellation: the holder is untouched
    ensures ActiveTicks(events) == 0 ==> r == holder
    // otherwise the holder carries the stamp of the last tick before cancellation
    ensures ActiveTicks(events) > 0 ==> r.lastUpdated == events[ActiveTicks(events) - 1].now
    decreases |events|
  {
    if |events| == 0 then holder
    else
      match events[0]
      case Cancel => holder
      case Tick(now, fetchOutcome) => Replay(Refresh(holder, now, fetchOutcome).holder, events[1..])
  }

  /** The number of ticks before the first cancellation: the refreshes the background task performs. */
  function ActiveTicks<E>(events: seq<LoopEvent<E>>): (n: nat)
    ensures n <= |events|
    ensures n == |events| <==> forall i | 0 <= i < |events| :: events[i].Tick?
    ensures forall i | 0 <= i < n :: events[i].Tick?
    ensures n < |events| ==> events[n].Cancel?
    decreases |events|
  {
    if |events| == 0 then 0
    else if events[0].Cancel? then 0
    else
      var n := ActiveTicks(events[1..]);
      assert forall i | 1 <= i < |events| :: events[i] == events[1..][i - 1];
      1 + n
  }

  /** Nothing after the cancellation signal has any effect. */
  lemma {:induction false} CancelStops<E>(holder: JwkSetHolder<E>, before: seq<LoopEvent<E>>, after: seq<LoopEvent<E>>)
    ensures Replay(holder, before + [Cancel] + after) == Replay(holder, before)
    decreases |before|
  {
    var events := before + [Cancel] + after;
    if |before| == 0 {
      assert events[0] == Cancel;
    } else {
      assert events[0] == before[0];
      assert events[1..] == before[1..] + [Cancel] + after;
      match before[0]
      case Cancel =>
      case Tick(now, fetchOutcome) =>
        CancelStops(Refresh(holder, now, fetchOutcome).holder, before[1..], after);
    }
  }

  /** A tick after a run of ticks is one more refresh of the state that run left. */
  lemma {:induction false} ReplayTick<E>(holder: JwkSetHolder<E>, ticks: seq<LoopEvent<E>>, now: nat, fetchOutcome: Result<JwkSet, E>)
    requires forall i | 0 <= i < |ticks| :: ticks[i].Tick?
    ensures Replay(holder, ticks + [Tick(now, fetchOutcome)]) == Refresh(Replay(holder, ticks), now, fetchOutcome).holder
    decreases |ticks|
  {
    var events := ticks + [Tick(now, fetchOutcome)];
    if |ticks| == 0 {
      assert events == [Tick(now, fetchOutcome)];
    } else {
      assert events[0] == ticks[0];
      assert events[1..] == ticks[1..] + [Tick(now, fetchOutcome)];
      ReplayTick(Refresh(holder, ticks[0].now, ticks[0].fetchOutcome).holder, ticks[1..], now, fetchOutcome);
    }
  }

  /** The ticks are all failures. */
  predicate AllFailed<E>(events: seq<LoopEvent<E>>)
  {
    forall i | 0 <= i < |events| :: events[i].Tick? && events[i].fetchOutcome.Err?
  }

  /**
   * Failures never displace a fetched set: after a successful tick followed
   * only by failed ticks, the stored set is the one that tick fetched, and a
   * reader gets the failure of the last tick when there was one.
   */
  lemma {:induction false} LastSuccessKept<E>(holder: JwkSetHolder<E>, before: seq<LoopEvent<E>>, now: nat, jwkSet: JwkSet, failures: seq<LoopEvent<E>>)
    requires forall i | 0 <= i < |before| :: before[i].Tick?
    requires AllFailed(failures)
    ensures var final := Replay(holder, before + [Tick(now, Ok(jwkSet))] + failures);
            && final.jwkSet == jwkSet
            && (|failures| == 0 ==> Served(final) == Ok(jwkSet))
            && (|failures| > 0 ==> Served(final) == Err(Fetch(failures[|failures| - 1].fetchOutcome.error)))
    decreases |failures|
  {
    var succeeded := before + [Tick(now, Ok(jwkSet))];
    assert forall i | 0 <= i < |succeeded| :: succeeded[i].Tick?;
    if |failures| == 0 {
      assert succeeded + failures == succeeded;
      ReplayTick(holder, before, now, Ok(jwkSet));
    } else {
      var last := failures[|failures| - 1];
      var init := failures[..|failures| - 1];
      assert succeeded + failures == (succeeded + init) + [last];
      assert forall i | 0 <= i < |init| :: init[i] == failures[i];
      LastSuccessKept(holder, before, now, jwkSet, init);
      assert forall i | 0 <= i < |succeeded + init| :: (succeeded + init)[i].Tick?;
      ReplayTick(holder, succeeded + init, last.now, last.fetchOutcome);
    }
  }

  /** A successful tick clears any remembered failure, so readers are served again. */
  lemma SuccessClearsError<E>(holder: JwkSetHolder<E>, ticks: seq<LoopEvent<E>>, now: nat, jwkSet: JwkSet)
    requires forall i | 0 <= i < |ticks| :: ticks[i].Tick?
    ensures Served(Replay(holder, ticks + [Tick(now, Ok(jwkSet))])) == Ok(jwkSet)
  {
    ReplayTick(holder, ticks, now, Ok(jwkSet));
  }

  /**
   * The background rotation scenario: the set fetched at construction is
   * served; after a tick that fetches another set, that set is served; after
   * a failing tick the failure is served, not the previous set; a later
   * success serves again.
   */
  lemma BackgroundRotation<E>(a: JwkSet, b: JwkSet, c: JwkSet, t0: nat, t1: nat, t2: nat, t3: nat, e: E)
    ensures var h0: JwkSetHolder<E> := JwkSetHolder(t0, None, a);
            var h1 := Replay(h0, [Tick(t1, Ok(b))]);
            var h2 := Replay(h0, [Tick(t1, Ok(b)), Tick(t2, Err(e))]);
            var h3 := Replay(h0, [Tick(t1, Ok(b)), Tick(t2, Err(e)), Tick(t3, Ok(c))]);
            && Served(h0) == Ok(a)
            && Served(h1) == Ok(b)
            && Served(h2) == Err(Fetch(e)) && h2.jwkSet == b
            && Served(h3) == Ok(c)
  {
    var h0: JwkSetHolder<E> := JwkSetHolder(t0, None, a);
    var s1 := Refresh(h0, t1, Ok(b)).holder;
    var s2 := Refresh(s1, t2, Err(e)).holder;
    var s3 := Refresh(s2, t3, Ok(c)).holder;
    var ticks: seq<LoopEvent<E>> := [Tick(t1, Ok(b)), Tick(t2, Err(e)), Tick(t3, Ok(c))];
    assert ticks[1..] == [Tick(t2, Err(e)), Tick(t3, Ok(c))];
    assert ticks[1..][1..] == [Tick(t3, Ok(c))];
    assert Replay(s2, ticks[1..][1..]) == s3;
    assert Replay(s1, ticks[1..]) == s3;
    var two: seq<LoopEvent<E>> := [Tick(t1, Ok(b)), Tick(t2, Err(e))];
    assert two[1..] == [Tick(t2, Err(e))];
    assert Replay(s1, two[1..]) == s2;
  }

  /** The provider: the refresh interval, and the holder the background task and readers share. */
  class BackgroundRotatingJwkSetProvider<E> {
    const refreshIntervalInSeconds: u64
    var lastUpdated: nat
    var lastError: Option<BackgroundRotatingJwkSetProvideError<E>>
    var jwkSet: JwkSet

    /** The holder as a value. */
    function Holder(): JwkSetHolder<E>
      reads this
    {
      JwkSetHolder(lastUpdated, lastError, jwkSet)
    }

    constructor (refreshIntervalInSeconds: u64, lastUpdated: nat, jwkSet: JwkSet)
      ensures this.refreshIntervalInSeconds == refreshIntervalInSeconds
      ensures Holder() == JwkSetHolder(lastUpdated, None, jwkSet)
    {
      this.refreshIntervalInSeconds := refreshIntervalInSeconds;
      this.lastUpdated := lastUpdated;
      this.lastError := None;
      this.jwkSet := jwkSet;
    }

    /** `new`: fetch once; a failure creates no provider and starts no task. */
    static method New(refreshIntervalInSeconds: u64, now: nat, fetchOutcome: Result<JwkSet, E>)
      returns (r: Result<BackgroundRotatingJwkSetProvider<E>, BackgroundRotatingJwkSetProvideError<E>>)
      ensures fetchOutcome.Err? ==> r == Err(Fetch(fetchOutcome.error))
      ensures fetchOutcome.Ok? ==>
                && r.Ok? && fresh(r.value)
                && r.value.refreshIntervalInSeconds == refreshIntervalInSeconds
                && r.value.Holder() == JwkSetHolder(now, None, fetchOutcome.value)
    {
      match fetchOutcome
      case Err(e) =>
        return Err(Fetch(e));
      case Ok(jwkSet) =>
        var provider := new BackgroundRotatingJwkSetProvider(refreshIntervalInSeconds, now, jwkSet);
        return Ok(provider);
    }

    /** `refresh_jwk_set_inner`: replace the holder on success, record the failure otherwise. */
    method RefreshJwkSetInner(now: nat, fetchOutcome: Result<JwkSet, E>) returns (r: Result<JwkSet, BackgroundRotatingJwkSetProvideError<E>>)
      modifies this
      ensures RefreshOutcome(Holder(), r) == Refresh(old(Holder()), now, fetchOutcome)
    {
      match fetchOutcome
      case Ok(fetched) =>
        lastUpdated, lastError, jwkSet := now, None, fetched;
        r := Ok(jwkSet);
      case Err(e) =>
        lastUpdated := now;
        lastError := Some(Fetch(e));
        r := Err(Fetch(e));
    }

    /** `refresh_jwk_set`: the manual refresh, the same step as the background task's. */
    method RefreshJwkSet(now: nat, fetchOutcome: Result<JwkSet, E>) returns (r: Result<JwkSet, BackgroundRotatingJwkSetProvideError<E>>)
      modifies this
      ensures RefreshOutcome(Holder(), r) == Refresh(old(Holder()), now, fetchOutcome)
    {
      r := RefreshJwkSetInner(now, fetchOutcome);
    }

    /** `provide_jwk_set`: read-only; the remembered failure first, else the stored set. */
    method ProvideJwkSet() returns (r: Result<JwkSet, BackgroundRotatingJwkSetProvideError<E>>)
      ensures r == Served(Holder())
    {
      if lastError.Some? {
        return Err(lastError.value);
      }
      return Ok(jwkSet);
    }

    /** `background_refresh_loop`: refresh on each tick until cancelled. */
    method BackgroundRefreshLoop(events: seq<LoopEvent<E>>) returns (refreshes: nat)
      modifies this
      ensures Holder() == Replay(old(Holder()), events)
      ensures refreshes == ActiveTicks(events)
    {
      refreshes := 0;
      var i := 0;
      while i < |events|
        invariant 0 <= i <= |events|
        invariant Replay(Holder(), events[i..]) == Replay(old(Holder()), events)
        invariant refreshes + ActiveTicks(events[i..]) == ActiveTicks(events)
        decreases |events| - i
      {
        assert events[i..][1..] == events[i + 1..];
        match events[i]
        case Cancel =>
          return;
        case Tick(now, fetchOutcome) =>
          var _ := RefreshJwkSetInner(now, fetchOutcome);
          refreshes := refreshes + 1;
        i := i + 1;
      }
    }
  }
}
