/** What the ad-loading transitions of AdLoadMachine guarantee, one call and several calls at a time. */
module AdLoadProperties {
  import opened Wrappers
  import opened GoogleAds
  import opened AppException
  import opened Status
  import opened AdEvents
  import opened AdRequestFactory
  import opened NetworkUtils
  import opened AdLoadMachine

  /** The loads asked for so far: those whose factory call has happened, then those still launched. */
  function Requested(m: Machine): seq<Option<AdRequestData>>
  {
    m.factoryCalls + m.pending
  }

  /** Only two vendor codes are network-class; NO_FILL is not. */
  lemma NetworkErrorCodes(code: int)
    ensures IsNetworkError(ERROR_CODE_NETWORK_ERROR) && IsNetworkError(ERROR_CODE_INTERNAL_ERROR)
    ensures !IsNetworkError(ERROR_CODE_NO_FILL)
    ensures IsNetworkError(code) <==> code == ERROR_CODE_NETWORK_ERROR || code == ERROR_CODE_INTERNAL_ERROR
  {
  }

  /** Right after `loadBannerAd`, before the factory runs, the state is `Loading`; only the launch is added. */
  lemma LoadStartsLoading(m: Machine, data: Option<AdRequestData>)
    ensures var m' := LoadBannerAd(m, data);
      && m'.state == Loading
      && m'.pending == m.pending + [data]
      && Requested(m') == Requested(m) + [data]
      && m'.networkCallback == m.networkCallback
      && m'.connectivity == m.connectivity
      && m'.events == m.events
  {
  }

  /**
   * A load coroutine calls the factory exactly once, with the data it was launched with, and
   * ends in `Success` with the returned request or in `Error` with exactly the exception thrown.
   */
  lemma CompleteLoadOutcome(m: Machine, factory: Factory)
    requires m.pending != []
    ensures var m' := CompleteLoad(m, factory);
      && m'.factoryCalls == m.factoryCalls + [m.pending[0]]
      && m'.pending == m.pending[1..]
      && Requested(m') == Requested(m)
      && (factory(m.pending[0]).Ok? ==> m'.state == Success(factory(m.pending[0]).value))
      && (factory(m.pending[0]).Err? ==> m'.state == Error(factory(m.pending[0]).error))
      && m'.networkCallback == m.networkCallback
      && m'.connectivity == m.connectivity
      && m'.events == m.events
  {
  }

  /** With nothing launched, running a load changes nothing. */
  lemma CompleteLoadIdle(m: Machine, factory: Factory)
    requires m.pending == []
    ensures CompleteLoad(m, factory) == m
  {
  }

  /** A load from an idle view-model ends in `Success(create(data))` with the default factory. */
  lemma LoadWithDefaultFactory(m: Machine, data: Option<AdRequestData>)
    requires m.pending == []
    ensures var m' := CompleteLoad(LoadBannerAd(m, data), DefaultFactory);
      && m'.state == Success(AdRequest(Keywords(data)))
      && m'.factoryCalls == m.factoryCalls + [data]
      && m'.pending == []
  {
  }

  /**
   * Two loads in a row: whether each completes before the next starts or both are launched
   * first, the factory is called with the first data and then the second, and the state
   * is what the second call produced.
   */
  lemma SecondLoadWins(m: Machine, d1: Option<AdRequestData>, d2: Option<AdRequestData>, factory: Factory)
    requires m.pending == []
    ensures var sequential := CompleteLoad(LoadBannerAd(CompleteLoad(LoadBannerAd(m, d1), factory), d2), factory);
      && sequential.state == LoadOutcome(factory(d2))
      && sequential.factoryCalls == m.factoryCalls + [d1, d2]
      && sequential.pending == []
    ensures var overlapping := CompleteLoad(CompleteLoad(LoadBannerAd(LoadBannerAd(m, d1), d2), factory), factory);
      && overlapping.state == LoadOutcome(factory(d2))
      && overlapping.factoryCalls == m.factoryCalls + [d1, d2]
      && overlapping.pending == []
  {
    var m1 := LoadBannerAd(LoadBannerAd(m, d1), d2);
    assert m1.pending == [d1, d2];
    assert CompleteLoad(m1, factory).pending == [d2];
  }

  /**
   * On the overlapping path the first load's outcome is written after `loadBannerAd(d2)`:
   * until the second load runs, the state shows the first outcome, not `Loading`.
   */
  lemma OverlappingFirstOutcomeShowsFirst(m: Machine, d1: Option<AdRequestData>, d2: Option<AdRequestData>, factory: Factory)
    requires m.pending == []
    ensures var between := CompleteLoad(LoadBannerAd(LoadBannerAd(m, d1), d2), factory);
      && between.state == LoadOutcome(factory(d1))
      && between.state != Loading
      && between.pending == [d2]
  {
    var m1 := LoadBannerAd(LoadBannerAd(m, d1), d2);
    assert m1.pending == [d1, d2];
  }

  /**
   * A network-class failure sets `Error(NetworkException)` and stores the handle registration
   * returned: a fresh handle capturing `data` when there is a connectivity service, null otherwise.
   * The load pipeline and the event stream are untouched.
   */
  lemma NetworkFailureArmsRetry(m: Machine, error: LoadAdError, data: Option<AdRequestData>)
    requires Inv(m)
    requires IsNetworkError(error.code)
    ensures var m' := HandleAdError(m, error, data);
      && Inv(m')
      && m'.state == Error(NetworkException)
      && m'.networkCallback == Register(m.connectivity, data).handle
      && (m.connectivity.available ==>
            && m'.networkCallback.Some?
            && m'.networkCallback.value !in m.connectivity.live
            && m'.connectivity.live == m.connectivity.live[m'.networkCallback.value := data])
      && (!m.connectivity.available ==> m'.networkCallback == None && m'.connectivity == m.connectivity)
      && m'.pending == m.pending && m'.factoryCalls == m.factoryCalls && m'.events == m.events
  {
    if m.connectivity.available {
      RegisterFresh(m.connectivity, data);
    }
  }

  /** Any other failure sets `Error(UnknownException)`, registers nothing and leaves `networkCallback` alone. */
  lemma OtherFailureIsTerminal(m: Machine, error: LoadAdError, data: Option<AdRequestData>)
    requires !IsNetworkError(error.code)
    ensures var m' := HandleAdError(m, error, data);
      && m'.state == Error(UnknownException)
      && m'.networkCallback == m.networkCallback
      && m'.connectivity == m.connectivity
      && m'.pending == m.pending && m'.factoryCalls == m.factoryCalls && m'.events == m.events
  {
  }

  /** Firing a live callback unregisters it first and then reloads with the data it captured. */
  lemma FiringUnregistersThenReloads(m: Machine, h: Handle)
    requires Inv(m)
    requires h in m.connectivity.live
    ensures var m' := OnNetworkAvailable(m, h);
      && Inv(m')
      && h !in m'.connectivity.live
      && m'.connectivity.live == m.connectivity.live - {h}
      && m'.state == Loading
      && m'.pending == m.pending + [m.connectivity.live[h]]
      && m'.networkCallback == m.networkCallback
      && m'.events == m.events && m'.factoryCalls == m.factoryCalls
      && m'.connectivity.available == m.connectivity.available
      && m'.connectivity.next == m.connectivity.next
  {
    UnregisterRemoves(m.connectivity, h);
  }

  /** A handle that is not live never fires. */
  lemma DeadHandleNeverFires(m: Machine, h: Handle)
    requires h !in m.connectivity.live
    ensures OnNetworkAvailable(m, h) == m
  {
  }

  /**
   * The retry round trip: after a network-class failure for `data`, the reconnect fires,
   * the state passes through `Loading`, and once the load runs it holds `create(data)`.
   * The spent handle stays in `networkCallback` although it is no longer registered.
   */
  lemma RetryReloadsCapturedData(m: Machine, error: LoadAdError, data: Option<AdRequestData>)
    requires Inv(m) && m.connectivity.available && m.pending == []
    requires IsNetworkError(error.code)
    ensures var armed := HandleAdError(m, error, data);
      && armed.networkCallback.Some?
      && var h := armed.networkCallback.value;
      && var fired := OnNetworkAvailable(armed, h);
      && fired.state == Loading
      && fired.networkCallback == Some(h)
      && h !in fired.connectivity.live
      && var done := CompleteLoad(fired, DefaultFactory);
      && done.state == Success(AdRequest(Keywords(data)))
      && done.factoryCalls == m.factoryCalls + [data]
  {
    NetworkFailureArmsRetry(m, error, data);
    var armed := HandleAdError(m, error, data);
    FiringUnregistersThenReloads(armed, armed.networkCallback.value);
  }

  /**
   * A second network-class failure replaces the recorded handle without unregistering the
   * first: both stay live, and cancelling afterwards releases only the second.
   */
  lemma RepeatedNetworkFailureLeaks(m: Machine, e1: LoadAdError, d1: Option<AdRequestData>,
                                    e2: LoadAdError, d2: Option<AdRequestData>)
    requires Inv(m) && m.connectivity.available
    requires IsNetworkError(e1.code) && IsNetworkError(e2.code)
    ensures var m1 := HandleAdError(m, e1, d1);
      && var m2 := HandleAdError(m1, e2, d2);
      && m1.networkCallback.Some? && m2.networkCallback.Some?
      && var h1, h2 := m1.networkCallback.value, m2.networkCallback.value;
      && h1 != h2
      && h1 in m2.connectivity.live && m2.connectivity.live[h1] == d1
      && h2 in m2.connectivity.live && m2.connectivity.live[h2] == d2
      && var m3 := CancelNetworkCallback(m2);
      && h1 in m3.connectivity.live && h2 !in m3.connectivity.live
      && m3.networkCallback == None
  {
    NetworkFailureArmsRetry(m, e1, d1);
    var m1 := HandleAdError(m, e1, d1);
    NetworkFailureArmsRetry(m1, e2, d2);
  }

  /**
   * `cancelNetworkCallback` always leaves the field null; with a recorded handle it releases
   * exactly that handle, with none it is a no-op; calling it twice is calling it once.
   * `onCleared` does the same.
   */
  lemma CancelIsIdempotent(m: Machine)
    requires Inv(m)
    ensures var m' := CancelNetworkCallback(m);
      && m'.networkCallback == None
      && Inv(m')
      && m'.state == m.state && m'.pending == m.pending && m'.events == m.events
      && m'.factoryCalls == m.factoryCalls
      && m'.connectivity.available == m.connectivity.available
      && m'.connectivity.next == m.connectivity.next
      && (m.networkCallback == None ==> m' == m)
      && (m.networkCallback.Some? ==>
            m'.connectivity.live == m.connectivity.live - {m.networkCallback.value})
      && CancelNetworkCallback(m') == m'
      && OnCleared(m) == m'
  {
    if m.networkCallback.Some? {
      UnregisterRemoves(m.connectivity, m.networkCallback.value);
    }
  }

  /** Emitting an event appends it to the stream and changes nothing else. */
  lemma EventOnlyAppends(m: Machine, event: AdEvent)
    ensures var m' := OnAdEvent(m, event);
      && m'.events == m.events + [event]
      && m'.state == m.state && m'.networkCallback == m.networkCallback
      && m'.pending == m.pending && m'.factoryCalls == m.factoryCalls && m'.connectivity == m.connectivity
  {
  }

  /** Every transition keeps the invariant. */
  lemma ApplyKeepsInv(m: Machine, s: Step, factory: Factory)
    requires Inv(m)
    ensures Inv(Apply(m, s, factory))
  {
    match s
    case Fail(error, data) =>
      if IsNetworkError(error.code) { NetworkFailureArmsRetry(m, error, data); }
    case Cancel => CancelIsIdempotent(m);
    case Clear => CancelIsIdempotent(m);
    case Reconnect(h) =>
      if h in m.connectivity.live { FiringUnregistersThenReloads(m, h); }
    case _ =>
  }

  /** Any run of steps keeps the invariant. */
  lemma {:induction false} RunKeepsInv(m: Machine, steps: seq<Step>, factory: Factory)
    requires Inv(m)
    ensures Inv(Run(m, steps, factory))
    decreases |steps|
  {
    if steps != [] {
      ApplyKeepsInv(m, steps[0], factory);
      RunKeepsInv(Apply(m, steps[0], factory), steps[1..], factory);
    }
  }

  /** Every transition only ever hands out new handles: `next` never decreases. */
  lemma ApplyKeepsHandlesIssued(m: Machine, s: Step, factory: Factory)
    ensures m.connectivity.next <= Apply(m, s, factory).connectivity.next
    ensures forall h | h in Apply(m, s, factory).connectivity.live && h !in m.connectivity.live ::
              h >= m.connectivity.next
  {
  }

  /**
   * A callback fires at most once: a handle that was issued and is no longer live (fired
   * or cancelled, like the stale one left in `networkCallback`) never becomes live again,
   * whatever happens next.
   */
  lemma {:induction false} DeadStaysDead(m: Machine, steps: seq<Step>, factory: Factory, h: Handle)
    requires Inv(m)
    requires h < m.connectivity.next && h !in m.connectivity.live
    ensures h !in Run(m, steps, factory).connectivity.live
    decreases |steps|
  {
    if steps != [] {
      var m' := Apply(m, steps[0], factory);
      ApplyKeepsInv(m, steps[0], factory);
      ApplyKeepsHandlesIssued(m, steps[0], factory);
      DeadStaysDead(m', steps[1..], factory, h);
    }
  }

  /** Events are only ever appended: whatever happens, the stream so far is a prefix of the later one. */
  lemma {:induction false} RunEventsGrow(m: Machine, steps: seq<Step>, factory: Factory)
    ensures m.events <= Run(m, steps, factory).events
    decreases |steps|
  {
    if steps != [] {
      var m' := Apply(m, steps[0], factory);
      assert m.events <= m'.events;
      RunEventsGrow(m', steps[1..], factory);
    }
  }

  /** A step is a network-class failure report. */
  predicate ArmsRetry(s: Step)
  {
    s.Fail? && IsNetworkError(s.error.code)
  }

  /**
   * Without a network-class failure, no callback is ever registered: the live handles
   * can only shrink.
   */
  lemma {:induction false} OnlyNetworkFailuresRegister(m: Machine, steps: seq<Step>, factory: Factory)
    requires forall i | 0 <= i < |steps| :: !ArmsRetry(steps[i])
    ensures Run(m, steps, factory).connectivity.live.Keys <= m.connectivity.live.Keys
    decreases |steps|
  {
    if steps != [] {
      var m' := Apply(m, steps[0], factory);
      assert m'.connectivity.live.Keys <= m.connectivity.live.Keys;
      OnlyNetworkFailuresRegister(m', steps[1..], factory);
    }
  }
}
