/**
 * The ad-loading state machine of `AdsViewModel` (ui/viewmodel/AdsViewModel.kt) as
 * transitions on a snapshot of its state. The class `ViewModel.AdsViewModel` performs
 * these transitions in place; AdLoadProperties states what they guarantee.
 */
module AdLoadMachine {
  import opened Wrappers
  import opened GoogleAds
  import opened AppException
  import opened Status
  import opened AdEvents
  import opened AdRequestFactory
  import opened NetworkUtils

  /**
   * Everything the view-model owns or drives:
   * - `state`: the value of `_adRequestState`;
   * - `networkCallback`: the field of that name (the last handle registration returned);
   * - `pending`: load coroutines launched by `loadBannerAd` and not yet run, oldest first,
   *   each with the data it was launched with;
   * - `events`: the events emitted on `_adEvents`, in order;
   * - `factoryCalls`: the arguments the request factory has been called with, in order;
   * - `connectivity`: the connectivity service's registrations, each capturing the
   *   request data its `onReconnect` reloads with.
   */
  datatype Machine = Machine(
    state: Status<AdRequest>,
    networkCallback: Option<Handle>,
    pending: seq<Option<AdRequestData>>,
    events: seq<AdEvent>,
    factoryCalls: seq<Option<AdRequestData>>,
    connectivity: Registry<Option<AdRequestData>>)

  /**
   * The machine's invariant: the registry is consistent, and a recorded callback was handed
   * out by the service (it need not still be live: a fired callback stays recorded).
   */
  ghost predicate Inv(m: Machine)
  {
    && m.connectivity.Valid()
    && (m.networkCallback.Some? ==> m.networkCallback.value < m.connectivity.next && m.connectivity.available)
  }

  /** A freshly constructed view-model: `Loading`, no callback, nothing launched or emitted. */
  function Initial(serviceAvailable: bool): (m: Machine)
    ensures Inv(m)
    ensures m.state == Loading && m.networkCallback == None
    ensures m.pending == [] && m.events == [] && m.factoryCalls == []
    ensures m.connectivity.live == map[] && m.connectivity.available == serviceAvailable
  {
    Machine(Loading, None, [], [], [], Connectivity(serviceAvailable))
  }

  /** The error classification of `handleAdError`: network and internal errors are network-class. */
  predicate IsNetworkError(code: int)
  {
    code == ERROR_CODE_NETWORK_ERROR || code == ERROR_CODE_INTERNAL_ERROR
  }

  /** `loadBannerAd`, synchronous part: the state becomes `Loading` and a load coroutine is launched. */
  function LoadBannerAd(m: Machine, data: Option<AdRequestData>): Machine
  {
    m.(state := Loading, pending := m.pending + [data])
  }

  /** The status a load coroutine writes: the request the factory returned, or the exception it threw. */
  function LoadOutcome(r: Result<AdRequest, Throwable>): Status<AdRequest>
  {
    match r
    case Ok(request) => Success(request)
    case Err(e) => Error(e)
  }

  /**
   * The oldest launched load coroutine runs: it calls the factory once with its data and
   * writes the outcome. The exception is caught, never propagated. With nothing launched,
   * nothing happens.
   */
  function CompleteLoad(m: Machine, factory: Factory): Machine
  {
    if m.pending == [] then m
    else
      var data := m.pending[0];
      m.(state := LoadOutcome(factory(data)), pending := m.pending[1..], factoryCalls := m.factoryCalls + [data])
  }

  /** `onAdEvent`: the event is emitted on the event stream. */
  function OnAdEvent(m: Machine, event: AdEvent): Machine
  {
    m.(events := m.events + [event])
  }

  /**
   * `handleAdError`: a network-class code sets `Error(NetworkException)` and stores whatever
   * `retryWhenNetworkAvailable` returns in `networkCallback` (without unregistering the
   * previous one); any other code sets `Error(UnknownException)` and touches nothing else.
   */
  function HandleAdError(m: Machine, error: LoadAdError, data: Option<AdRequestData>): Machine
  {
    if IsNetworkError(error.code) then
      var reg := Register(m.connectivity, data);
      m.(state := Error(NetworkException), networkCallback := reg.handle, connectivity := reg.registry)
    else
      m.(state := Error(UnknownException))
  }

  /**
   * `cancelNetworkCallback`: when a callback is recorded, it is unregistered (if there is a
   * connectivity service) and the field is cleared; when none is recorded, nothing happens.
   */
  function CancelNetworkCallback(m: Machine): Machine
  {
    match m.networkCallback
    case None => m
    case Some(h) =>
      m.(connectivity := if m.connectivity.available then Unregister(m.connectivity, h) else m.connectivity,
         networkCallback := None)
  }

  /** `onCleared`. */
  function OnCleared(m: Machine): Machine
  {
    CancelNetworkCallback(m)
  }

  /**
   * The network became available and the service calls `onAvailable` on a live callback:
   * it unregisters itself, then runs its `onReconnect`, which is `loadBannerAd` with the
   * data captured at registration. `networkCallback` is left as it is. A handle that is
   * not live is never called.
   */
  function OnNetworkAvailable(m: Machine, h: Handle): Machine
  {
    if h !in m.connectivity.live then m
    else LoadBannerAd(m.(connectivity := Unregister(m.connectivity, h)), m.connectivity.live[h])
  }

  /** One thing that can happen to a view-model. */
  datatype Step =
    | Load(data: Option<AdRequestData>)
    | RunLoad
    | Emit(event: AdEvent)
    | Fail(error: LoadAdError, data: Option<AdRequestData>)
    | Cancel
    | Clear
    | Reconnect(handle: Handle)

  function Apply(m: Machine, s: Step, factory: Factory): Machine
  {
    match s
    case Load(data) => LoadBannerAd(m, data)
    case RunLoad => CompleteLoad(m, factory)
    case Emit(event) => OnAdEvent(m, event)
    case Fail(error, data) => HandleAdError(m, error, data)
    case Cancel => CancelNetworkCallback(m)
    case Clear => OnCleared(m)
    case Reconnect(h) => OnNetworkAvailable(m, h)
  }

  /** The machine after a run of steps, in order. */
  function Run(m: Machine, steps: seq<Step>, factory: Factory): Machine
    decreases |steps|
  {
    if steps == [] then m else Run(Apply(m, steps[0], factory), steps[1..], factory)
  }
}
