/** `AdsViewModel` (ui/viewmodel/AdsViewModel.kt): the ad-loading state holder, updated in place. */
module ViewModel {
  import opened Wrappers
  import opened GoogleAds
  import opened AppException
  import opened Status
  import opened AdEvents
  import opened AdRequestFactory
  import opened NetworkUtils
  import Spec = AdLoadMachine

  class AdsViewModel {
    /** The injected `AdRequestFactory`. */
    const factory: Factory
    /** `_adRequestState.value`. */
    var state: Status<AdRequest>
    /** `networkCallback`. */
    var networkCallback: Option<Handle>
    /** Load coroutines launched on the view-model scope and not yet run, oldest first. */
    var pending: seq<Option<AdRequestData>>
    /** Events emitted on `_adEvents`. */
    var events: seq<AdEvent>
    /** Arguments the factory has been called with: a record for the proofs, not a field of the source. */
    ghost var factoryCalls: seq<Option<AdRequestData>>
    /** The application's connectivity service and its registrations. */
    var connectivity: Registry<Option<AdRequestData>>

    /** The current state as a machine snapshot. */
    ghost function Model(): Spec.Machine
      reads this
    {
      Spec.Machine(state, networkCallback, pending, events, factoryCalls, connectivity)
    }

    ghost predicate Valid()
      reads this
    {
      Spec.Inv(Model())
    }

    /** Construction: the state starts as `Loading` with no callback recorded. */
    constructor (factory: Factory, serviceAvailable: bool)
      ensures Valid()
      ensures this.factory == factory
      ensures Model() == Spec.Initial(serviceAvailable)
    {
      this.factory := factory;
      state := Loading;
      networkCallback := None;
      pending := [];
      events := [];
      factoryCalls := [];
      connectivity := Connectivity(serviceAvailable);
    }

    /** `loadBannerAd`, up to the launch of its coroutine. */
    method LoadBannerAd(data: Option<AdRequestData>)
      requires Valid()
      modifies this
      ensures Valid()
      ensures Model() == Spec.LoadBannerAd(old(Model()), data)
      ensures state == Loading && pending == old(pending) + [data]
    {
      state := Loading;
      pending := pending + [data];
    }

    /** The dispatcher runs the oldest launched load coroutine, if there is one. */
    method RunPendingLoad() returns (ran: bool)
      requires Valid()
      modifies this
      ensures Valid()
      ensures ran == (old(pending) != [])
      ensures Model() == Spec.CompleteLoad(old(Model()), factory)
    {
      ran := pending != [];
      if ran {
        var data := pending[0];
        pending := pending[1..];
        factoryCalls := factoryCalls + [data];
        match factory(data)
        case Ok(request) =>
          state := Success(request);
        case Err(e) =>
          state := Error(e);
      }
    }

    /** `onAdEvent`. */
    method OnAdEvent(event: AdEvent)
      requires Valid()
      modifies this
      ensures Valid()
      ensures Model() == Spec.OnAdEvent(old(Model()), event)
      ensures events == old(events) + [event]
    {
      events := events + [event];
    }

    /** `handleAdError`. */
    method HandleAdError(error: LoadAdError, data: Option<AdRequestData>)
      requires Valid()
      modifies this
      ensures Valid()
      ensures Model() == Spec.HandleAdError(old(Model()), error, data)
      ensures state == Error(if Spec.IsNetworkError(error.code) then NetworkException else UnknownException)
    {
      if error.code == ERROR_CODE_NETWORK_ERROR || error.code == ERROR_CODE_INTERNAL_ERROR {
        state := Error(NetworkException);
        var registration := Register(connectivity, data);
        if connectivity.available {
          RegisterFresh(connectivity, data);
        }
        connectivity := registration.registry;
        networkCallback := registration.handle;
      } else {
        state := Error(UnknownException);
      }
    }

    /** `cancelNetworkCallback`. */
    method CancelNetworkCallback()
      requires Valid()
      modifies this
      ensures Valid()
      ensures Model() == Spec.CancelNetworkCallback(old(Model()))
      ensures networkCallback == None
    {
      if networkCallback.Some? {
        if connectivity.available {
          UnregisterRemoves(connectivity, networkCallback.value);
          connectivity := Unregister(connectivity, networkCallback.value);
        }
        networkCallback := None;
      }
    }

    /** `onCleared`. */
    method OnCleared()
      requires Valid()
      modifies this
      ensures Valid()
      ensures Model() == Spec.OnCleared(old(Model()))
      ensures networkCallback == None
    {
      CancelNetworkCallback();
    }

    /**
     * The connectivity service calls `onAvailable` on callback `h`: a live callback
     * unregisters itself and then reloads with the data it captured.
     */
    method OnNetworkAvailable(h: Handle)
      requires Valid()
      modifies this
      ensures Valid()
      ensures Model() == Spec.OnNetworkAvailable(old(Model()), h)
    {
      if h in connectivity.live {
        var onReconnect := connectivity.live[h];
        UnregisterRemoves(connectivity, h);
        connectivity := Unregister(connectivity, h);
        LoadBannerAd(onReconnect);
      }
    }
  }
}
