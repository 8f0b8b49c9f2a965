/**
 * Clients of `ViewModel.AdsViewModel` that restate the scenarios of AdsViewModelTest.kt,
 * with the dispatcher's `advanceUntilIdle` written out as runs of pending loads.
 */
module ViewModelScenarios {
  import opened Wrappers
  import opened GoogleAds
  import opened AppException
  import opened Status
  import opened AdRequestFactory
  import opened NetworkUtils
  import opened ViewModel

  /**
   * A new view-model is `Loading`, and is `Loading` again right after `loadBannerAd`, before
   * the load runs; with the default factory the load then yields a request without keywords.
   */
  method LoadingUntilTheLoadRuns() returns (initial: Status<AdRequest>, started: Status<AdRequest>, finished: Status<AdRequest>)
    ensures initial == Loading && started == Loading
    ensures finished == Success(AdRequest([]))
  {
    var vm := new AdsViewModel(DefaultFactory, true);
    initial := vm.state;
    vm.LoadBannerAd(None);
    started := vm.state;
    var _ := vm.RunPendingLoad();
    finished := vm.state;
  }

  /** A factory that throws leaves exactly its exception in the state. */
  method FactoryThrows() returns (finished: Status<AdRequest>)
    ensures finished == Error(Thrown("error"))
  {
    var throwing: Factory := data => Err(Thrown("error"));
    var vm := new AdsViewModel(throwing, true);
    vm.LoadBannerAd(Some(AdRequestData(Some(["test"]))));
    var _ := vm.RunPendingLoad();
    finished := vm.state;
  }

  /** NO_FILL is reported as `UnknownException` and arms no retry. */
  method NoFillArmsNothing() returns (finished: Status<AdRequest>, callback: Option<Handle>, registered: set<Handle>)
    ensures finished == Error(UnknownException)
    ensures callback == None && registered == {}
  {
    var vm := new AdsViewModel(DefaultFactory, true);
    vm.HandleAdError(LoadAdError(ERROR_CODE_NO_FILL, ""), None);
    finished, callback, registered := vm.state, vm.networkCallback, vm.connectivity.live.Keys;
  }

  /**
   * An internal error for keywords [""] arms a retry; when the network comes back the
   * watcher unregisters the callback and reloads, the state goes through `Loading` to
   * `Success` with keywords [""], and the spent handle is still recorded until
   * `cancelNetworkCallback`.
   */
  method NetworkErrorThenReconnect()
    returns (failed: Status<AdRequest>, reloading: Status<AdRequest>, finished: Status<AdRequest>,
             staleCallback: Option<Handle>, afterCancel: Option<Handle>)
    ensures failed == Error(NetworkException)
    ensures reloading == Loading
    ensures finished == Success(AdRequest([""]))
    ensures staleCallback.Some?
    ensures afterCancel == None
  {
    var data := Some(AdRequestData(Some([""])));
    var vm := new AdsViewModel(DefaultFactory, true);
    vm.HandleAdError(LoadAdError(ERROR_CODE_INTERNAL_ERROR, "error"), data);
    failed := vm.state;
    var h := vm.networkCallback.value;
    vm.OnNetworkAvailable(h);
    reloading := vm.state;
    var _ := vm.RunPendingLoad();
    finished, staleCallback := vm.state, vm.networkCallback;
    vm.CancelNetworkCallback();
    afterCancel := vm.networkCallback;
  }
}
