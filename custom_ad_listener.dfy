/**
 * `CustomAdListener` (data/source/ads/CustomAdListener.kt): each SDK callback forwards
 * exactly one event to the view-model and does nothing else.
 */
module Listener {
  import opened GoogleAds
  import opened AdEvents
  import opened ViewModel

  class CustomAdListener {
    const viewModel: AdsViewModel

    constructor (viewModel: AdsViewModel)
      ensures this.viewModel == viewModel
    {
      this.viewModel := viewModel;
    }

    /** The listener's effect, common to every callback: `event` is appended, nothing else changes. */
    twostate predicate Forwarded(event: AdEvent)
      reads viewModel
    {
      && viewModel.events == old(viewModel.events) + [event]
      && viewModel.state == old(viewModel.state)
      && viewModel.networkCallback == old(viewModel.networkCallback)
      && viewModel.pending == old(viewModel.pending)
      && viewModel.factoryCalls == old(viewModel.factoryCalls)
      && viewModel.connectivity == old(viewModel.connectivity)
    }

    method OnAdLoaded()
      requires viewModel.Valid()
      modifies viewModel
      ensures viewModel.Valid() && Forwarded(AdEvent.Loaded)
    {
      viewModel.OnAdEvent(AdEvent.Loaded);
    }

    method OnAdFailedToLoad(adError: LoadAdError)
      requires viewModel.Valid()
      modifies viewModel
      ensures viewModel.Valid() && Forwarded(FailedToLoad(adError))
    {
      viewModel.OnAdEvent(FailedToLoad(adError));
    }

    method OnAdOpened()
      requires viewModel.Valid()
      modifies viewModel
      ensures viewModel.Valid() && Forwarded(AdEvent.Opened)
    {
      viewModel.OnAdEvent(AdEvent.Opened);
    }

    method OnAdClicked()
      requires viewModel.Valid()
      modifies viewModel
      ensures viewModel.Valid() && Forwarded(AdEvent.Clicked)
    {
      viewModel.OnAdEvent(AdEvent.Clicked);
    }

    method OnAdClosed()
      requires viewModel.Valid()
      modifies viewModel
      ensures viewModel.Valid() && Forwarded(AdEvent.Closed)
    {
      viewModel.OnAdEvent(AdEvent.Closed);
    }

    method OnAdImpression()
      requires viewModel.Valid()
      modifies viewModel
      ensures viewModel.Valid() && Forwarded(AdEvent.Impression)
    {
      viewModel.OnAdEvent(AdEvent.Impression);
    }

    method OnAdSwipeGestureClicked()
      requires viewModel.Valid()
      modifies viewModel
      ensures viewModel.Valid() && Forwarded(SwipeGestureClicked)
    {
      viewModel.OnAdEvent(SwipeGestureClicked);
    }
  }
}
