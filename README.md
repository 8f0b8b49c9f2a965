# AdMob banner: the ad-loading state machine

A model of the core of an Android demo app that shows one AdMob banner. The core is
`AdsViewModel`. It holds a three-way load status (`Loading`, `Success(request)`,
`Error(exception)`). It builds ad requests through an injected factory. It classifies
vendor load errors. After a network-class error it registers a one-shot connectivity
callback that reloads when the network returns. Around it sit three small pieces: the
default request factory (keywords folded into a fresh builder), the listener that turns
each SDK callback into one `AdEvent`, and the banner-height fallback.

Structure, one module per source file or component:

- `wrappers.dfy`, `status.dfy`, `app_exception.dfy`: `Option`/`Result`, `Status`, and the exceptions a status can carry.
- `google_ads.dfy`: the vendor surface the app touches. This is `AdRequest` (its keywords) and its builder, `LoadAdError`, the error-code constants and `AdSize`.
- `ad_request_factory.dfy`: `AdRequestData`, the factory type, and `AdRequestFactoryImpl.create` as a method with its loop.
- `ad_event.dfy`: `AdEvent` and its `AdEventType` tag.
- `ad_size_extension.dfy`: `getHeightInDp`.
- `network_utils.dfy`: the contract of `retryWhenNetworkAvailable`, as a registry of live callback handles.
- `ad_load_machine.dfy`: the view-model's transitions as functions on a state snapshot `Machine`.
- `ad_load_properties.dfy`: what the transitions guarantee.
- `ads_view_model.dfy`: the view-model as a class whose methods update its fields in place. Each method ensures `Model() == <transition>(old(Model()))`, so every property of the transitions holds of the class.
- `custom_ad_listener.dfy`: the listener as a class forwarding to the view-model.
- `ads_view_model_scenarios.dfy`: clients of the class that restate the unit-test scenarios as postconditions.

Asynchrony is made explicit. `loadBannerAd` is split in two steps. The synchronous step
sets `Loading` and launches a coroutine, which is recorded in `pending`. The scheduler
step (`RunPendingLoad` / `CompleteLoad`) runs the oldest launched coroutine. That step
calls the factory once and writes the outcome. The connectivity service delivering
`onAvailable` to a live callback is the step `OnNetworkAvailable`.

Behaviour of the code that the model makes explicit:

- A factory failure ends in `Error(e)` carrying the thrown exception itself, as the KDoc at AdsViewModel.kt lines 65-66 says and lines 76-77 do.
- The comments at AdsViewModel.kt lines 49 and 127 say the callback is unregistered to prevent leaks. Yet line 114 overwrites `networkCallback` without unregistering the previous callback, so after a second network-class failure both stay registered and only the second can ever be cancelled. `RepeatedNetworkFailureLeaks` states this.
- A fired callback unregisters itself (NetworkUtils.kt line 31) but stays in `networkCallback` until `cancelNetworkCallback` clears it (`RetryReloadsCapturedData`). It can never fire again (`DeadStaysDead`).
- The listener builds `data.model.AdEvent` values, while `onAdEvent` takes `utils.AdEvent`. These are two sealed classes with the same seven variants, and one datatype stands for both.

The vendor constants use the SDK's values: `ERROR_CODE_INTERNAL_ERROR` is 0, `ERROR_CODE_NETWORK_ERROR` is 2 and `ERROR_CODE_NO_FILL` is 3. The proofs use only the fact that the three are distinct. The availability of a connectivity service is a constructor parameter. The request factory is a parameter: a function that returns a request or throws. The class's `factoryCalls` is a ghost record of the factory's arguments, kept only to state how often and with what the factory is called; the source has no such field.

## Model

| member | source | states |
|---|---|---|
| GoogleAds.AdRequestBuilder.constructor | app/src/main/java/com/erikbalthazar/admobbanner/data/source/ads/AdRequestFactoryImpl.kt:15 | a new builder holds no keywords |
| GoogleAds.AdRequestBuilder.AddKeyword | app/src/main/java/com/erikbalthazar/admobbanner/data/source/ads/AdRequestFactoryImpl.kt:17 | adding a keyword appends it to the builder's keywords |
| GoogleAds.AdRequestBuilder.Build | app/src/main/java/com/erikbalthazar/admobbanner/data/source/ads/AdRequestFactoryImpl.kt:19 | the built request carries exactly the builder's keywords |
| GoogleAds.CodesDistinct | app/src/main/java/com/erikbalthazar/admobbanner/ui/viewmodel/AdsViewModel.kt:111-112 | the internal-error, network-error and no-fill codes are distinct |
| AdRequestFactory.DefaultFactory | app/src/main/java/com/erikbalthazar/admobbanner/data/source/ads/AdRequestFactoryImpl.kt:14-20 | the default factory never throws and returns the request built from the data's keywords |
| AdRequestFactory.Create | app/src/main/java/com/erikbalthazar/admobbanner/data/source/ads/AdRequestFactoryImpl.kt:14-20 | folding the keywords one by one into a fresh builder yields a request with exactly the data's keywords, all of them and in order, or none when data or list is null; the result is a function of the input alone, so nothing carries over between calls |
| AdRequestFactory.NoKeywordsWithoutList | app/src/main/java/com/erikbalthazar/admobbanner/data/source/ads/AdRequestFactoryImpl.kt:16 | null data, a null keyword list and an empty list all give a request with no keywords |
| AdRequestFactory.KeywordsVerbatim | app/src/main/java/com/erikbalthazar/admobbanner/data/source/ads/AdRequestFactoryImpl.kt:16-18 | every keyword, empty or with special characters, appears once at its own position, so nothing is filtered or reordered |
| AdEvents.TypeTable | app/src/main/java/com/erikbalthazar/admobbanner/data/model/AdEvent.kt:11-18 | the tag of each of the seven variants, e.g. FailedToLoad is Failed and SwipeGestureClicked is Swipe |
| AdEvents.TypeDeterminesVariant | app/src/main/java/com/erikbalthazar/admobbanner/data/model/AdEvent.kt:12-18 | two events have the same tag exactly when both are FailedToLoad or they are the same payload-free event, so the tag is injective on variants and only FailedToLoad carries data |
| AdEvents.Tagged | app/src/main/java/com/erikbalthazar/admobbanner/data/model/AdEvent.kt:9-18 | for every tag value there is a variant carrying it (keeping a given payload for Failed) |
| AdEvents.TypeSurjective | app/src/main/java/com/erikbalthazar/admobbanner/data/model/AdEvent.kt:9 | every AdEventType value is the tag of some event |
| AdSizeExtension.HeightInDp | app/src/main/java/com/erikbalthazar/admobbanner/ui/view/extension/AdSizeExtension.kt:11-13 | a positive height is returned unchanged; zero or less gives 50; the result is always positive |
| AdSizeExtension.HeightInDpDependsOnlyOnHeight | app/src/main/java/com/erikbalthazar/admobbanner/ui/view/extension/AdSizeExtension.kt:12 | sizes with equal heights get equal results, whatever their widths |
| AdSizeExtension.HeightInDpIdempotent | app/src/main/java/com/erikbalthazar/admobbanner/ui/view/extension/AdSizeExtension.kt:12 | applying the rule to its own result changes nothing |
| NetworkUtils.Connectivity | app/src/main/java/com/erikbalthazar/admobbanner/utils/NetworkUtils.kt:26-27 | a connectivity service starts with nothing registered and is consistent |
| NetworkUtils.RegisterFresh | app/src/main/java/com/erikbalthazar/admobbanner/utils/NetworkUtils.kt:29-41 | with a service, registering returns the next unused handle, which was not live, binds it to exactly the given onReconnect and advances the counter so it is never issued again |
| NetworkUtils.RegisterWithoutService | app/src/main/java/com/erikbalthazar/admobbanner/utils/NetworkUtils.kt:26-27 | without a service, registering returns null and registers nothing |
| NetworkUtils.UnregisterRemoves | app/src/main/java/com/erikbalthazar/admobbanner/utils/NetworkUtils.kt:31 | unregistering removes exactly that handle and keeps the rest |
| NetworkUtils.UnregisterIdempotent | app/src/main/java/com/erikbalthazar/admobbanner/utils/NetworkUtils.kt:31 | unregistering twice equals once; unregistering a dead handle is a no-op |
| AdLoadMachine.Initial | app/src/main/java/com/erikbalthazar/admobbanner/ui/viewmodel/AdsViewModel.kt:38-44 | construction: Loading, no callback, nothing launched, emitted or registered |
| AdLoadProperties.NetworkErrorCodes | app/src/main/java/com/erikbalthazar/admobbanner/ui/viewmodel/AdsViewModel.kt:111-112 | a code is network-class exactly when it is NETWORK_ERROR or INTERNAL_ERROR; NO_FILL is not |
| AdLoadProperties.LoadStartsLoading | app/src/main/java/com/erikbalthazar/admobbanner/ui/viewmodel/AdsViewModel.kt:70-72 | right after loadBannerAd, before the factory runs, the state is Loading and one load with that data is launched; callback, registrations and events are unchanged |
| AdLoadProperties.CompleteLoadOutcome | app/src/main/java/com/erikbalthazar/admobbanner/ui/viewmodel/AdsViewModel.kt:72-78 | a launched load calls the factory exactly once with its own data and ends in Success with the returned request or Error with exactly the thrown exception; nothing escapes |
| AdLoadProperties.CompleteLoadIdle | app/src/main/java/com/erikbalthazar/admobbanner/ui/viewmodel/AdsViewModel.kt:72-79 | with no launched load, the scheduler step changes nothing |
| AdLoadProperties.LoadWithDefaultFactory | app/src/main/java/com/erikbalthazar/admobbanner/ui/viewmodel/AdsViewModel.kt:70-79 | with the default factory a load ends in Success with the data's keywords, after a single factory call with that data |
| AdLoadProperties.SecondLoadWins | app/src/main/java/com/erikbalthazar/admobbanner/ui/viewmodel/AdsViewModel.kt:70-79 | after two loads, sequential or overlapping, the factory saw both data in order and the state is the second outcome |
| AdLoadProperties.OverlappingFirstOutcomeShowsFirst | app/src/main/java/com/erikbalthazar/admobbanner/ui/viewmodel/AdsViewModel.kt:70-79 | when two loads are launched before either runs, the first to run writes its own outcome, so until the second runs the state is not Loading |
| AdLoadProperties.NetworkFailureArmsRetry | app/src/main/java/com/erikbalthazar/admobbanner/ui/viewmodel/AdsViewModel.kt:111-119 | a network-class code sets Error(NetworkException) and stores the registration's handle: fresh and bound to the data when a service exists, null otherwise |
| AdLoadProperties.OtherFailureIsTerminal | app/src/main/java/com/erikbalthazar/admobbanner/ui/viewmodel/AdsViewModel.kt:120-122 | any other code sets Error(UnknownException), registers nothing and leaves networkCallback unchanged |
| AdLoadProperties.FiringUnregistersThenReloads | app/src/main/java/com/erikbalthazar/admobbanner/ui/viewmodel/AdsViewModel.kt:116-118 | a fired callback is first unregistered, then loadBannerAd runs with the data captured at registration; networkCallback is left as it was |
| AdLoadProperties.DeadHandleNeverFires | app/src/main/java/com/erikbalthazar/admobbanner/utils/NetworkUtils.kt:29-34 | a handle that is not live never triggers a reload |
| AdLoadProperties.RetryReloadsCapturedData | app/src/main/java/com/erikbalthazar/admobbanner/ui/viewmodel/AdsViewModel.kt:113-119 | network failure, reconnect and load end in Success with the captured data's keywords, passing through Loading, with the spent handle still in networkCallback |
| AdLoadProperties.RepeatedNetworkFailureLeaks | app/src/main/java/com/erikbalthazar/admobbanner/ui/viewmodel/AdsViewModel.kt:114 | a second network failure replaces networkCallback without unregistering the first handle; a later cancel releases only the second |
| AdLoadProperties.CancelIsIdempotent | app/src/main/java/com/erikbalthazar/admobbanner/ui/viewmodel/AdsViewModel.kt:129-136 | cancel always leaves networkCallback null and unregisters exactly the recorded handle; with none recorded it is a no-op; cancelling twice equals once; onCleared is cancel |
| AdLoadProperties.EventOnlyAppends | app/src/main/java/com/erikbalthazar/admobbanner/ui/viewmodel/AdsViewModel.kt:90-94 | onAdEvent appends the event and changes nothing else |
| AdLoadProperties.ApplyKeepsInv | app/src/main/java/com/erikbalthazar/admobbanner/ui/viewmodel/AdsViewModel.kt:44 | every transition keeps the registry consistent and the recorded callback among the handles issued |
| AdLoadProperties.RunKeepsInv | app/src/main/java/com/erikbalthazar/admobbanner/ui/viewmodel/AdsViewModel.kt:33-137 | every run of transitions from a valid state keeps the invariant |
| AdLoadProperties.ApplyKeepsHandlesIssued | app/src/main/java/com/erikbalthazar/admobbanner/utils/NetworkUtils.kt:29-41 | no transition lowers the next handle, and a handle that becomes live is a newly issued one |
| AdLoadProperties.DeadStaysDead | app/src/main/java/com/erikbalthazar/admobbanner/utils/NetworkUtils.kt:12-14 | a callback fires at most once: an issued handle that is no longer live, such as the stale one in networkCallback, never becomes live again after any run of steps |
| AdLoadProperties.RunEventsGrow | app/src/main/java/com/erikbalthazar/admobbanner/ui/viewmodel/AdsViewModel.kt:90-94 | across any run, the event stream is only ever extended |
| AdLoadProperties.OnlyNetworkFailuresRegister | app/src/main/java/com/erikbalthazar/admobbanner/ui/viewmodel/AdsViewModel.kt:111-122 | a run without a network-class failure registers no callback |
| ViewModel.AdsViewModel.constructor | app/src/main/java/com/erikbalthazar/admobbanner/ui/viewmodel/AdsViewModel.kt:33-44 | the view-model starts Loading with no callback and the injected factory |
| ViewModel.AdsViewModel.LoadBannerAd | app/src/main/java/com/erikbalthazar/admobbanner/ui/viewmodel/AdsViewModel.kt:70-72 | sets Loading and launches one load with the data |
| ViewModel.AdsViewModel.RunPendingLoad | app/src/main/java/com/erikbalthazar/admobbanner/ui/viewmodel/AdsViewModel.kt:72-79 | runs the oldest launched load, writing the factory's request or its exception |
| ViewModel.AdsViewModel.OnAdEvent | app/src/main/java/com/erikbalthazar/admobbanner/ui/viewmodel/AdsViewModel.kt:90-94 | appends the event to the event stream |
| ViewModel.AdsViewModel.HandleAdError | app/src/main/java/com/erikbalthazar/admobbanner/ui/viewmodel/AdsViewModel.kt:107-123 | sets Error(NetworkException) or Error(UnknownException) by code and, for network-class codes, stores the new registration |
| ViewModel.AdsViewModel.CancelNetworkCallback | app/src/main/java/com/erikbalthazar/admobbanner/ui/viewmodel/AdsViewModel.kt:129-136 | unregisters the recorded callback if any and clears the field |
| ViewModel.AdsViewModel.OnCleared | app/src/main/java/com/erikbalthazar/admobbanner/ui/viewmodel/AdsViewModel.kt:51-54 | performs cancelNetworkCallback |
| ViewModel.AdsViewModel.OnNetworkAvailable | app/src/main/java/com/erikbalthazar/admobbanner/utils/NetworkUtils.kt:30-33 | a live callback unregisters itself and reloads with its captured data |
| Listener.CustomAdListener.constructor | app/src/main/java/com/erikbalthazar/admobbanner/data/source/ads/CustomAdListener.kt:17-19 | the listener forwards to the given view-model |
| Listener.CustomAdListener.OnAdLoaded | app/src/main/java/com/erikbalthazar/admobbanner/data/source/ads/CustomAdListener.kt:21-24 | forwards exactly one Loaded event and changes nothing else |
| Listener.CustomAdListener.OnAdFailedToLoad | app/src/main/java/com/erikbalthazar/admobbanner/data/source/ads/CustomAdListener.kt:26-29 | forwards exactly one FailedToLoad event with the same error |
| Listener.CustomAdListener.OnAdOpened | app/src/main/java/com/erikbalthazar/admobbanner/data/source/ads/CustomAdListener.kt:31-34 | forwards exactly one Opened event |
| Listener.CustomAdListener.OnAdClicked | app/src/main/java/com/erikbalthazar/admobbanner/data/source/ads/CustomAdListener.kt:36-39 | forwards exactly one Clicked event |
| Listener.CustomAdListener.OnAdClosed | app/src/main/java/com/erikbalthazar/admobbanner/data/source/ads/CustomAdListener.kt:41-44 | forwards exactly one Closed event |
| Listener.CustomAdListener.OnAdImpression | app/src/main/java/com/erikbalthazar/admobbanner/data/source/ads/CustomAdListener.kt:46-49 | forwards exactly one Impression event |
| Listener.CustomAdListener.OnAdSwipeGestureClicked | app/src/main/java/com/erikbalthazar/admobbanner/data/source/ads/CustomAdListener.kt:51-54 | forwards exactly one SwipeGestureClicked event |
| ViewModelScenarios.LoadingUntilTheLoadRuns | app/src/test/java/com/erikbalthazar/admobbanner/ui/viewmodel/AdsViewModelTest.kt:164-176 | Loading at construction and right after loadBannerAd(null); the test stops there, and the scenario then runs the load with the default factory instead of a mock, giving Success with no keywords |
| ViewModelScenarios.FactoryThrows | app/src/test/java/com/erikbalthazar/admobbanner/ui/viewmodel/AdsViewModelTest.kt:134-149 | a throwing factory leaves Error carrying exactly its exception |
| ViewModelScenarios.NoFillArmsNothing | app/src/test/java/com/erikbalthazar/admobbanner/ui/viewmodel/AdsViewModelTest.kt:293-308 | NO_FILL gives Error(UnknownException) with no callback recorded or registered |
| ViewModelScenarios.NetworkErrorThenReconnect | app/src/test/java/com/erikbalthazar/admobbanner/ui/viewmodel/AdsViewModelTest.kt:331-358 | INTERNAL_ERROR with keywords [""] gives Error(NetworkException), then Loading, then Success with keywords [""]; unlike the test, which invokes the captured onReconnect directly, the retry goes through the modelled watcher, which unregisters it first, and the stale handle remains until cancel clears it |

## Left out

- Coroutine, StateFlow and SharedFlow scheduling: dispatchers, cancellation and threads are replaced by explicit steps. Launched loads run oldest first, as on the main dispatcher. `onAdEvent`'s emit is an append to the emitted-event sequence. With `replay = 0`, an event goes only to collectors present at that moment; the model does not track collectors.
- Clearing the view-model also cancels its coroutine scope. Loads launched but not yet run then never write a result, and later launches do nothing. The model's `OnCleared` only cancels the network callback: `pending` is kept, so a later `RunPendingLoad` still writes `Success` or `Error`.
- The thread on which the connectivity service calls `onAvailable` is not modelled. The model treats the resulting reload as one more step on the view-model.
- `NetworkRequest` and its internet capability are not modelled. The platform deciding when a network is "available" is left to the environment, which may fire any live handle.
- `CancelNetworkCallback` after a callback has already fired unregisters a spent handle. The model treats that as a no-op, following the watcher's contract. The Android platform's real behaviour there, which may throw, is not part of this model.
- Only `Exception`s are caught at AdsViewModel.kt line 76. A non-`Exception` `Throwable` from the factory would escape. The model's factory failures are all exceptions.
- `Status.Error` has a nullable `throwable` (utils/Status.kt). The core never stores null there, so the model's error always carries one.
- What the vendor `AdRequest.Builder` does internally with keywords, such as deduplication, is not visible. The builder here keeps them all, in order.
- `Dp` is a float unit; heights are integers.
- The vendor error-code values come from the SDK, which is not part of this model. Nothing depends on them beyond their being distinct.
- The `super.onAdXxx()` calls in the listener go to the SDK base class, which is not part of this model.
- User interface (AdScreen.kt, BannerAdView.kt), analytics, crash reporting, logging, dependency injection and build configuration are out of scope. They are composables, foreign sinks and wiring. The screen's part in the flow is not modelled: it loads with null data, reports `FailedToLoad` with null data and cancels on disposal.
