/**
 * Ad lifecycle events and their type tags (data/model/AdEvent.kt). The untagged copy
 * in utils/AdEvent.kt has the same seven variants and is represented by the same datatype.
 */
module AdEvents {
  import opened GoogleAds

  /** `AdEventType`. */
  datatype AdEventType = Loaded | Failed | Opened | Clicked | Closed | Impression | Swipe

  /** `AdEvent`: one variant per listener callback; only a failed load carries a payload. */
  datatype AdEvent =
    | Loaded
    | FailedToLoad(loadAdError: LoadAdError)
    | Opened
    | Closed
    | Clicked
    | Impression
    | SwipeGestureClicked

  /** The `type` tag each variant passes to the `AdEvent` constructor. */
  function Type(e: AdEvent): AdEventType
  {
    match e
    case Loaded => AdEventType.Loaded
    case FailedToLoad(_) => AdEventType.Failed
    case Opened => AdEventType.Opened
    case Closed => AdEventType.Closed
    case Clicked => AdEventType.Clicked
    case Impression => AdEventType.Impression
    case SwipeGestureClicked => AdEventType.Swipe
  }

  /** The tag table, variant by variant. */
  lemma TypeTable(error: LoadAdError)
    ensures Type(AdEvent.Loaded) == AdEventType.Loaded
    ensures Type(FailedToLoad(error)) == AdEventType.Failed
    ensures Type(AdEvent.Opened) == AdEventType.Opened
    ensures Type(AdEvent.Closed) == AdEventType.Closed
    ensures Type(AdEvent.Clicked) == AdEventType.Clicked
    ensures Type(AdEvent.Impression) == AdEventType.Impression
    ensures Type(SwipeGestureClicked) == AdEventType.Swipe
  {
  }

  /**
   * The tag determines the variant: two events with the same tag are both failed loads,
   * or they are the same payload-free event. So `FailedToLoad` is the only variant
   * that carries data.
   */
  lemma TypeDeterminesVariant(a: AdEvent, b: AdEvent)
    ensures Type(a) == Type(b) <==> (a.FailedToLoad? && b.FailedToLoad?) || (!a.FailedToLoad? && a == b)
  {
  }

  /** A variant carrying each tag: every tag is used. */
  function Tagged(t: AdEventType, error: LoadAdError): (e: AdEvent)
    ensures Type(e) == t
    ensures e.FailedToLoad? ==> e.loadAdError == error
  {
    match t
    case Loaded => AdEvent.Loaded
    case Failed => FailedToLoad(error)
    case Opened => AdEvent.Opened
    case Clicked => AdEvent.Clicked
    case Closed => AdEvent.Closed
    case Impression => AdEvent.Impression
    case Swipe => SwipeGestureClicked
  }

  lemma TypeSurjective(t: AdEventType)
    ensures exists e :: Type(e) == t
  {
    var e := Tagged(t, LoadAdError(ERROR_CODE_NO_FILL, ""));
    assert Type(e) == t;
  }
}
