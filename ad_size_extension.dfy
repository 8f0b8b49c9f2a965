/** The banner height rule (ui/view/extension/AdSizeExtension.kt, with ui/theme/Dimens.kt). */
module AdSizeExtension {
  import opened GoogleAds

  /** `Dimens.BannerHeight`, in dp. */
  const BannerHeight: int := 50

  /** `AdSize.getHeightInDp`: the size's own height when it is positive, the default banner height otherwise. */
  function HeightInDp(size: AdSize): (h: int)
    ensures size.height > 0 ==> h == size.height
    ensures size.height <= 0 ==> h == BannerHeight
    ensures h > 0
  {
    if size.height > 0 then size.height else BannerHeight
  }

  /** The width plays no part. */
  lemma HeightInDpDependsOnlyOnHeight(a: AdSize, b: AdSize)
    requires a.height == b.height
    ensures HeightInDp(a) == HeightInDp(b)
  {
  }

  /** The rule is a retraction onto the positive heights: applying it to its own result changes nothing. */
  lemma HeightInDpIdempotent(size: AdSize)
    ensures HeightInDp(size.(height := HeightInDp(size))) == HeightInDp(size)
  {
  }
}
