/**
 * The small part of the Google Mobile Ads SDK surface the application touches:
 * the request value and its builder, the load error with its code, the error-code
 * constants, and the banner size. The SDK's own code is not part of this model.
 */
module GoogleAds {

  /** An ad request, seen through the only thing the application puts into it: its keywords, in order. */
  datatype AdRequest = AdRequest(keywords: seq<string>)

  /** `AdRequest.Builder`: collects keywords and builds a request from them. */
  class AdRequestBuilder {
    var keywords: seq<string>

    constructor ()
      ensures keywords == []
    {
      keywords := [];
    }

    method AddKeyword(keyword: string)
      modifies this
      ensures keywords == old(keywords) + [keyword]
    {
      keywords := keywords + [keyword];
    }

    function Build(): (r: AdRequest)
      reads this
      ensures r.keywords == keywords
    {
      AdRequest(keywords)
    }
  }

  /** `LoadAdError`: why a banner failed to load. */
  datatype LoadAdError = LoadAdError(code: int, message: string)

  /**
   * The vendor's error codes. The values are those of the SDK's `AdRequest` constants;
   * the model only relies on the three being distinct (see CodesDistinct).
   */
  const ERROR_CODE_INTERNAL_ERROR: int := 0
  const ERROR_CODE_NETWORK_ERROR: int := 2
  const ERROR_CODE_NO_FILL: int := 3

  lemma CodesDistinct()
    ensures ERROR_CODE_INTERNAL_ERROR != ERROR_CODE_NETWORK_ERROR
    ensures ERROR_CODE_INTERNAL_ERROR != ERROR_CODE_NO_FILL
    ensures ERROR_CODE_NETWORK_ERROR != ERROR_CODE_NO_FILL
  {
  }

  /** `AdSize`, with its dimensions as integers (the SDK reports 0 or less when a size is not fixed). */
  datatype AdSize = AdSize(width: int, height: int)
}
