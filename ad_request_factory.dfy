/**
 * Building an ad request from optional targeting data
 * (data/source/ads/AdRequestFactory.kt and AdRequestFactoryImpl.kt).
 */
module AdRequestFactory {
  import opened Wrappers
  import opened GoogleAds
  import opened AppException

  /** `AdRequestData`: targeting keywords, where the list itself may be null. */
  datatype AdRequestData = AdRequestData(keywords: Option<seq<string>>)

  /**
   * The `AdRequestFactory` interface as the view-model sees it: given the (nullable)
   * targeting data, a factory either returns a request or throws.
   */
  type Factory = Option<AdRequestData> -> Result<AdRequest, Throwable>

  /** The keywords a request built from `data` must carry: all of them, in order, or none. */
  function Keywords(data: Option<AdRequestData>): seq<string>
  {
    match data
    case None => []
    case Some(AdRequestData(None)) => []
    case Some(AdRequestData(Some(ks))) => ks
  }

  /** What `AdRequestFactoryImpl.create` returns for `data`. */
  function Created(data: Option<AdRequestData>): AdRequest
  {
    AdRequest(Keywords(data))
  }

  /** `AdRequestFactoryImpl` as a factory: it never throws. */
  function DefaultFactory(data: Option<AdRequestData>): (r: Result<AdRequest, Throwable>)
    ensures r.Ok?
    ensures r.value == Created(data)
  {
    Ok(Created(data))
  }

  /**
   * `AdRequestFactoryImpl.create`: a fresh builder receives every keyword once, in
   * list order, and is then built.
   */
  method Create(data: Option<AdRequestData>) returns (request: AdRequest)
    ensures request == Created(data)
  {
    var builder := new AdRequestBuilder();
    if data.Some? && data.value.keywords.Some? {
      var keywords := data.value.keywords.value;
      var i := 0;
      while i < |keywords|
        invariant 0 <= i <= |keywords|
        invariant builder.keywords == keywords[..i]
      {
        builder.AddKeyword(keywords[i]);
        i := i + 1;
      }
    }
    request := builder.Build();
  }

  /** Absent data, data whose keyword list is null, and an empty list all give a request without keywords. */
  lemma NoKeywordsWithoutList(data: Option<AdRequestData>)
    requires data == None || data == Some(AdRequestData(None)) || data == Some(AdRequestData(Some([])))
    ensures Created(data).keywords == []
  {
  }

  /** Every keyword is passed through once, verbatim and in order: no filtering, no reordering. */
  lemma KeywordsVerbatim(ks: seq<string>, i: nat)
    requires i < |ks|
    ensures |Created(Some(AdRequestData(Some(ks)))).keywords| == |ks|
    ensures Created(Some(AdRequestData(Some(ks)))).keywords[i] == ks[i]
  {
  }
}
