/**
 * The older FastAPI application (main.py) without cache or queue: the Data
 * API request, the first-item selection, the provider lookup and the
 * download-link endpoint. Its mapping differs from YoutubeService's.
 */
module LegacyApi {
  import opened Wrappers
  import opened Json
  import opened Http
  import opened Provider

  const FETCH_FAILED := "Failed to fetch video data"

  /**
   * `get_video_data`: no handler at all. A non-200 status is raised as it is,
   * with no detail, so Starlette looks up its reason phrase.
   */
  function GetVideoData(api: ApiOutcome): (r: Outcome<Json>)
  {
    match api
    case Unreachable(ClientError) => Crashed(TransportFault)
    case Unreachable(OtherError(text)) => Crashed(BodyFault(text))
    case Responded(status, body) =>
      if status != 200 then
        match NewHttpException(status, None)
        case Ok(e) => Raised(e)
        case Err(f) => Crashed(f)
      else match body
        case Ok(j) => Returned(j)
        case Err(ClientError) => Crashed(TransportFault)
        case Err(OtherError(text)) => Crashed(BodyFault(text))
  }

  /** `res['items'][0]` once `res['items']` is known to be truthy. */
  function FirstOf(items: Json): (r: Outcome<Json>)
    requires Truthy(items)
  {
    match items
    case JArr(xs) => Returned(xs[0])
    case JStr(s) => Returned(JStr([s[0]]))
    case _ => Crashed(IndexFault)
  }

  /**
   * `get_data_from_youtube`: the first of the response's items, or 404 when
   * there are none. A response that is no object fails where Python's `in` or
   * the subscript would raise.
   */
  function GetDataFromYoutube(api: ApiOutcome): (r: Outcome<Json>)
  {
    match GetVideoData(api)
    case Raised(e) => Raised(e)
    case Crashed(f) => Crashed(f)
    case Returned(res) =>
      match Contains(res, "items")
      case Err(f) => Crashed(LookupFault(f))
      case Ok(false) => Raised(Error(NOT_FOUND, FETCH_FAILED))
      case Ok(true) =>
        match Subscript(res, "items")
        case Err(f) => Crashed(LookupFault(f))
        case Ok(items) => if !Truthy(items) then Raised(Error(NOT_FOUND, FETCH_FAILED)) else FirstOf(items)
  }

  /** The lookup main.py sends: mp4 streams only. */
  function Query(link: string): (q: StreamQuery) {
    StreamQuery(link, Some("mp4"))
  }

  /**
   * `get_stream`: every exception inside the `try`, the 404 it raises itself
   * included, becomes 400 carrying the exception's text unfiltered.
   */
  function GetStream(link: string, provider: StreamQuery -> StreamOutcome): (r: Outcome<Stream>)
  {
    match provider(Query(link))
    case Listed(Some(s)) => Returned(s)
    case Listed(None) => Raised(HttpError(BAD_REQUEST, StrOfHttp(Error(NOT_FOUND, FETCH_FAILED)), None))
    case VideoUnavailable(text) => Raised(Error(BAD_REQUEST, text))
    case ProviderFailure(text) => Raised(Error(BAD_REQUEST, text))
  }

  /** `get_metadata`: the watch link of the id, looked up, and the stream's url. */
  function GetMetadata(videoId: string, provider: StreamQuery -> StreamOutcome): (r: Outcome<string>)
  {
    match GetStream(WatchLink(videoId), provider)
    case Returned(s) => Returned(s.url)
    case Raised(e) => Raised(e)
    case Crashed(f) => Crashed(f)
  }

  /**
   * A non-200 status with a standard reason phrase reaches the client
   * unchanged, whatever the body; any other code makes the constructor raise
   * ValueError, which nothing catches.
   */
  lemma NonOkStatusPassesThrough(status: int, body: Result<Json, TransportError>)
    requires status != 200
    ensures HasReasonPhrase(status) ==>
              GetVideoData(Responded(status, body)) == Raised(HttpError(status, ReasonPhrase, None))
    ensures !HasReasonPhrase(status) ==> GetVideoData(Responded(status, body)) == Crashed(UnknownStatus(status))
    ensures GetVideoData(Responded(299, body)).Crashed? && GetVideoData(Responded(520, body)).Crashed?
    ensures GetVideoData(Responded(404, body)).Raised? && GetVideoData(Responded(418, body)).Raised?
  {
  }

  /** No items key, or items that are empty (falsy), is 404; otherwise the first item is returned. */
  lemma ItemSelection(api: ApiOutcome, fields: map<string, Json>)
    requires GetVideoData(api) == Returned(JObj(fields))
    ensures ("items" !in fields || !Truthy(fields["items"])) <==>
              GetDataFromYoutube(api) == Raised(HttpError(404, Text("Failed to fetch video data"), None))
    ensures "items" in fields && fields["items"].JArr? && fields["items"].items != [] ==>
              GetDataFromYoutube(api) == Returned(fields["items"].items[0])
  {
  }

  /**
   * A response that is no object: 404 exactly when Python's `in` finds no
   * "items" in it; otherwise the `in` test or the subscript raises.
   */
  lemma NonObjectResponse(api: ApiOutcome, res: Json)
    requires GetVideoData(api) == Returned(res) && !res.JObj?
    ensures GetDataFromYoutube(api).Raised? <==> Contains(res, "items") == Ok(false)
    ensures GetDataFromYoutube(api).Raised? ==>
              GetDataFromYoutube(api).error == HttpError(404, Text("Failed to fetch video data"), None)
    ensures !GetDataFromYoutube(api).Raised? ==> GetDataFromYoutube(api).Crashed?
  {
  }

  /** Every failure of the lookup is 400, the missing-stream 404 included; only mp4 is asked for. */
  lemma GetStreamMapping(link: string, provider: StreamQuery -> StreamOutcome)
    ensures Query(link).subtype == Some("mp4") && Query(link).link == link
    ensures GetStream(link, provider).Returned? <==> provider(Query(link)).Listed? && provider(Query(link)).best.Some?
    ensures !GetStream(link, provider).Returned? ==>
              GetStream(link, provider).Raised? && GetStream(link, provider).error.status == 400
    ensures provider(Query(link)) == Listed(None) ==>
              GetStream(link, provider).error.detail == StrOfHttp(HttpError(404, Text("Failed to fetch video data"), None))
  {
  }

  /** The provider's error text is passed on as it is, escape sequences and all. */
  lemma ProviderTextUnfiltered(link: string, provider: StreamQuery -> StreamOutcome)
    requires provider(Query(link)).VideoUnavailable? || provider(Query(link)).ProviderFailure?
    ensures GetStream(link, provider) == Raised(HttpError(400, Text(provider(Query(link)).text), None))
  {
  }

  /** The download link asks the provider about the watch link of the id and answers with the stream's url. */
  lemma MetadataIsStreamUrl(videoId: string, provider: StreamQuery -> StreamOutcome)
    ensures GetMetadata(videoId, provider).Returned? <==>
              provider(StreamQuery(WATCH_PREFIX + videoId, Some("mp4"))).Listed? &&
              provider(StreamQuery(WATCH_PREFIX + videoId, Some("mp4"))).best.Some?
    ensures GetMetadata(videoId, provider).Returned? ==>
              GetMetadata(videoId, provider).value == provider(StreamQuery(WATCH_PREFIX + videoId, Some("mp4"))).best.value.url
  {
  }
}
