/**
 * YoutubeService: the container-format check, the provider lookup with its
 * exception mapping, and the Data API request with its exception mapping.
 * The service's two fields are set once, so the service is a value.
 */
module YoutubeService {
  import opened Wrappers
  import opened Json
  import opened Http
  import opened Provider
  import AnsiEscape

  datatype VideoFormat = MP4 | WEBM | MKV {
    function Value(): (s: string) {
      match this
      case MP4 => "mp4"
      case WEBM => "webm"
      case MKV => "mkv"
    }
  }

  /** The enum member whose value is `s`, if any. */
  function ParseFormat(s: string): (r: Option<VideoFormat>)
    ensures r.Some? ==> r.value.Value() == s
    ensures r.None? ==> forall f: VideoFormat :: f.Value() != s
  {
    if s == "mp4" then Some(MP4)
    else if s == "webm" then Some(WEBM)
    else if s == "mkv" then Some(MKV)
    else None
  }

  /** `fmt` is None when the caller passes None. */
  datatype Service = Service(videoId: string, fmt: Option<string>)

  /** The constructor with its default format. */
  function DefaultService(videoId: string): (svc: Service)
    ensures svc.videoId == videoId && svc.fmt == Some(MP4.Value()) && svc.fmt == Some("mp4")
  {
    Service(videoId, Some(MP4.Value()))
  }

  /** `self.fmt and self.fmt not in (...)`: a None or empty format is not checked. */
  predicate FormatRejected(svc: Service) {
    svc.fmt.Some? && svc.fmt.value != "" && ParseFormat(svc.fmt.value).None?
  }

  /** The lookup `get_stream` sends to the provider. */
  function Query(svc: Service): (q: StreamQuery) {
    StreamQuery(WatchLink(svc.videoId), svc.fmt)
  }

  /** `get_stream`: format check, then the provider lookup, with its exceptions mapped. */
  function GetStream(svc: Service, provider: StreamQuery -> StreamOutcome): (r: Outcome<Option<Stream>>)
    ensures !r.Crashed?
  {
    if FormatRejected(svc) then
      Raised(Error(BAD_REQUEST, "Unsupported format: " + svc.fmt.value))
    else match provider(Query(svc))
      case Listed(best) => Returned(best)
      case VideoUnavailable(_) => Raised(Error(NOT_FOUND, "Video not found"))
      case ProviderFailure(text) => Raised(Error(BAD_REQUEST, AnsiEscape.Strip(text)))
  }

  /** `fetch_video_info` runs `get_stream` on a thread pool; the model calls it directly. */
  function FetchVideoInfo(svc: Service, provider: StreamQuery -> StreamOutcome): (r: Outcome<Option<Stream>>) {
    GetStream(svc, provider)
  }

  /** A set, non-empty format passes the check exactly when it is one of the enum's values. */
  lemma FormatCheck(svc: Service)
    requires svc.fmt.Some? && svc.fmt.value != ""
    ensures !FormatRejected(svc) <==> svc.fmt.value in {"mp4", "webm", "mkv"}
  {
    if svc.fmt.value in {"mp4", "webm", "mkv"} {
      assert ParseFormat(svc.fmt.value).Some?;
    }
  }

  /** An unsupported format is answered with 400 before the provider is asked anything. */
  lemma UnsupportedFormatSkipsProvider(svc: Service, p1: StreamQuery -> StreamOutcome, p2: StreamQuery -> StreamOutcome)
    requires svc.fmt.Some? && svc.fmt.value != "" && svc.fmt.value !in {"mp4", "webm", "mkv"}
    ensures GetStream(svc, p1) == GetStream(svc, p2)
    ensures GetStream(svc, p1) == Raised(HttpError(400, Text("Unsupported format: " + svc.fmt.value), None))
  {
    FormatCheck(svc);
  }

  /** A missing or empty format skips the check; the provider's answer decides. */
  lemma NoFormatIsNotChecked(svc: Service, provider: StreamQuery -> StreamOutcome)
    requires svc.fmt == None || svc.fmt == Some("")
    ensures GetStream(svc, provider).Returned? <==> provider(Query(svc)).Listed?
  {
  }

  /**
   * The exception mapping of `get_stream` once the format is accepted: the
   * provider is asked for the watch link of the id with the format as subtype;
   * an unavailable video is 404, any other failure is 400 carrying its text with
   * escape sequences removed, and a listing is returned as it is.
   */
  lemma GetStreamMapping(svc: Service, provider: StreamQuery -> StreamOutcome)
    requires !FormatRejected(svc)
    ensures Query(svc).link == WATCH_PREFIX + svc.videoId && Query(svc).subtype == svc.fmt
    ensures provider(Query(svc)).Listed? ==> GetStream(svc, provider) == Returned(provider(Query(svc)).best)
    ensures provider(Query(svc)).VideoUnavailable? ==>
              GetStream(svc, provider) == Raised(HttpError(404, Text("Video not found"), None))
    ensures provider(Query(svc)).ProviderFailure? ==>
              GetStream(svc, provider) == Raised(HttpError(400, Text(AnsiEscape.Strip(provider(Query(svc)).text)), None))
  {
  }

  /** The detail of the generic 400 is the provider's text with characters deleted, never added or reordered. */
  lemma GetStreamDetailIsFiltered(svc: Service, provider: StreamQuery -> StreamOutcome)
    requires !FormatRejected(svc) && provider(Query(svc)).ProviderFailure?
    ensures GetStream(svc, provider).Raised?
    ensures GetStream(svc, provider).error.detail.Text?
    ensures AnsiEscape.IsSubsequence(GetStream(svc, provider).error.detail.text, provider(Query(svc)).text)
  {
    AnsiEscape.StripIsSubsequence(provider(Query(svc)).text);
  }

  /** `result["error"]["message"]`, or the lookup error it raises. */
  function ErrorMessage(body: Json): (r: Result<Json, LookupFailure>)
  {
    match Subscript(body, "error")
    case Err(f) => Err(f)
    case Ok(inner) => Subscript(inner, "message")
  }

  /**
   * `get_video_data`: transport errors become 503; every other failure,
   * a non-200 answer included, is caught by the generic handler and becomes 400.
   */
  function GetVideoData(api: ApiOutcome): (r: Outcome<Json>)
    ensures !r.Crashed?
  {
    match api
    case Unreachable(ClientError) => Raised(Error(SERVICE_UNAVAILABLE, "Service youtube unavailable"))
    case Unreachable(OtherError(text)) => Raised(Error(BAD_REQUEST, text))
    case Responded(_, Err(ClientError)) => Raised(Error(SERVICE_UNAVAILABLE, "Service youtube unavailable"))
    case Responded(_, Err(OtherError(text))) => Raised(Error(BAD_REQUEST, text))
    case Responded(status, Ok(body)) =>
      if status == 200 then Returned(body)
      else match ErrorMessage(body)
        case Err(failure) => Raised(HttpError(BAD_REQUEST, StrOfLookup(failure), None))
        case Ok(message) =>
          match NewHttpException(status, if message == JNull then None else Some(JsonDetail(message)))
          case Ok(e) => Raised(HttpError(BAD_REQUEST, StrOfHttp(e), None))
          case Err(f) => Raised(HttpError(BAD_REQUEST, StrOfFault(f), None))
  }

  /** A ClientError anywhere is 503; a 200 with a body is that body; anything else is 400. */
  lemma VideoDataMapping(api: ApiOutcome)
    ensures GetVideoData(api).Returned? <==> api.Responded? && api.status == 200 && api.body.Ok?
    ensures GetVideoData(api).Returned? ==> GetVideoData(api).value == api.body.value
    ensures GetVideoData(api).Raised? && GetVideoData(api).error.status == 503 <==>
              (api.Unreachable? && api.error == ClientError) || (api.Responded? && api.body == Err(ClientError))
    ensures GetVideoData(api).Raised? ==> GetVideoData(api).error.status in {400, 503}
    ensures (api.Unreachable? && api.error == ClientError) || (api.Responded? && api.body == Err(ClientError)) ==>
              GetVideoData(api) == Raised(HttpError(503, Text("Service youtube unavailable"), None))
  {
  }

  /**
   * A non-200 answer never keeps its status: the HTTPException raised for it
   * is caught and becomes 400. A null message leaves the detail to Starlette's
   * reason-phrase lookup, whose ValueError for an unlisted code is caught too.
   */
  lemma NonOkBecomesBadRequest(status: int, body: Json)
    requires status != 200
    ensures GetVideoData(Responded(status, Ok(body))).Raised?
    ensures GetVideoData(Responded(status, Ok(body))).error.status == 400
    ensures ErrorMessage(body).Ok? && ErrorMessage(body).value != JNull ==>
              GetVideoData(Responded(status, Ok(body))).error.detail
                == StrOfHttp(HttpError(status, JsonDetail(ErrorMessage(body).value), None))
    ensures ErrorMessage(body) == Ok(JNull) && HasReasonPhrase(status) ==>
              GetVideoData(Responded(status, Ok(body))).error.detail
                == StrOfHttp(HttpError(status, ReasonPhrase, None))
    ensures ErrorMessage(body) == Ok(JNull) && !HasReasonPhrase(status) ==>
              GetVideoData(Responded(status, Ok(body))).error.detail == StrOfFault(UnknownStatus(status))
    ensures ErrorMessage(body).Err? ==>
              GetVideoData(Responded(status, Ok(body))).error.detail == StrOfLookup(ErrorMessage(body).error)
  {
  }
}
