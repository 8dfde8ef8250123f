/**
 * What the core sees of its content provider (pytube) and of the YouTube
 * Data API (reached through aiohttp): opaque outcome values, and the watch
 * link both callers build from a video id.
 */
module Provider {
  import opened Wrappers
  import opened Json

  const WATCH_PREFIX := "https://www.youtube.com/watch?v="

  /** The part of a pytube stream the core reads. */
  datatype Stream = Stream(url: string, resolution: string)

  /** One provider lookup: the watch link and the subtype filter. */
  datatype StreamQuery = StreamQuery(link: string, subtype: Option<string>)

  /**
   * The outcome of `YouTube(link).streams.filter(...).order_by("resolution").desc().first()`:
   * the best stream or nothing, or an exception with its text.
   */
  datatype StreamOutcome =
    | Listed(best: Option<Stream>)
    | VideoUnavailable(text: string)
    | ProviderFailure(text: string)

  /** An error aiohttp raises: a ClientError, or any other exception with its text. */
  datatype TransportError = ClientError | OtherError(text: string)

  /** A request to the Data API: no answer, or a status and the body as JSON (or a read error). */
  datatype ApiOutcome =
    | Unreachable(error: TransportError)
    | Responded(status: int, body: Result<Json, TransportError>)

  function WatchLink(videoId: string): (link: string) {
    WATCH_PREFIX + videoId
  }

  /** The link starts with the fixed prefix, ends with the id, and determines the id. */
  lemma WatchLinkShape(videoId: string, other: string)
    ensures WatchLink(videoId)[..|WATCH_PREFIX|] == WATCH_PREFIX
    ensures WatchLink(videoId)[|WATCH_PREFIX|..] == videoId
    ensures WatchLink(videoId) == WatchLink(other) ==> videoId == other
  {
    if WatchLink(videoId) == WatchLink(other) {
      assert videoId == WatchLink(videoId)[|WATCH_PREFIX|..];
      assert other == WatchLink(other)[|WATCH_PREFIX|..];
    }
  }
}
