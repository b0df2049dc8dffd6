/** The platform's data API as the extractors see it: the requests they build,
    the replies they read, and the two kinds of exception that escape from them.
    JSON objects become records; a key the code reads with `.get` or indexes
    directly but the platform may omit becomes an `Option` field. */
module Upstream {
  import opened Wrappers

  /** A reply to one request: the decoded body, or the message of the
      `HttpError` that `execute()` raised. */
  type Reply<T> = Result<T, string>

  /** The exceptions the model distinguishes. */
  datatype Failure =
    | HttpError(detail: string)   // raised by a request's execute()
    | KeyError(key: string)       // raised by indexing a dict that lacks the key

  /** Python's `str(e)`: an `HttpError` prints its own message, a `KeyError`
      prints the missing key in single quotes. */
  function Describe(f: Failure): (s: string)
    ensures f.KeyError? ==> |s| == |f.key| + 2 && s[0] == '\'' && s[|s| - 1] == '\''
    ensures f.KeyError? ==> s[1..|s| - 1] == f.key
    ensures f.HttpError? ==> s == f.detail
  {
    match f
    case HttpError(detail) => detail
    case KeyError(key) => "'" + key + "'"
  }

  /** `d[key]` for a key the code requires: its absence raises `KeyError`. */
  function Required<T>(field: Option<T>, key: string): (r: Result<T, Failure>)
    ensures r.Success? <==> field.Some?
    ensures r.Success? ==> r.value == field.value
    ensures r.Failure? ==> r.error == KeyError(key)
  {
    match field
    case Some(v) => Success(v)
    case None => Failure(KeyError(key))
  }

  /** The thumbnail variant every flattening reads. */
  const HighVariant: string := "high"

  /** `snippet["thumbnails"]["high"]["url"]`; the map sends variant names to URLs. */
  function HighThumbnail(thumbnails: map<string, string>): (r: Result<string, Failure>)
    ensures r.Success? <==> HighVariant in thumbnails
    ensures r.Success? ==> r.value == thumbnails[HighVariant]
    ensures r.Failure? ==> r.error == KeyError(HighVariant)
  {
    if HighVariant in thumbnails then Success(thumbnails[HighVariant])
    else Failure(KeyError(HighVariant))
  }

  /** Python truthiness of an optional string: `None` and `""` are false. */
  predicate Truthy(s: Option<string>) {
    s.Some? && s.value != ""
  }

  predicate StartsWith(s: string, prefix: string) {
    |prefix| <= |s| && s[..|prefix|] == prefix
  }

  // ---------------------------------------------------------------------
  // search().list

  /** A search request; `kind` is the API's `type` parameter. Video
      enumeration fills `channelId` and `pageToken`, channel resolution `q`. */
  datatype SearchRequest = SearchRequest(
    part: string,
    channelId: Option<string>,
    q: Option<string>,
    kind: string,
    maxResults: nat,
    pageToken: Option<string>)

  /** One search hit: `id.videoId` for a video hit, `snippet.channelId` for a
      channel hit. Either may be missing from a hit of another kind. */
  datatype SearchItem = SearchItem(videoId: Option<string>, channelId: Option<string>)

  datatype SearchPage = SearchPage(items: seq<SearchItem>, nextPageToken: Option<string>)

  // ---------------------------------------------------------------------
  // videos().list

  datatype VideosRequest = VideosRequest(part: string, ids: seq<string>)

  datatype VideoSnippet = VideoSnippet(
    title: Option<string>,
    description: Option<string>,
    publishedAt: Option<string>,
    thumbnails: map<string, string>)

  datatype ContentDetails = ContentDetails(duration: Option<string>)

  datatype VideoStatistics = VideoStatistics(
    viewCount: Option<nat>,
    likeCount: Option<nat>,
    commentCount: Option<nat>)

  datatype VideoItem = VideoItem(
    id: string,
    snippet: VideoSnippet,
    contentDetails: ContentDetails,
    statistics: VideoStatistics)

  datatype VideoListPage = VideoListPage(items: seq<VideoItem>)

  // ---------------------------------------------------------------------
  // channels().list

  datatype ChannelsRequest = ChannelsRequest(part: string, id: string)

  /** Both channel flattenings ask for the same two parts. */
  function ChannelLookup(channelId: string): (req: ChannelsRequest)
    ensures req.id == channelId && req.part == "snippet,statistics"
  {
    ChannelsRequest("snippet,statistics", channelId)
  }

  datatype ChannelSnippet = ChannelSnippet(
    title: Option<string>,
    description: Option<string>,
    publishedAt: Option<string>,
    thumbnails: map<string, string>)

  datatype ChannelStatistics = ChannelStatistics(
    subscriberCount: Option<nat>,
    viewCount: Option<nat>,
    videoCount: Option<nat>)

  datatype ChannelItem = ChannelItem(snippet: ChannelSnippet, statistics: ChannelStatistics)

  datatype ChannelListPage = ChannelListPage(items: seq<ChannelItem>)

  /** Whether reading `key` from a channel item would raise `KeyError`. */
  predicate ChannelKeyMissing(item: ChannelItem, key: string) {
    || (key == "title" && item.snippet.title.None?)
    || (key == "description" && item.snippet.description.None?)
    || (key == "publishedAt" && item.snippet.publishedAt.None?)
    || (key == "viewCount" && item.statistics.viewCount.None?)
    || (key == "videoCount" && item.statistics.videoCount.None?)
    || (key == HighVariant && HighVariant !in item.snippet.thumbnails)
  }
}
