# YouTube analytics dashboard — extraction core in Dafny

This project models the data-extraction core of a small YouTube analytics
dashboard:

- resolving what a user typed (a channel id, an `@handle` or a name) to a channel id;
- flattening a channel lookup into a summary dictionary or a one-row table;
- enumerating a channel's videos by following search page tokens;
- fetching video metadata in batches of fifty and flattening every returned item into a row;
- the zero-guarded engagement rate.

The platform's API client is replaced by abstract values. Requests and
replies are immutable records (`Upstream`). A reply is either the decoded body
or the message of the `HttpError` that `execute()` raised. A key the code may
find missing is an `Option` field. A missing required key becomes a
`KeyError` carrying that key, raised in the order the source reads the keys.
The search endpoint used for enumeration is the finite sequence of its
replies, consumed in request order. Each other endpoint is a function from
request to reply. Every operation also returns the requests it issued, so
"no search is issued" and "no lookup is made" are statements about that log.

Modules: `Wrappers` (Option, Result), `Upstream` (API shapes, `Failure`,
`str(e)`), `VideoExtractor`, `YoutubeApi`, `ChannelExtractor`, `Process`.

The model follows the code as written:

- The enumeration request carries no ordering parameter, so ids keep the order the API returns them in.
- Nothing in `data_processing/video_extractor.py` catches an exception. A failed
  request or a missing key aborts enumeration, metadata fetching and the
  pipeline, with no partial result.
- A search hit without `channelId` raises `KeyError` out of
  `resolve_to_channel_id`; it is not turned into `None`.
  `get_channel_details` then reports it as `{"error": "'channelId'"}`.

## Model

| member | source | states |
|---|---|---|
| VideoExtractor.VideoSearch | data_processing/video_extractor.py:23-29 | every enumeration request is a video search scoped to the channel, 50 results per page, carrying the given page token |
| VideoExtractor.VideoIds | data_processing/video_extractor.py:33-34 | a page whose hits all carry a video id yields one id per hit, each hit's `id.videoId`, in hit order |
| VideoExtractor.StopIndex | data_processing/video_extractor.py:36-39 | the loop ends at the first reply that failed, has a hit without a video id, or whose `nextPageToken` is absent or empty; every earlier reply continues it |
| VideoExtractor.GetAllVideoIds | data_processing/video_extractor.py:17-41 | the first request has no page token; request k carries reply k-1's `nextPageToken`; exactly one request per reply up to the one that stops the loop; the ids are every page's ids in page and hit order, or the exception that stopped the loop |
| VideoExtractor.Enumerated | data_processing/video_extractor.py:22-39 | enumeration yields the ids of every page through the one that stops the loop, or `HttpError` when that reply failed, or `KeyError('videoId')` when one of its hits lacks an id; it succeeds exactly when that reply arrived with every hit carrying an id, and then holds one id per hit of every page read |
| VideoExtractor.IdsThroughKeepsEveryHit | data_processing/video_extractor.py:22-34 | enumeration keeps one id per hit (no deduplication), and the ids of earlier pages are a prefix of the result |
| VideoExtractor.Batches | data_processing/video_extractor.py:51-55 | the batches are non-empty and at most 50 long; all but the last have exactly 50; there are ceil(n/50) of them (none for empty input); they concatenate back to the input |
| VideoExtractor.BatchesAreSlices | data_processing/video_extractor.py:51-55 | batch k is the slice `ids[50k : 50k+50]`, cut at the end of the list |
| VideoExtractor.VideosFor | data_processing/video_extractor.py:53-56 | each metadata request asks for exactly the ids of its batch, with the snippet, contentDetails and statistics parts |
| VideoExtractor.FlattenVideo | data_processing/video_extractor.py:62-72 | a row exists exactly when the item has a "high" thumbnail (otherwise `KeyError('high')`); it echoes the item id and the thumbnail URL; missing view, like and comment counts become 0; missing title, description, publish date and duration become "" |
| VideoExtractor.FlattenKeepsPresentFields | data_processing/video_extractor.py:64-70 | fields the item does carry reach the row unchanged |
| VideoExtractor.FlattenItems | data_processing/video_extractor.py:60-72 | a reply's items flatten one row per item, in order, unless some item lacks a "high" thumbnail, in which case the whole call raises `KeyError('high')` |
| VideoExtractor.FetchBatches | data_processing/video_extractor.py:51-72 | request k asks for batch k; the run succeeds exactly when there is one request per batch and every reply arrived and flattened; otherwise it stops at the first reply that failed or did not flatten, and that reply decides the error (`HttpError` or `KeyError('high')`); on success the rows are the returned items, flattened, in order, one row per returned item |
| VideoExtractor.GetVideoMetadata | data_processing/video_extractor.py:47-74 | no request for no ids; request k asks for `ids[50k : 50k+50]`, on success and on failure alike; the run succeeds exactly when all ceil(n/50) requests were made and every reply arrived and flattened; a failure is decided by the first reply that failed or did not flatten; on success the request ids concatenate back to the input and there is one row per returned item (not per requested id), in order |
| VideoExtractor.ExtractFullVideoData | data_processing/video_extractor.py:80-89 | the search requests are those of enumeration (no token first, then each reply's token); an enumeration failure propagates; no ids gives an empty result with no metadata request; otherwise the result is exactly the metadata step applied to the enumerated ids |
| YoutubeApi.StripHandle | data_processing/youtube_api.py:22-24 | exactly one leading "@" is removed; other input is unchanged |
| YoutubeApi.ChannelSearch | data_processing/youtube_api.py:27-32 | the resolving search uses the input as the query, type "channel", at most one result |
| YoutubeApi.ResolveToChannelId | data_processing/youtube_api.py:13-40 | an input starting with "UC" resolves to itself with no search; otherwise one search is issued whose query is the input without its handle marker; an `HttpError` or no hits gives `None`; hits give the first hit's `channelId`, or `KeyError('channelId')` when that hit lacks one, the only exception that escapes |
| YoutubeApi.ChannelIdNeedsNoSearch | data_processing/youtube_api.py:19-20 | an input starting with "UC" resolves to itself whatever the search endpoint would answer |
| YoutubeApi.HandleMarkerStrippedOnce | data_processing/youtube_api.py:19-24 | "@" + rest is searched as rest, so "@UC…" is searched, not returned, and "@@x" is searched as "@x" |
| YoutubeApi.Summarize | data_processing/youtube_api.py:60-67 | the summary exists exactly when title, viewCount and videoCount are present; subscribers default to 0; views and videos pass through; a failure is a `KeyError` for the first missing key in the order title, viewCount, videoCount |
| YoutubeApi.GetChannelDetails | data_processing/youtube_api.py:43-72 | unresolved input gives `None` with no lookup; a lookup is made for the resolved id; an `HttpError` becomes `{"error": "HTTP Error: …"}`; no items gives `None`; a first item that summarizes gives exactly that summary, and a summary comes from nowhere else; any other exception becomes `{"error": str(e)}` |
| ChannelExtractor.FirstMissingKey | data_processing/channel_extractor.py:35-41 | for an item lacking some required key, the key reported is missing and every required key read before it (order title, videoCount, viewCount, description, publishedAt, high) is present |
| ChannelExtractor.ChannelRow | data_processing/channel_extractor.py:31-43 | the row exists exactly when title, videoCount, viewCount, description, publishedAt and the "high" thumbnail are present; otherwise the `KeyError` names the first of them, in that read order, that is missing; `channel_id` echoes the argument; subscribers default to 0; every other field comes from the item |
| ChannelExtractor.ExtractChannelData | data_processing/channel_extractor.py:19-50 | exactly one lookup for the given id; an `HttpError` or empty items gives `None`; a first item that flattens gives a table of exactly that one row; a first item missing a required key propagates that `KeyError`, the only exception that escapes |
| ChannelExtractor.OnlyFirstItemUsed | data_processing/channel_extractor.py:28-31 | replies that agree on their first item give the same result |
| Process.EngagementRate | data_processing/process.py:3-6 | zero views give 0; otherwise rate × views = likes + comments exactly; zero likes and comments give 0; non-negative counts with positive views give a non-negative rate |
| Process.EngagementMonotonic | data_processing/process.py:6 | for fixed positive views the rate never decreases as likes or comments grow |
| Upstream.ChannelLookup | data_processing/channel_extractor.py:21-24 | a channel lookup asks for the snippet and statistics of exactly the given id |
| Upstream.Describe | data_processing/youtube_api.py:69-72 | `str(e)` of a `KeyError` is the key in single quotes; of an `HttpError`, its message |
| Upstream.Required | data_processing/channel_extractor.py:37-38 | indexing a required key yields its value, or `KeyError` with that key when absent |
| Upstream.HighThumbnail | data_processing/video_extractor.py:71 | the "high" thumbnail URL, or `KeyError('high')` when that variant is absent |

## Left out

- API client construction, `.env` loading and the import-time API-key checks: configuration and I/O.
- The dashboard script, the persistence layer and date parsing or formatting are not part of this model. Timestamps are opaque strings.
- The comma-joined `id` parameter of a metadata request: the request carries the list of ids; the join is wire encoding.
- `int()` of the count strings, and the `ValueError` it raises on a non-numeric string: counts arrive as parsed `nat` values.
- `get_channel_details` passes "Total Views", "Total Videos" and a present "Subscribers" through as the API's strings, but an absent "Subscribers" becomes the integer 0. The model uses `nat` for all three, so this mixing of types is lost.
- Exceptions other than `HttpError` raised by the client itself (socket errors, timeouts): the only upstream failure modelled is `HttpError`. The only other exception modelled is `KeyError`.
- Objects the code indexes and the API always sends are modelled as always present: the `items` list, `snippet`, `statistics`, `contentDetails`, a video's `id`, `thumbnails` and a variant's `url`. Their absence would raise `KeyError` with another key.
- VideoExtractor.GetAllVideoIds: requires an upstream that eventually sends a reply ending the loop. An upstream that sends truthy page tokens forever makes the source loop forever, and that case is not modelled.
- The `print` of an API error in `extract_channel_data` is logging and is not modelled.
- A pandas DataFrame is a sequence of row records. The column-less `pd.DataFrame()` and a frame built from no rows are both the empty sequence.
- Process.EngagementRate: Python returns the integer 0 in the zero-view case and a float otherwise. The model returns an exact `real` in both cases and has no float rounding.
