/** Video enumeration, batched metadata fetching and the extraction pipeline
    of the video extractor. The search upstream is the finite sequence of
    replies it gives, the k-th answering the k-th request; the videos
    upstream is a function from request to reply. */
module VideoExtractor {
  import opened Wrappers
  import opened Upstream

  /** `maxResults` of every enumeration request. */
  const PageSize: nat := 50
  /** Ids per metadata request. */
  const BatchSize: nat := 50

  // =====================================================================
  // Sequence helpers

  /** The concatenation of a sequence of sequences, in order. */
  function Concat<T>(xss: seq<seq<T>>): seq<T>
    decreases |xss|
  {
    if |xss| == 0 then [] else xss[0] + Concat(xss[1..])
  }

  function Min(a: int, b: int): int {
    if a <= b then a else b
  }

  // =====================================================================
  // Step 1: enumerating a channel's video ids

  /** The enumeration request for one page. */
  function VideoSearch(channelId: string, pageToken: Option<string>): (req: SearchRequest)
    ensures req.channelId == Some(channelId) && req.pageToken == pageToken
    ensures req.kind == "video" && req.maxResults == PageSize && req.q == None
  {
    SearchRequest("snippet", Some(channelId), None, "video", PageSize, pageToken)
  }

  predicate HasVideoIds(items: seq<SearchItem>) {
    forall i :: 0 <= i < |items| ==> items[i].videoId.Some?
  }

  /** The `id.videoId` of every hit, in order. */
  function VideoIds(items: seq<SearchItem>): (ids: seq<string>)
    requires HasVideoIds(items)
    ensures |ids| == |items|
    ensures forall i :: 0 <= i < |items| ==> ids[i] == items[i].videoId.value
  {
    seq(|items|, i requires 0 <= i < |items| => items[i].videoId.value)
  }

  /** Whether the loop goes on after this reply: it arrived, every hit had
      a video id, and it carries a truthy `nextPageToken`. */
  predicate Continues(reply: Reply<SearchPage>) {
    reply.Success? && HasVideoIds(reply.value.items) && Truthy(reply.value.nextPageToken)
  }

  /** The upstream eventually gives a reply that ends the loop. */
  predicate Terminates(replies: seq<Reply<SearchPage>>) {
    exists k :: 0 <= k < |replies| && !Continues(replies[k])
  }

  /** The index of the reply that ends the loop: the first that does not continue it. */
  function StopIndex(replies: seq<Reply<SearchPage>>): (n: nat)
    requires Terminates(replies)
    ensures n < |replies| && !Continues(replies[n])
    ensures forall k :: 0 <= k < n ==> Continues(replies[k])
    decreases |replies|
  {
    if !Continues(replies[0]) then 0
    else
      assert Terminates(replies[1..]) by {
        var k :| 0 <= k < |replies| && !Continues(replies[k]);
        assert replies[1..][k - 1] == replies[k];
      }
      1 + StopIndex(replies[1..])
  }

  /** The ids of the first `n` pages: page order, then hit order. */
  function IdsThrough(replies: seq<Reply<SearchPage>>, n: nat): seq<string>
    requires n <= |replies|
    requires forall k :: 0 <= k < n ==> replies[k].Success? && HasVideoIds(replies[k].value.items)
  {
    if n == 0 then [] else IdsThrough(replies, n - 1) + VideoIds(replies[n - 1].value.items)
  }

  /** The number of hits on the first `n` pages. */
  function HitCount(replies: seq<Reply<SearchPage>>, n: nat): nat
    requires n <= |replies|
    requires forall k :: 0 <= k < n ==> replies[k].Success?
  {
    if n == 0 then 0 else HitCount(replies, n - 1) + |replies[n - 1].value.items|
  }

  /** One id per hit, nothing dropped or merged, and the ids of earlier pages
      come first. */
  lemma {:induction false} IdsThroughKeepsEveryHit(replies: seq<Reply<SearchPage>>, m: nat, n: nat)
    requires m <= n <= |replies|
    requires forall k :: 0 <= k < n ==> replies[k].Success? && HasVideoIds(replies[k].value.items)
    ensures |IdsThrough(replies, n)| == HitCount(replies, n)
    ensures |IdsThrough(replies, m)| <= |IdsThrough(replies, n)|
    ensures IdsThrough(replies, m) == IdsThrough(replies, n)[..|IdsThrough(replies, m)|]
    decreases n
  {
    if n > 0 {
      var before := IdsThrough(replies, n - 1);
      assert IdsThrough(replies, n) == before + VideoIds(replies[n - 1].value.items);
      if m < n {
        IdsThroughKeepsEveryHit(replies, m, n - 1);
        assert IdsThrough(replies, n)[..|before|] == before;
      } else {
        IdsThroughKeepsEveryHit(replies, n - 1, n - 1);
      }
    }
  }

  /** What enumeration yields: the ids of every page up to and including the
      one that ends the loop, or the exception that ended it. */
  function Enumerated(replies: seq<Reply<SearchPage>>): (r: Result<seq<string>, Failure>)
    requires Terminates(replies)
    ensures r.Success? <==> replies[StopIndex(replies)].Success? && HasVideoIds(replies[StopIndex(replies)].value.items)
    ensures r.Success? ==> |r.value| == HitCount(replies, StopIndex(replies) + 1)
    ensures r.Failure? ==> r.error == (if replies[StopIndex(replies)].Failure? then HttpError(replies[StopIndex(replies)].error)
                                       else KeyError("videoId"))
  {
    var n := StopIndex(replies);
    match replies[n]
    case Failure(detail) => Failure(HttpError(detail))
    case Success(page) =>
      if HasVideoIds(page.items) then
        IdsThroughKeepsEveryHit(replies, n + 1, n + 1);
        Success(IdsThrough(replies, n + 1))
      else Failure(KeyError("videoId"))
  }

  /** `get_all_video_ids`: follow page tokens until a reply carries none. */
  method GetAllVideoIds(channelId: string, replies: seq<Reply<SearchPage>>)
      returns (sent: seq<SearchRequest>, ids: Result<seq<string>, Failure>)
    requires Terminates(replies)
    ensures |sent| == StopIndex(replies) + 1
    ensures sent[0] == VideoSearch(channelId, None)
    ensures forall k :: 0 < k < |sent| ==>
              sent[k] == VideoSearch(channelId, replies[k - 1].value.nextPageToken)
    ensures ids == Enumerated(replies)
  {
    ghost var n := StopIndex(replies);
    sent := [];
    var collected: seq<string> := [];
    var token: Option<string> := None;
    var i := 0;
    while true
      invariant i <= n
      invariant |sent| == i
      invariant token == if i == 0 then None else replies[i - 1].value.nextPageToken
      invariant forall k :: 0 <= k < i ==>
                  sent[k] == VideoSearch(channelId, if k == 0 then None else replies[k - 1].value.nextPageToken)
      invariant collected == IdsThrough(replies, i)
      decreases n - i
    {
      sent := sent + [VideoSearch(channelId, token)];
      var reply := replies[i];
      if reply.Failure? {
        ids := Failure(HttpError(reply.error));
        return;
      }
      var items := reply.value.items;
      var j := 0;
      while j < |items|
        invariant j <= |items|
        invariant HasVideoIds(items[..j])
        invariant collected == IdsThrough(replies, i) + VideoIds(items[..j])
      {
        if items[j].videoId.None? {
          ids := Failure(KeyError("videoId"));
          return;
        }
        assert items[..j + 1] == items[..j] + [items[j]];
        collected := collected + [items[j].videoId.value];
        j := j + 1;
      }
      assert items[..j] == items;
      token := reply.value.nextPageToken;
      if !Truthy(token) {
        ids := Success(collected);
        return;
      }
      i := i + 1;
    }
  }

  // =====================================================================
  // Step 2: metadata in batches of fifty

  /** The slices `ids[i:i+50]` for i = 0, 50, 100, ... */
  function Batches<T>(ids: seq<T>): (bs: seq<seq<T>>)
    ensures |bs| == (|ids| + BatchSize - 1) / BatchSize
    ensures forall k :: 0 <= k < |bs| ==> 0 < |bs[k]| <= BatchSize
    ensures forall k :: 0 <= k < |bs| - 1 ==> |bs[k]| == BatchSize
    ensures Concat(bs) == ids
    decreases |ids|
  {
    if |ids| == 0 then []
    else if |ids| <= BatchSize then [ids]
    else [ids[..BatchSize]] + Batches(ids[BatchSize..])
  }

  /** Each batch is the slice of the input the source's `range` step selects. */
  lemma {:induction false} BatchesAreSlices<T>(ids: seq<T>)
    ensures forall k :: 0 <= k < |Batches(ids)| ==>
              Batches(ids)[k] == ids[k * BatchSize .. Min(k * BatchSize + BatchSize, |ids|)]
    decreases |ids|
  {
    var bs := Batches(ids);
    if |ids| > BatchSize {
      var rest := ids[BatchSize..];
      BatchesAreSlices(rest);
      forall k | 0 <= k < |bs|
        ensures bs[k] == ids[k * BatchSize .. Min(k * BatchSize + BatchSize, |ids|)]
      {
        if k > 0 {
          assert bs[k] == Batches(rest)[k - 1];
          assert rest[(k - 1) * BatchSize .. Min((k - 1) * BatchSize + BatchSize, |rest|)]
              == ids[k * BatchSize .. Min(k * BatchSize + BatchSize, |ids|)];
        }
      }
    }
  }

  /** The single metadata request for one batch. */
  function VideosFor(batch: seq<string>): (req: VideosRequest)
    ensures req.ids == batch && req.part == "snippet,contentDetails,statistics"
  {
    VideosRequest("snippet,contentDetails,statistics", batch)
  }

  /** One row of the metadata table. */
  datatype VideoRow = VideoRow(
    videoId: string,
    title: string,
    description: string,
    publishDate: string,
    duration: string,
    views: nat,
    likes: nat,
    comments: nat,
    thumbnailUrl: string)

  /** Flattens one returned item; a missing "high" thumbnail raises. */
  function FlattenVideo(item: VideoItem): (r: Result<VideoRow, Failure>)
    ensures r.Success? <==> HighVariant in item.snippet.thumbnails
    ensures r.Failure? ==> r.error == KeyError(HighVariant)
    ensures r.Success? ==> r.value.videoId == item.id
    ensures r.Success? ==> r.value.thumbnailUrl == item.snippet.thumbnails[HighVariant]
    ensures r.Success? && item.statistics.viewCount.None? ==> r.value.views == 0
    ensures r.Success? && item.statistics.likeCount.None? ==> r.value.likes == 0
    ensures r.Success? && item.statistics.commentCount.None? ==> r.value.comments == 0
    ensures r.Success? && item.snippet.title.None? ==> r.value.title == ""
    ensures r.Success? && item.snippet.description.None? ==> r.value.description == ""
    ensures r.Success? && item.snippet.publishedAt.None? ==> r.value.publishDate == ""
    ensures r.Success? && item.contentDetails.duration.None? ==> r.value.duration == ""
  {
    var url :- HighThumbnail(item.snippet.thumbnails);
    Success(VideoRow(
      item.id,
      item.snippet.title.GetOr(""),
      item.snippet.description.GetOr(""),
      item.snippet.publishedAt.GetOr(""),
      item.contentDetails.duration.GetOr(""),
      item.statistics.viewCount.GetOr(0),
      item.statistics.likeCount.GetOr(0),
      item.statistics.commentCount.GetOr(0),
      url))
  }

  /** Fields present upstream reach the row unchanged. */
  lemma FlattenKeepsPresentFields(item: VideoItem)
    requires HighVariant in item.snippet.thumbnails
    ensures var row := FlattenVideo(item).value;
      && (item.statistics.viewCount.Some? ==> row.views == item.statistics.viewCount.value)
      && (item.statistics.likeCount.Some? ==> row.likes == item.statistics.likeCount.value)
      && (item.statistics.commentCount.Some? ==> row.comments == item.statistics.commentCount.value)
      && (item.snippet.title.Some? ==> row.title == item.snippet.title.value)
      && (item.snippet.description.Some? ==> row.description == item.snippet.description.value)
      && (item.snippet.publishedAt.Some? ==> row.publishDate == item.snippet.publishedAt.value)
      && (item.contentDetails.duration.Some? ==> row.duration == item.contentDetails.duration.value)
  {
  }

  predicate HasHighThumbnails(items: seq<VideoItem>) {
    forall i :: 0 <= i < |items| ==> HighVariant in items[i].snippet.thumbnails
  }

  /** Flattens a reply's items in order; the first item without a "high"
      thumbnail aborts the whole call. */
  function FlattenItems(items: seq<VideoItem>): (r: Result<seq<VideoRow>, Failure>)
    ensures r.Success? <==> HasHighThumbnails(items)
    ensures r.Failure? ==> r.error == KeyError(HighVariant)
    ensures r.Success? ==> |r.value| == |items|
    ensures r.Success? ==> forall i :: 0 <= i < |items| ==> r.value[i] == FlattenVideo(items[i]).value
    decreases |items|
  {
    if |items| == 0 then Success([])
    else
      var row :- FlattenVideo(items[0]);
      var rest :- FlattenItems(items[1..]);
      assert HasHighThumbnails(items) by {
        forall i | 0 <= i < |items| ensures HighVariant in items[i].snippet.thumbnails {
          if i > 0 { assert items[i] == items[1..][i - 1]; }
        }
      }
      Success([row] + rest)
  }

  /** The requests issued by the metadata step and what it returned. */
  datatype MetadataRun = MetadataRun(sent: seq<VideosRequest>, rows: Result<seq<VideoRow>, Failure>)

  /** A reply that the metadata loop gets past: it arrived and every item flattened. */
  predicate Absorbed(reply: Reply<VideoListPage>) {
    reply.Success? && HasHighThumbnails(reply.value.items)
  }

  /** The items of every reply to `sent`, in request order (an unabsorbed reply adds none). */
  function ReturnedItems(sent: seq<VideosRequest>, fetch: VideosRequest -> Reply<VideoListPage>): seq<VideoItem>
    decreases |sent|
  {
    if |sent| == 0 then []
    else
      var reply := fetch(sent[0]);
      (if reply.Success? then reply.value.items else []) + ReturnedItems(sent[1..], fetch)
  }

  /** One request per batch, in order, stopping at the first exception. */
  function FetchBatches(batches: seq<seq<string>>, fetch: VideosRequest -> Reply<VideoListPage>): (run: MetadataRun)
    ensures |run.sent| <= |batches|
    ensures forall k :: 0 <= k < |run.sent| ==> run.sent[k] == VideosFor(batches[k])
    ensures forall k :: 0 <= k < |run.sent| - 1 ==> Absorbed(fetch(run.sent[k]))
    ensures run.rows.Success? <==> |run.sent| == |batches| && forall k :: 0 <= k < |run.sent| ==> Absorbed(fetch(run.sent[k]))
    ensures run.rows.Failure? ==>
              && 0 < |run.sent|
              && !Absorbed(fetch(run.sent[|run.sent| - 1]))
              && var reply := fetch(run.sent[|run.sent| - 1]);
                 run.rows.error == (if reply.Failure? then HttpError(reply.error) else KeyError(HighVariant))
    ensures run.rows.Success? ==> HasHighThumbnails(ReturnedItems(run.sent, fetch))
    ensures run.rows.Success? ==>
              var items := ReturnedItems(run.sent, fetch);
              && |run.rows.value| == |items|
              && forall i :: 0 <= i < |items| ==> run.rows.value[i] == FlattenVideo(items[i]).value
    decreases |batches|
  {
    if |batches| == 0 then MetadataRun([], Success([]))
    else
      var request := VideosFor(batches[0]);
      match fetch(request)
      case Failure(detail) => MetadataRun([request], Failure(HttpError(detail)))
      case Success(page) =>
        match FlattenItems(page.items)
        case Failure(e) => MetadataRun([request], Failure(e))
        case Success(rows) =>
          var rest := FetchBatches(batches[1..], fetch);
          var sent := [request] + rest.sent;
          assert sent[1..] == rest.sent;
          match rest.rows
          case Failure(e) => MetadataRun(sent, Failure(e))
          case Success(more) =>
            assert ReturnedItems(sent, fetch) == page.items + ReturnedItems(rest.sent, fetch);
            MetadataRun(sent, Success(rows + more))
  }

  /** `get_video_metadata`: one request per batch of fifty ids, in order,
      stopping at the first reply that raises. */
  function GetVideoMetadata(ids: seq<string>, fetch: VideosRequest -> Reply<VideoListPage>): (run: MetadataRun)
    ensures ids == [] ==> run == MetadataRun([], Success([]))
    ensures |run.sent| <= (|ids| + BatchSize - 1) / BatchSize
    ensures forall k :: 0 <= k < |run.sent| ==>
              run.sent[k] == VideosFor(ids[k * BatchSize .. Min(k * BatchSize + BatchSize, |ids|)])
    ensures forall k :: 0 <= k < |run.sent| ==> 0 < |run.sent[k].ids| <= BatchSize
    ensures forall k :: 0 <= k < |run.sent| - 1 ==> Absorbed(fetch(run.sent[k]))
    ensures run.rows.Success? <==>
              && |run.sent| == (|ids| + BatchSize - 1) / BatchSize
              && forall k :: 0 <= k < |run.sent| ==> Absorbed(fetch(run.sent[k]))
    ensures run.rows.Failure? ==>
              && 0 < |run.sent|
              && !Absorbed(fetch(run.sent[|run.sent| - 1]))
              && var reply := fetch(run.sent[|run.sent| - 1]);
                 run.rows.error == (if reply.Failure? then HttpError(reply.error) else KeyError(HighVariant))
    ensures run.rows.Success? ==> Concat(seq(|run.sent|, k requires 0 <= k < |run.sent| => run.sent[k].ids)) == ids
    ensures run.rows.Success? ==>
              var items := ReturnedItems(run.sent, fetch);
              && HasHighThumbnails(items)
              && |run.rows.value| == |items|
              && forall i :: 0 <= i < |items| ==> run.rows.value[i] == FlattenVideo(items[i]).value
  {
    var bs := Batches(ids);
    BatchesAreSlices(ids);
    var run := FetchBatches(bs, fetch);
    assert run.rows.Success? ==> seq(|run.sent|, k requires 0 <= k < |run.sent| => run.sent[k].ids) == bs;
    run
  }

  // =====================================================================
  // Step 3: the pipeline

  /** `extract_full_video_data`: enumerate, then fetch metadata unless there is nothing to fetch. */
  method ExtractFullVideoData(
      channelId: string,
      replies: seq<Reply<SearchPage>>,
      fetch: VideosRequest -> Reply<VideoListPage>)
      returns (searches: seq<SearchRequest>, run: MetadataRun)
    requires Terminates(replies)
    ensures |searches| == StopIndex(replies) + 1
    ensures searches[0] == VideoSearch(channelId, None)
    ensures forall k :: 0 < k < |searches| ==>
              searches[k] == VideoSearch(channelId, replies[k - 1].value.nextPageToken)
    ensures Enumerated(replies).Failure? ==> run == MetadataRun([], Failure(Enumerated(replies).error))
    ensures Enumerated(replies) == Success([]) ==> run == MetadataRun([], Success([]))
    ensures Enumerated(replies).Success? && Enumerated(replies).value != [] ==>
              run == GetVideoMetadata(Enumerated(replies).value, fetch)
  {
    var ids;
    searches, ids := GetAllVideoIds(channelId, replies);
    if ids.Failure? {
      return searches, MetadataRun([], Failure(ids.error));
    }
    if ids.value == [] {
      return searches, MetadataRun([], Success([]));
    }
    run := GetVideoMetadata(ids.value, fetch);
  }
}
