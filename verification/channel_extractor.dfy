/** The channel extractor: one channel lookup flattened into a one-row table. */
module ChannelExtractor {
  import opened Wrappers
  import opened Upstream

  /** The row `extract_channel_data` builds. */
  datatype ChannelRecord = ChannelRecord(
    channelId: string,
    channelName: string,
    subscriberCount: nat,
    totalVideos: nat,
    totalViews: nat,
    description: string,
    creationDate: string,
    thumbnailUrl: string)

  /** The keys the row requires. */
  const RequiredKeys: set<string> := {"title", "videoCount", "viewCount", "description", "publishedAt", HighVariant}

  /** The item carries every key the row requires. */
  predicate HasRequiredKeys(item: ChannelItem) {
    && !ChannelKeyMissing(item, "title")
    && !ChannelKeyMissing(item, "videoCount")
    && !ChannelKeyMissing(item, "viewCount")
    && !ChannelKeyMissing(item, "description")
    && !ChannelKeyMissing(item, "publishedAt")
    && !ChannelKeyMissing(item, HighVariant)
  }

  /** The first required key the dictionary literal reads and finds missing. */
  function FirstMissingKey(item: ChannelItem): (key: string)
    requires !HasRequiredKeys(item)
    ensures key in RequiredKeys && ChannelKeyMissing(item, key)
    ensures key != "title" ==> item.snippet.title.Some?
    ensures key !in {"title", "videoCount"} ==> item.statistics.videoCount.Some?
    ensures key !in {"title", "videoCount", "viewCount"} ==> item.statistics.viewCount.Some?
    ensures key !in {"title", "videoCount", "viewCount", "description"} ==> item.snippet.description.Some?
    ensures key == HighVariant ==> item.snippet.publishedAt.Some?
  {
    if item.snippet.title.None? then "title"
    else if item.statistics.videoCount.None? then "videoCount"
    else if item.statistics.viewCount.None? then "viewCount"
    else if item.snippet.description.None? then "description"
    else if item.snippet.publishedAt.None? then "publishedAt"
    else HighVariant
  }

  /** The row for one item; `channelId` is the caller's argument. */
  function ChannelRow(channelId: string, item: ChannelItem): (r: Result<ChannelRecord, Failure>)
    ensures r.Success? <==> HasRequiredKeys(item)
    ensures r.Failure? ==> r.error.KeyError? && r.error.key in RequiredKeys && ChannelKeyMissing(item, r.error.key)
    ensures r.Failure? ==> r.error == KeyError(FirstMissingKey(item))
    ensures r.Success? ==> r.value.channelId == channelId
    ensures r.Success? ==> r.value.subscriberCount == item.statistics.subscriberCount.GetOr(0)
    ensures r.Success? ==> HighVariant in item.snippet.thumbnails && r.value.thumbnailUrl == item.snippet.thumbnails[HighVariant]
    ensures r.Success? ==>
              && Some(r.value.channelName) == item.snippet.title
              && Some(r.value.totalVideos) == item.statistics.videoCount
              && Some(r.value.totalViews) == item.statistics.viewCount
              && Some(r.value.description) == item.snippet.description
              && Some(r.value.creationDate) == item.snippet.publishedAt
  {
    var name :- Required(item.snippet.title, "title");
    var videos :- Required(item.statistics.videoCount, "videoCount");
    var views :- Required(item.statistics.viewCount, "viewCount");
    var description :- Required(item.snippet.description, "description");
    var created :- Required(item.snippet.publishedAt, "publishedAt");
    var thumbnail :- HighThumbnail(item.snippet.thumbnails);
    Success(ChannelRecord(
      channelId, name, item.statistics.subscriberCount.GetOr(0),
      videos, views, description, created, thumbnail))
  }

  /** The request issued and what came back: `Success(None)` is the source's
      `None`, `Success(Some(rows))` its table, a `Failure` an escaping exception. */
  datatype Extraction = Extraction(request: ChannelsRequest, outcome: Result<Option<seq<ChannelRecord>>, Failure>)

  /** `extract_channel_data`. */
  function ExtractChannelData(channelId: string, lookup: ChannelsRequest -> Reply<ChannelListPage>): (r: Extraction)
    ensures r.request == ChannelLookup(channelId)
    ensures lookup(r.request).Failure? ==> r.outcome == Success(None)
    ensures lookup(r.request).Success? && lookup(r.request).value.items == [] ==> r.outcome == Success(None)
    ensures r.outcome.Failure? ==> r.outcome.error.KeyError?
    ensures lookup(r.request).Success? && |lookup(r.request).value.items| > 0
            && ChannelRow(channelId, lookup(r.request).value.items[0]).Success? ==>
              r.outcome == Success(Some([ChannelRow(channelId, lookup(r.request).value.items[0]).value]))
    ensures lookup(r.request).Success? && |lookup(r.request).value.items| > 0
            && ChannelRow(channelId, lookup(r.request).value.items[0]).Failure? ==>
              r.outcome == Failure(ChannelRow(channelId, lookup(r.request).value.items[0]).error)
    ensures r.outcome.Success? && r.outcome.value.Some? ==>
              && lookup(r.request).Success?
              && |lookup(r.request).value.items| > 0
              && ChannelRow(channelId, lookup(r.request).value.items[0]).Success?
              && r.outcome.value.value == [ChannelRow(channelId, lookup(r.request).value.items[0]).value]
  {
    var request := ChannelLookup(channelId);
    match lookup(request)
    case Failure(_) => Extraction(request, Success(None))
    case Success(page) =>
      if |page.items| == 0 then Extraction(request, Success(None))
      else
        match ChannelRow(channelId, page.items[0])
        case Success(row) => Extraction(request, Success(Some([row])))
        case Failure(e) => Extraction(request, Failure(e))
  }

  /** Only the first item matters: items after it never change the result. */
  lemma OnlyFirstItemUsed(channelId: string, lookup: ChannelsRequest -> Reply<ChannelListPage>,
                          lookup': ChannelsRequest -> Reply<ChannelListPage>)
    requires lookup(ChannelLookup(channelId)).Success? && lookup'(ChannelLookup(channelId)).Success?
    requires |lookup(ChannelLookup(channelId)).value.items| > 0
    requires |lookup'(ChannelLookup(channelId)).value.items| > 0
    requires lookup(ChannelLookup(channelId)).value.items[0] == lookup'(ChannelLookup(channelId)).value.items[0]
    ensures ExtractChannelData(channelId, lookup) == ExtractChannelData(channelId, lookup')
  {
  }
}
