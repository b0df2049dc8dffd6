/** Channel resolution and the channel summary of the API wrapper. The search
    and channel-lookup endpoints are functions from request to reply; each
    operation also reports the requests it issued. */
module YoutubeApi {
  import opened Wrappers
  import opened Upstream

  /** The prefix of a canonical channel id. */
  const ChannelIdPrefix: string := "UC"
  /** The marker of a handle such as "@name". */
  const HandleMarker: string := "@"

  /** The input with one leading handle marker removed. */
  function StripHandle(input: string): (s: string)
    ensures StartsWith(input, HandleMarker) ==> HandleMarker + s == input
    ensures !StartsWith(input, HandleMarker) ==> s == input
  {
    if StartsWith(input, HandleMarker) then input[1..] else input
  }

  /** The search that resolves a handle or a name: channel hits only, at most one. */
  function ChannelSearch(query: string): (req: SearchRequest)
    ensures req.q == Some(query) && req.kind == "channel" && req.maxResults == 1
    ensures req.channelId == None && req.pageToken == None
  {
    SearchRequest("snippet", None, Some(query), "channel", 1, None)
  }

  /** What resolution issued and what it returned: `Success(None)` is the
      source's `None`, a `Failure` an exception it lets escape. */
  datatype Resolution = Resolution(search: Option<SearchRequest>, outcome: Result<Option<string>, Failure>)

  /** `resolve_to_channel_id`. */
  function ResolveToChannelId(input: string, search: SearchRequest -> Reply<SearchPage>): (r: Resolution)
    ensures StartsWith(input, ChannelIdPrefix) <==> r.search.None?
    ensures StartsWith(input, ChannelIdPrefix) ==> r.outcome == Success(Some(input))
    ensures r.search.Some? ==> r.search == Some(ChannelSearch(StripHandle(input)))
    ensures r.search.Some? && search(r.search.value).Failure? ==> r.outcome == Success(None)
    ensures r.search.Some? && search(r.search.value).Success? && search(r.search.value).value.items == [] ==>
              r.outcome == Success(None)
    ensures r.search.Some? && search(r.search.value).Success? && |search(r.search.value).value.items| > 0
            && search(r.search.value).value.items[0].channelId.Some? ==>
              r.outcome == Success(search(r.search.value).value.items[0].channelId)
    ensures r.search.Some? && search(r.search.value).Success? && |search(r.search.value).value.items| > 0
            && search(r.search.value).value.items[0].channelId.None? ==>
              r.outcome == Failure(KeyError("channelId"))
    ensures r.outcome.Failure? ==> r.outcome.error == KeyError("channelId")
    ensures r.outcome.Success? && r.outcome.value.Some? ==>
              if r.search.None? then r.outcome.value.value == input
              else search(r.search.value).Success? && |search(r.search.value).value.items| > 0
                   && search(r.search.value).value.items[0].channelId == r.outcome.value
  {
    if StartsWith(input, ChannelIdPrefix) then Resolution(None, Success(Some(input)))
    else
      var request := ChannelSearch(StripHandle(input));
      match search(request)
      case Failure(_) => Resolution(Some(request), Success(None))
      case Success(page) =>
        if |page.items| == 0 then Resolution(Some(request), Success(None))
        else
          var id := Required(page.items[0].channelId, "channelId");
          match id
          case Success(c) => Resolution(Some(request), Success(Some(c)))
          case Failure(e) => Resolution(Some(request), Failure(e))
  }

  /** A canonical id resolves to itself whatever the search endpoint would say. */
  lemma ChannelIdNeedsNoSearch(input: string, search: SearchRequest -> Reply<SearchPage>, search': SearchRequest -> Reply<SearchPage>)
    requires StartsWith(input, ChannelIdPrefix)
    ensures ResolveToChannelId(input, search) == ResolveToChannelId(input, search')
    ensures ResolveToChannelId(input, search).outcome == Success(Some(input))
  {
  }

  /** Exactly one handle marker is removed, and only after the channel-id test:
      "@UC..." is searched for, as "UC...". */
  lemma HandleMarkerStrippedOnce(rest: string, search: SearchRequest -> Reply<SearchPage>)
    ensures ResolveToChannelId(HandleMarker + rest, search).search == Some(ChannelSearch(rest))
  {
    var input := HandleMarker + rest;
    assert !StartsWith(input, ChannelIdPrefix) by {
      if |input| >= |ChannelIdPrefix| {
        assert input[..|ChannelIdPrefix|][0] == '@' != ChannelIdPrefix[0];
      }
    }
    assert input[1..] == rest;
  }

  /** The summary `get_channel_details` builds from a channel's first item. */
  datatype ChannelSummary = ChannelSummary(
    name: string,         // "Channel Name"
    subscribers: nat,     // "Subscribers"
    totalViews: nat,      // "Total Views"
    totalVideos: nat)     // "Total Videos"

  /** The three shapes of the source's return value: `None`, the summary
      dictionary, or `{"error": message}`. */
  datatype Details = NoChannel | Summary(summary: ChannelSummary) | ErrorReport(message: string)

  /** What `get_channel_details` issued and returned. */
  datatype DetailsRun = DetailsRun(search: Option<SearchRequest>, lookup: Option<ChannelsRequest>, details: Details)

  /** The summary of one item, reading keys in the order the dictionary literal does. */
  function Summarize(item: ChannelItem): (r: Result<ChannelSummary, Failure>)
    ensures r.Success? <==> !ChannelKeyMissing(item, "title") && !ChannelKeyMissing(item, "viewCount")
                            && !ChannelKeyMissing(item, "videoCount")
    ensures r.Failure? ==> r.error.KeyError? && ChannelKeyMissing(item, r.error.key)
    ensures r.Failure? && item.snippet.title.None? ==> r.error == KeyError("title")
    ensures r.Failure? && item.snippet.title.Some? && item.statistics.viewCount.None? ==> r.error == KeyError("viewCount")
    ensures r.Failure? && item.snippet.title.Some? && item.statistics.viewCount.Some? ==> r.error == KeyError("videoCount")
    ensures r.Success? ==> r.value.name == item.snippet.title.value
    ensures r.Success? ==> r.value.subscribers == item.statistics.subscriberCount.GetOr(0)
    ensures r.Success? ==> r.value.totalViews == item.statistics.viewCount.value
    ensures r.Success? ==> r.value.totalVideos == item.statistics.videoCount.value
  {
    var name :- Required(item.snippet.title, "title");
    var views :- Required(item.statistics.viewCount, "viewCount");
    var videos :- Required(item.statistics.videoCount, "videoCount");
    Success(ChannelSummary(name, item.statistics.subscriberCount.GetOr(0), views, videos))
  }

  /** `get_channel_details`: resolve, look the channel up, summarise its first item. */
  function GetChannelDetails(
      input: string,
      search: SearchRequest -> Reply<SearchPage>,
      lookup: ChannelsRequest -> Reply<ChannelListPage>): (r: DetailsRun)
    ensures r.search == ResolveToChannelId(input, search).search
    ensures var resolved := ResolveToChannelId(input, search).outcome;
      && (resolved.Failure? ==> r == DetailsRun(r.search, None, ErrorReport(Describe(resolved.error))))
      && (resolved.Success? && !Truthy(resolved.value) ==> r == DetailsRun(r.search, None, NoChannel))
      && (resolved.Success? && Truthy(resolved.value) ==> r.lookup == Some(ChannelLookup(resolved.value.value)))
    ensures r.lookup.Some? && lookup(r.lookup.value).Failure? ==>
              r.details == ErrorReport("HTTP Error: " + lookup(r.lookup.value).error)
    ensures r.lookup.Some? && lookup(r.lookup.value).Success? && lookup(r.lookup.value).value.items == [] ==>
              r.details == NoChannel
    ensures r.lookup.Some? && lookup(r.lookup.value).Success? && |lookup(r.lookup.value).value.items| > 0
            && Summarize(lookup(r.lookup.value).value.items[0]).Failure? ==>
              r.details == ErrorReport("'" + Summarize(lookup(r.lookup.value).value.items[0]).error.key + "'")
    ensures r.lookup.Some? && lookup(r.lookup.value).Success? && |lookup(r.lookup.value).value.items| > 0
            && Summarize(lookup(r.lookup.value).value.items[0]).Success? ==>
              r.details == Summary(Summarize(lookup(r.lookup.value).value.items[0]).value)
    ensures r.details.Summary? ==>
              && r.lookup.Some? && lookup(r.lookup.value).Success?
              && |lookup(r.lookup.value).value.items| > 0
              && Summarize(lookup(r.lookup.value).value.items[0]) == Success(r.details.summary)
  {
    var resolution := ResolveToChannelId(input, search);
    match resolution.outcome
    case Failure(e) => DetailsRun(resolution.search, None, ErrorReport(Describe(e)))
    case Success(channelId) =>
      if !Truthy(channelId) then DetailsRun(resolution.search, None, NoChannel)
      else
        var request := ChannelLookup(channelId.value);
        var details :=
          match lookup(request)
          case Failure(detail) => ErrorReport("HTTP Error: " + Describe(HttpError(detail)))
          case Success(page) =>
            if |page.items| == 0 then NoChannel
            else
              match Summarize(page.items[0])
              case Success(summary) => Summary(summary)
              case Failure(e) => ErrorReport(Describe(e));
        DetailsRun(resolution.search, Some(request), details)
  }
}
