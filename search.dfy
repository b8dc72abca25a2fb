/** The browser-side search resolver: raw provider items are normalised
    into tracks, a fixed list of Piped instances is tried in order, and
    the chain ends with the YouTube Data API and a built-in list of five
    tracks. Every provider call is replaced by its outcome, passed in as a
    parameter. */
module Search {
  import opened Media
  import opened Text

  /** An item of a Piped search reply: its `type`, `url`, `title`,
      `uploaderName` and `thumbnail` fields, each possibly absent. */
  datatype RawItem = RawItem(
    kind: string,
    url: Option<string>,
    title: Option<string>,
    uploaderName: Option<string>,
    thumbnail: Option<string>)

  /** What one Piped instance gives: nothing usable (a network error, a
      timeout, a non-ok status or a body that is not JSON), or a parsed
      body whose `items` list may be empty (an absent list counts as
      empty). */
  datatype Reply = Unreachable | Answered(items: seq<RawItem>)

  /** A YouTube Data API search hit. */
  datatype ApiItem = ApiItem(videoId: string, title: string, channelTitle: string, thumbnailUrl: string)

  /** The Data API's outcome: unreachable, or a body with an `error` flag
      and a possibly absent `items` list. */
  datatype ApiReply = ApiUnreachable | ApiAnswered(error: bool, items: Option<seq<ApiItem>>)

  /** The same-origin proxy's outcome: a failure (including a non-ok
      status) or the JSON list it returned. */
  datatype ProxyReply = ProxyFailed | ProxyAnswered(tracks: seq<Track>)

  /** Where the page runs: any host other than localhost and 127.0.0.1 is
      production. */
  datatype Host = Production | Development

  const PipedInstances: seq<string> := [
    "https://pipedapi.kavin.rocks",
    "https://pipedapi.adminforge.de",
    "https://pipedapi.in.projectsegfau.lt"
  ]

  const MaxResults := 15
  const WatchPrefix := "/watch?v="
  const ThumbnailBase := "https://img.youtube.com/vi/"
  const ThumbnailSuffix := "/default.jpg"
  const PlaceholderKey := "YOUR_YOUTUBE_API_KEY"

  /** The built-in result list. */
  const Fallback: seq<Track> := [
    Track("dQw4w9WgXcQ", "Never Gonna Give You Up", "Rick Astley", "https://img.youtube.com/vi/dQw4w9WgXcQ/default.jpg"),
    Track("kJQP7kiw5Fk", "Despacito", "Luis Fonsi", "https://img.youtube.com/vi/kJQP7kiw5Fk/default.jpg"),
    Track("JGwWNGJdvx8", "Shape of You", "Ed Sheeran", "https://img.youtube.com/vi/JGwWNGJdvx8/default.jpg"),
    Track("OPf0YbXqDm0", "Uptown Funk", "Bruno Mars", "https://img.youtube.com/vi/OPf0YbXqDm0/default.jpg"),
    Track("RgKAFK5djSk", "See You Again", "Wiz Khalifa ft. Charlie Puth", "https://img.youtube.com/vi/RgKAFK5djSk/default.jpg")
  ]

  // ---------------------------------------------------------------------
  // Normalisation
  // ---------------------------------------------------------------------

  /** JavaScript's `v || fallback` on an optional string: an absent or
      empty value gives the fallback. */
  function OrElse(v: Option<string>, fallback: string): (r: string)
    ensures v.Some? && v.value != "" ==> r == v.value
    ensures v.None? || v.value == "" ==> r == fallback
  {
    if v.Some? && v.value != "" then v.value else fallback
  }

  /** `url?.replace('/watch?v=', '')`. */
  function VideoId(url: Option<string>): (r: Option<string>)
    ensures r.None? <==> url.None?
    ensures url.Some? && StartsWith(url.value, WatchPrefix) ==> r == Some(url.value[|WatchPrefix|..])
  {
    if url.Some? then
      if StartsWith(url.value, WatchPrefix) then RemoveFirstOfPrefix(url.value, WatchPrefix); Some(RemoveFirst(url.value, WatchPrefix))
      else Some(RemoveFirst(url.value, WatchPrefix))
    else None
  }

  /** A raw item as a track: the id from the url, 'Unknown' and 'Unknown
      Artist' for a missing title and uploader, and a thumbnail derived
      from the url when none is given (the template renders an absent url
      as the text "undefined"). */
  function Normalised(i: RawItem): (t: Track)
    ensures t.id == OrElse(VideoId(i.url), "")
    ensures t.title == OrElse(i.title, "Unknown") && t.artist == OrElse(i.uploaderName, "Unknown Artist")
    ensures i.thumbnail.Some? && i.thumbnail.value != "" ==> t.thumbnail == i.thumbnail.value
    ensures (i.thumbnail.None? || i.thumbnail.value == "") && i.url.Some? ==>
              t.thumbnail == ThumbnailBase + VideoId(i.url).value + ThumbnailSuffix
    ensures (i.thumbnail.None? || i.thumbnail.value == "") && i.url.None? ==>
              t.thumbnail == ThumbnailBase + "undefined" + ThumbnailSuffix
  {
    var vid := VideoId(i.url);
    var derived := ThumbnailBase + (if vid.Some? then vid.value else "undefined") + ThumbnailSuffix;
    Track(OrElse(vid, ""), OrElse(i.title, "Unknown"), OrElse(i.uploaderName, "Unknown Artist"), OrElse(i.thumbnail, derived))
  }

  /** An item with a watch url and no thumbnail gets the video id as its
      id and the standard thumbnail of that video. */
  lemma NormalisedWatchUrl(i: RawItem, v: string)
    requires i.url == Some(WatchPrefix + v) && v != ""
    requires i.thumbnail.None? || i.thumbnail == Some("")
    ensures Normalised(i).id == v
    ensures Normalised(i).thumbnail == ThumbnailBase + v + ThumbnailSuffix
  {
    assert StartsWith(i.url.value, WatchPrefix);
    assert i.url.value[|WatchPrefix|..] == v;
  }

  /** The items whose type is `stream`, in order. */
  function Streams(items: seq<RawItem>): (r: seq<RawItem>)
    ensures |r| <= |items|
    ensures forall k :: 0 <= k < |r| ==> r[k].kind == "stream"
    ensures forall x :: x in r <==> x in items && x.kind == "stream"
    decreases |items|
  {
    if items == [] then []
    else if items[0].kind == "stream" then [items[0]] + Streams(items[1..])
    else
      assert forall x :: x in items <==> x == items[0] || x in items[1..];
      Streams(items[1..])
  }

  /** Streams only, at most fifteen, each normalised, in order. */
  function Converted(items: seq<RawItem>): (r: seq<Track>)
    ensures |r| == if |Streams(items)| < MaxResults then |Streams(items)| else MaxResults
    ensures forall k :: 0 <= k < |r| ==> r[k] == Normalised(Streams(items)[k])
  {
    var s := Streams(items);
    var kept := if |s| < MaxResults then s else s[..MaxResults];
    seq(|kept|, k requires 0 <= k < |kept| => Normalised(kept[k]))
  }

  lemma ConvertedBounded(items: seq<RawItem>)
    ensures |Converted(items)| <= MaxResults && |Converted(items)| <= |items|
    ensures Converted(items) == [] <==> Streams(items) == []
  {
  }

  // ---------------------------------------------------------------------
  // The Piped instance chain
  // ---------------------------------------------------------------------

  /** A reply that stops the chain: a parsed body with at least one item. */
  predicate Usable(r: Reply)
  {
    r.Answered? && |r.items| > 0
  }

  /** The chain over the instances' replies, in order: the first usable
      reply decides, even when it holds no streams; none usable gives
      nothing. */
  function PipedChain(replies: seq<Reply>): (r: Option<seq<Track>>)
    ensures r.None? <==> forall k :: 0 <= k < |replies| ==> !Usable(replies[k])
    ensures r.Some? ==> |r.value| <= MaxResults
    decreases |replies|
  {
    if replies == [] then None
    else if Usable(replies[0]) then ConvertedBounded(replies[0].items); Some(Converted(replies[0].items))
    else
      var rest := PipedChain(replies[1..]);
      assert forall k :: 1 <= k < |replies| ==> replies[k] == replies[1..][k - 1];
      rest
  }

  /** The first usable reply wins: nothing after it matters. */
  lemma {:induction false} PipedChainFirstWins(replies: seq<Reply>, k: nat)
    requires k < |replies| && Usable(replies[k])
    requires forall j :: 0 <= j < k ==> !Usable(replies[j])
    ensures PipedChain(replies) == Some(Converted(replies[k].items))
    decreases k
  {
    if k > 0 {
      PipedChainFirstWins(replies[1..], k - 1);
    }
  }

  /** `searchPipedDirect(query)`: tries the instances in order and stops at
      the first usable reply. `replies[k]` is what instance k would give;
      `tried` counts the instances contacted. */
  method SearchPipedDirect(replies: seq<Reply>) returns (r: Option<seq<Track>>, tried: nat)
    requires |replies| == |PipedInstances|
    ensures r == PipedChain(replies)
    ensures 1 <= tried <= |replies|
    ensures forall j :: 0 <= j < tried - 1 ==> !Usable(replies[j])
    ensures r.Some? <==> Usable(replies[tried - 1])
  {
    var i := 0;
    while i < |PipedInstances|
      invariant 0 <= i <= |replies|
      invariant forall j :: 0 <= j < i ==> !Usable(replies[j])
    {
      var reply := replies[i];
      if reply.Answered? && |reply.items| > 0 {
        PipedChainFirstWins(replies, i);
        return Some(Converted(reply.items)), i + 1;
      }
      i := i + 1;
    }
    return None, |replies|;
  }

  // ---------------------------------------------------------------------
  // The proxy and the Data API
  // ---------------------------------------------------------------------

  /** `searchProxy(query)`: a non-empty list from the proxy, else nothing. */
  function ProxyResult(p: ProxyReply): (r: Option<seq<Track>>)
    ensures r.Some? <==> p.ProxyAnswered? && |p.tracks| > 0
    ensures r.Some? ==> r.value == p.tracks
  {
    if p.ProxyAnswered? && |p.tracks| > 0 then Some(p.tracks) else None
  }

  /** A key that is set, non-empty and not the template placeholder. */
  predicate KeyUsable(key: Option<string>)
  {
    key.Some? && key.value != "" && key.value != PlaceholderKey
  }

  /** A Data API hit as a track. */
  function ApiTrack(i: ApiItem): (t: Track)
    ensures t.id == i.videoId && t.title == i.title && t.artist == i.channelTitle && t.thumbnail == i.thumbnailUrl
  {
    Track(i.videoId, i.title, i.channelTitle, i.thumbnailUrl)
  }

  /** The Data API's tracks: every hit, in order, when the body has no
      error and has an items list (possibly empty). */
  function ApiResult(a: ApiReply): (r: Option<seq<Track>>)
    ensures r.Some? <==> a.ApiAnswered? && !a.error && a.items.Some?
    ensures r.Some? ==> |r.value| == |a.items.value|
    ensures r.Some? ==> forall k :: 0 <= k < |r.value| ==> r.value[k] == ApiTrack(a.items.value[k])
  {
    if a.ApiAnswered? && !a.error && a.items.Some? then
      Some(seq(|a.items.value|, k requires 0 <= k < |a.items.value| => ApiTrack(a.items.value[k])))
    else None
  }

  // ---------------------------------------------------------------------
  // searchYouTube
  // ---------------------------------------------------------------------

  /** The result of `searchYouTube(query)`. A blank query gives the
      built-in list at once. In production the proxy's non-empty list, else
      the built-in list. In development the Piped chain; when it has
      nothing, the Data API if a real key is configured; else the
      built-in list. */
  function SearchResult(query: string, host: Host, key: Option<string>, proxy: ProxyReply,
                        piped: seq<Reply>, api: ApiReply): (r: seq<Track>)
    ensures IsBlank(query) ==> r == Fallback
    ensures !IsBlank(query) && host.Production? ==>
              r == (if ProxyResult(proxy).Some? then proxy.tracks else Fallback)
    ensures !IsBlank(query) && host.Development? && PipedChain(piped).Some? ==> r == PipedChain(piped).value
    ensures !IsBlank(query) && host.Development? && PipedChain(piped).None? && KeyUsable(key) && ApiResult(api).Some? ==>
              r == ApiResult(api).value
    ensures !IsBlank(query) && host.Development? && PipedChain(piped).None? && !(KeyUsable(key) && ApiResult(api).Some?) ==>
              r == Fallback
  {
    if Trim(query) == [] then TrimEmptyIffBlank(query); Fallback
    else if host.Production? then
      TrimEmptyIffBlank(query);
      match ProxyResult(proxy)
      case Some(tracks) => tracks
      case None => Fallback
    else
      TrimEmptyIffBlank(query);
      match PipedChain(piped)
      case Some(tracks) => tracks
      case None =>
        if KeyUsable(key) && ApiResult(api).Some? then ApiResult(api).value else Fallback
  }

  /** `searchYouTube(query)` with every provider's outcome given. */
  method SearchYouTube(query: string, host: Host, key: Option<string>, proxy: ProxyReply,
                       piped: seq<Reply>, api: ApiReply) returns (r: seq<Track>)
    requires |piped| == |PipedInstances|
    ensures r == SearchResult(query, host, key, proxy, piped, api)
  {
    TrimEmptyIffBlank(query);
    if |query| == 0 || |Trim(query)| == 0 {
      return Fallback;
    }
    if host.Production? {
      var results := ProxyResult(proxy);
      if results.Some? {
        return results.value;
      }
      return Fallback;
    }
    var pipedResults, _ := SearchPipedDirect(piped);
    if pipedResults.Some? {
      return pipedResults.value;
    }
    if KeyUsable(key) {
      var apiResults := ApiResult(api);
      if apiResults.Some? {
        return apiResults.value;
      }
    }
    return Fallback;
  }

  /** Production never shows an empty list. */
  lemma ProductionNeverEmpty(query: string, key: Option<string>, proxy: ProxyReply, piped: seq<Reply>, api: ApiReply)
    ensures |SearchResult(query, Production, key, proxy, piped, api)| > 0
  {
  }

  /** In development, a first usable reply without streams ends the chain
      with an empty list: no later instance, no Data API, no built-in
      list. */
  lemma StreamlessReplyEndsChain(query: string, key: Option<string>, proxy: ProxyReply,
                                 piped: seq<Reply>, api: ApiReply, k: nat)
    requires !IsBlank(query)
    requires k < |piped| && Usable(piped[k]) && Streams(piped[k].items) == []
    requires forall j :: 0 <= j < k ==> !Usable(piped[j])
    ensures SearchResult(query, Development, key, proxy, piped, api) == []
  {
    PipedChainFirstWins(piped, k);
    ConvertedBounded(piped[k].items);
  }

  /** Without a real key the Data API's outcome never matters. */
  lemma ApiNeedsKey(query: string, host: Host, key: Option<string>, proxy: ProxyReply,
                    piped: seq<Reply>, api1: ApiReply, api2: ApiReply)
    requires !KeyUsable(key)
    ensures SearchResult(query, host, key, proxy, piped, api1) == SearchResult(query, host, key, proxy, piped, api2)
  {
  }

  /** In development, with no usable instance and no Data API answer,
      the built-in list is shown. */
  lemma DevelopmentExhaustion(query: string, key: Option<string>, proxy: ProxyReply, piped: seq<Reply>, api: ApiReply)
    requires forall k :: 0 <= k < |piped| ==> !Usable(piped[k])
    requires !KeyUsable(key) || ApiResult(api).None?
    ensures SearchResult(query, Development, key, proxy, piped, api) == Fallback
  {
  }

  // ---------------------------------------------------------------------
  // Suggestions
  // ---------------------------------------------------------------------

  /** An entry of the suggestion service's list; only its first element,
      the suggested text, is used. */
  datatype SuggestEntry = SuggestEntry(text: string)

  /** The suggestion service's outcome once the wrapper is stripped: a
      failure (network or parse), or a parsed array whose second element
      may be absent. */
  datatype SuggestReply = SuggestFailed | SuggestParsed(entries: Option<seq<SuggestEntry>>)

  /** The proxy's suggestion outcome: a failure or non-ok status, or the
      list it returned. */
  datatype SuggestProxyReply = SuggestProxyFailed | SuggestProxyAnswered(list: seq<string>)

  const MaxSuggestions := 8

  /** `data[1].map(s => s[0]).slice(0, 8)`. */
  function Suggestions(entries: seq<SuggestEntry>): (r: seq<string>)
    ensures |r| == if |entries| < MaxSuggestions then |entries| else MaxSuggestions
    ensures forall k :: 0 <= k < |r| ==> r[k] == entries[k].text
  {
    var kept := if |entries| < MaxSuggestions then entries else entries[..MaxSuggestions];
    seq(|kept|, k requires 0 <= k < |kept| => kept[k].text)
  }

  /** What the suggestion service's outcome yields: the suggestions when
      the second element is there, otherwise none. */
  function SuggestionsOf(reply: SuggestReply): (r: seq<string>)
    ensures |r| <= MaxSuggestions
    ensures reply.SuggestParsed? && reply.entries.Some? ==> r == Suggestions(reply.entries.value)
    ensures !(reply.SuggestParsed? && reply.entries.Some?) ==> r == []
  {
    if reply.SuggestParsed? && reply.entries.Some? then Suggestions(reply.entries.value) else []
  }

  /** `getSuggestions(query)`: none for a blank query; in production what
      the proxy returned (none on failure); in development the service's
      suggestions. */
  function GetSuggestions(query: string, host: Host, proxy: SuggestProxyReply, direct: SuggestReply): (r: seq<string>)
    ensures IsBlank(query) ==> r == []
    ensures !IsBlank(query) && host.Development? ==> r == SuggestionsOf(direct)
    ensures !IsBlank(query) && host.Production? ==> r == (if proxy.SuggestProxyAnswered? then proxy.list else [])
  {
    TrimEmptyIffBlank(query);
    if Trim(query) == [] then []
    else if host.Production? then
      if proxy.SuggestProxyAnswered? then proxy.list else []
    else SuggestionsOf(direct)
  }
}
