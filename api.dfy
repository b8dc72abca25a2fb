/** The two serverless endpoints behind the production site: the search
    proxy, which runs the same Piped chain and Data API step as the
    browser but ends in an empty list, and the suggestion proxy. Each
    handler is a function from the request's `q` parameter and the
    upstream outcomes to a response. */
module Api {
  import opened Media
  import opened Text
  import opened Search

  datatype Body = ErrorBody(error: string) | TrackList(tracks: seq<Track>) | TextList(texts: seq<string>)

  datatype Response = Response(status: nat, headers: seq<(string, string)>, body: Body)

  /** The cross-origin headers both handlers set before anything else. */
  const Cors: seq<(string, string)> := [
    ("Access-Control-Allow-Origin", "*"),
    ("Access-Control-Allow-Methods", "GET")
  ]

  const MissingQuery := "Missing query parameter q"

  /** `!q`: the parameter is absent or empty. */
  predicate MissingQ(q: Option<string>)
  {
    q.None? || q.value == ""
  }

  /** The search endpoint's response. A missing `q` is a 400; otherwise
      the first usable Piped reply (possibly with no streams) is a 200 with
      its tracks; failing that the Data API's tracks when a real key is
      configured; failing that a 200 with an empty list. */
  function SearchResponse(q: Option<string>, piped: seq<Reply>, key: Option<string>, api: ApiReply): (r: Response)
    ensures r.headers == Cors
    ensures MissingQ(q) ==> r.status == 400 && r.body == ErrorBody(MissingQuery)
    ensures !MissingQ(q) ==> r.status == 200 && r.body.TrackList?
    ensures !MissingQ(q) && PipedChain(piped).Some? ==> r.body.tracks == PipedChain(piped).value
    ensures !MissingQ(q) && PipedChain(piped).None? && KeyUsable(key) && ApiResult(api).Some? ==>
              r.body.tracks == ApiResult(api).value
    ensures !MissingQ(q) && PipedChain(piped).None? && !(KeyUsable(key) && ApiResult(api).Some?) ==> r.body.tracks == []
  {
    if MissingQ(q) then Response(400, Cors, ErrorBody(MissingQuery))
    else match PipedChain(piped)
      case Some(tracks) => Response(200, Cors, TrackList(tracks))
      case None =>
        if KeyUsable(key) && ApiResult(api).Some? then Response(200, Cors, TrackList(ApiResult(api).value))
        else Response(200, Cors, TrackList([]))
  }

  /** The search handler, running the instance loop. */
  method SearchHandler(q: Option<string>, piped: seq<Reply>, key: Option<string>, api: ApiReply) returns (r: Response)
    requires |piped| == |PipedInstances|
    ensures r == SearchResponse(q, piped, key, api)
  {
    if MissingQ(q) {
      return Response(400, Cors, ErrorBody(MissingQuery));
    }
    var results, _ := SearchPipedDirect(piped);
    if results.Some? {
      return Response(200, Cors, TrackList(results.value));
    }
    if KeyUsable(key) {
      var apiResults := ApiResult(api);
      if apiResults.Some? {
        return Response(200, Cors, TrackList(apiResults.value));
      }
    }
    return Response(200, Cors, TrackList([]));
  }

  /** The suggestion endpoint's response: 400 for a missing `q`; otherwise
      a 200 with at most eight suggestions, an empty list when the second
      element is absent or anything failed. */
  function SuggestResponse(q: Option<string>, upstream: SuggestReply): (r: Response)
    ensures r.headers == Cors
    ensures MissingQ(q) ==> r.status == 400 && r.body == ErrorBody(MissingQuery)
    ensures !MissingQ(q) ==> r.status == 200 && r.body == TextList(SuggestionsOf(upstream))
    ensures !MissingQ(q) ==> |r.body.texts| <= MaxSuggestions
    ensures !MissingQ(q) && upstream.SuggestFailed? ==> r.body.texts == []
  {
    if MissingQ(q) then Response(400, Cors, ErrorBody(MissingQuery))
    else Response(200, Cors, TextList(SuggestionsOf(upstream)))
  }

  // ---------------------------------------------------------------------
  // The browser's production path over these endpoints
  // ---------------------------------------------------------------------

  /** How the browser reads a search response: an ok status with a list,
      or a failure. */
  function AsProxyReply(resp: Response): (p: ProxyReply)
    ensures p.ProxyAnswered? <==> 200 <= resp.status < 300 && resp.body.TrackList?
  {
    if 200 <= resp.status < 300 && resp.body.TrackList? then ProxyAnswered(resp.body.tracks) else ProxyFailed
  }

  function AsSuggestProxyReply(resp: Response): (p: SuggestProxyReply)
    ensures p.SuggestProxyAnswered? <==> 200 <= resp.status < 300 && resp.body.TextList?
  {
    if 200 <= resp.status < 300 && resp.body.TextList? then SuggestProxyAnswered(resp.body.texts) else SuggestProxyFailed
  }

  /** Searching in production through the endpoint gives what development
      gives with the same upstream outcomes, except that where development
      shows an empty list production shows the built-in list. The two
      sides do not in fact see the same Data API outcome: the endpoint
      reads its key from the server's environment and restricts its query
      to the music category (`videoCategoryId=10`), while the browser
      uses its build-time key and no category. Here `key` and `api` stand
      for both, so the lemma compares the two paths' logic, not the
      answers the two requests would get. */
  lemma ProductionMatchesDevelopment(query: string, piped: seq<Reply>, key: Option<string>, api: ApiReply, proxy: ProxyReply)
    requires !IsBlank(query)
    ensures var dev := SearchResult(query, Development, key, proxy, piped, api);
            SearchResult(query, Production, key, AsProxyReply(SearchResponse(Some(query), piped, key, api)), piped, api)
              == (if dev == [] then Fallback else dev)
  {
    assert query != "";
  }

  /** Suggestions in production through the endpoint equal the suggestions
      development reads from the service directly. */
  lemma SuggestionsAgree(query: string, upstream: SuggestReply, proxy: SuggestProxyReply)
    requires !IsBlank(query)
    ensures GetSuggestions(query, Production, AsSuggestProxyReply(SuggestResponse(Some(query), upstream)), upstream)
              == GetSuggestions(query, Development, proxy, upstream)
  {
    assert query != "";
  }
}
