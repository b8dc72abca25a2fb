/** The display: which screen component a menu id selects, how the
    generic list draws its rows, and the name field that creates a
    playlist. */
module Routing {
  import opened Media
  import opened Text
  import opened Navigation

  datatype View =
    | LoadingView
    | NowPlayingView
    | SearchView
    | FavoritesView
    | QueueView
    | PlaylistsView
    | DetailView(playlistId: string)
    | PickerView
    | CreateInputView
    | ListView

  predicate NoLineTerminator(s: string)
  {
    forall k :: 0 <= k < |s| ==> !IsLineTerminator(s[k])
  }

  /** `menuId.match(/^playlist_detail_(.+)$/)`: the prefix, then one or
      more characters none of which ends a line; the capture is the
      suffix. */
  function DetailMatch(menuId: string): (r: Option<string>)
    ensures r.Some? <==> StartsWith(menuId, DetailPrefix) && |menuId| > |DetailPrefix| &&
                         NoLineTerminator(menuId[|DetailPrefix|..])
    ensures r.Some? ==> r.value == menuId[|DetailPrefix|..] && r.value != []
  {
    if StartsWith(menuId, DetailPrefix) && |menuId| > |DetailPrefix| && NoLineTerminator(menuId[|DetailPrefix|..])
    then Some(menuId[|DetailPrefix|..])
    else None
  }

  /** The detail id of a playlist parses back to that playlist. */
  lemma DetailMatchRoundTrip(playlistId: string)
    requires playlistId != [] && NoLineTerminator(playlistId)
    ensures DetailMatch(DetailId(playlistId)) == Some(playlistId)
  {
  }

  const FixedRoutes: map<string, View> := map[
    NowPlayingId := NowPlayingView,
    "search" := SearchView,
    "favorites" := FavoritesView,
    "queue" := QueueView,
    "playlists" := PlaylistsView,
    AddToPlaylistId := PickerView,
    CreatePlaylistInputId := CreateInputView
  ]

  /** The component shown for `menuId`: the loading screen while loading,
      whatever the id; the seven fixed ids by exact match; a detail id with
      its playlist id; the generic list for anything else. */
  function Route(menuId: string, loading: bool): (v: View)
    ensures loading ==> v == LoadingView
    ensures !loading && menuId in FixedRoutes ==> v == FixedRoutes[menuId]
    ensures !loading && menuId !in FixedRoutes && DetailMatch(menuId).Some? ==> v == DetailView(DetailMatch(menuId).value)
    ensures !loading && menuId !in FixedRoutes && DetailMatch(menuId).None? ==> v == ListView
  {
    assert DetailMatch(AddToPlaylistId).None?;
    assert DetailMatch(CreatePlaylistInputId).None? by {
      assert CreatePlaylistInputId[0] != DetailPrefix[0];
    }
    if loading then LoadingView
    else if menuId == NowPlayingId then NowPlayingView
    else if menuId == "search" then SearchView
    else if menuId == "favorites" then FavoritesView
    else if menuId == "queue" then QueueView
    else if menuId == "playlists" then PlaylistsView
    else if DetailMatch(menuId).Some? then DetailView(DetailMatch(menuId).value)
    else if menuId == AddToPlaylistId then PickerView
    else if menuId == CreatePlaylistInputId then CreateInputView
    else ListView
  }

  /** Selecting a playlist row opens a screen that routes to that
      playlist's detail view. */
  lemma PlaylistRowOpensItsDetail(n: Nav, item: MenuItem)
    requires Valid(n) && item.id != MusicId && StartsWith(item.id, "pl_") && NoLineTerminator(item.id)
    ensures var r := Entered(n, item);
            |r.path| > 0 && Route(r.path[|r.path| - 1], r.loading) == (if n.loading then LoadingView else DetailView(item.id))
  {
    var r := Entered(n, item);
    DetailMatchRoundTrip(item.id);
    assert r.path[|r.path| - 1] == DetailId(item.id);
    assert DetailId(item.id) !in FixedRoutes by {
      assert DetailId(item.id)[0] == 'p';
      assert |DetailId(item.id)| > |"playlists"|;
    }
  }

  // ---------------------------------------------------------------------
  // The generic list
  // ---------------------------------------------------------------------

  /** A drawn row: its label, whether it is highlighted, and whether it
      carries the ">" marker of rows that open a screen. */
  datatype Row = Row(caption: string, active: bool, chevron: bool)

  function ListRows(items: seq<MenuItem>, selectedIndex: nat): (r: seq<Row>)
    ensures |r| == |items|
    ensures forall k :: 0 <= k < |r| ==> r[k].caption == items[k].caption
    ensures forall k :: 0 <= k < |r| ==> (r[k].active <==> k == selectedIndex)
    ensures forall k :: 0 <= k < |r| ==>
              (r[k].chevron <==> items[k].kind in {MenuKind, AppKind, LinkKind})
  {
    seq(|items|, k requires 0 <= k < |items| =>
      Row(items[k].caption, k == selectedIndex, items[k].kind == MenuKind || items[k].kind == AppKind || items[k].kind == LinkKind))
  }

  /** On a screen with rows the list highlights exactly one of them, the
      one `select` acts on. */
  lemma HighlightIsSelection(n: Nav)
    requires Valid(n) && Count(n) > 0
    ensures var rows := ListRows(CurrentMenu(n).items, n.cursor);
            rows[n.cursor].active && rows[n.cursor].caption == Highlighted(n).caption &&
            forall k :: 0 <= k < |rows| && rows[k].active ==> k == n.cursor
  {
  }

  // ---------------------------------------------------------------------
  // The playlist name field
  // ---------------------------------------------------------------------

  /** What a key press in the name field submits: the trimmed name on
      Enter when the name is not blank, nothing otherwise. */
  function Submission(key: string, name: string): (r: Option<string>)
    ensures r.Some? <==> key == "Enter" && !IsBlank(name)
    ensures r.Some? ==> r.value == Trim(name) && r.value != []
  {
    TrimEmptyIffBlank(name);
    if key == "Enter" && Trim(name) != [] then Some(Trim(name)) else None
  }

  /** A submitted name has no leading or trailing white space. */
  lemma SubmissionIsTrimmed(key: string, name: string)
    requires Submission(key, name).Some?
    ensures var s := Submission(key, name).value; !IsSpace(s[0]) && !IsSpace(s[|s| - 1])
  {
  }

  class CreatePlaylistInput {
    var name: string

    constructor ()
      ensures name == ""
    {
      name := "";
    }

    method SetName(value: string)
      modifies this
      ensures name == value
    {
      name := value;
    }

    /** The key handler; `submitted` is what reaches `onDone`. */
    method KeyDown(key: string) returns (submitted: Option<string>)
      ensures submitted == Submission(key, name)
    {
      TrimEmptyIffBlank(name);
      var trimmed := Trim(name);
      if key == "Enter" && |trimmed| > 0 {
        return Some(trimmed);
      }
      return None;
    }
  }
}
