/** The screens that turn store data into menu rows and publish them
    through `updateMenuItems`: search results, favourites, the queue, the
    playlist list, a playlist's tracks and the playlist picker. The row
    types and ids decide what `select` does with them. */
module Builders {
  import opened Media
  import opened Text
  import Library
  import Navigation

  /** A track row: the track's fields spread into the row, type `track`,
      the title as label, and `id` as the row's id. */
  function TrackRow(t: Track, id: string): (item: MenuItem)
    ensures item.id == id && item.kind == TrackKind && item.caption == t.title && item.media == Some(t)
    ensures item.action == None && item.sublabel == None
  {
    MenuItem(id, t.title, TrackKind, None, None, Some(t))
  }

  /** Selecting a track row hands back the track it was built from; as the
      hook writes it, the track comes back under the row's id instead. */
  lemma TrackRowRoundTrip(t: Track, id: string)
    ensures ItemTrack(TrackRow(t, id)) == t
    ensures ItemTrackAsWritten(TrackRow(t, id)) == t.(id := id)
  {
  }

  /** The rows of the search, favourites and playlist-detail screens: one
      track row per track, in order, each under the track's own id. */
  function TrackRows(tracks: seq<Track>): (r: seq<MenuItem>)
    ensures |r| == |tracks|
    ensures forall k :: 0 <= k < |r| ==> r[k] == TrackRow(tracks[k], tracks[k].id)
  {
    seq(|tracks|, k requires 0 <= k < |tracks| => TrackRow(tracks[k], tracks[k].id))
  }

  /** Every row of a track list stands for exactly its track. */
  lemma TrackRowsRecoverTracks(tracks: seq<Track>)
    ensures forall k :: 0 <= k < |tracks| ==> ItemTrack(TrackRows(tracks)[k]) == tracks[k]
  {
    forall k | 0 <= k < |tracks| ensures ItemTrack(TrackRows(tracks)[k]) == tracks[k] {
      TrackRowRoundTrip(tracks[k], tracks[k].id);
    }
  }

  const SearchMenuId := "search"
  const FavoritesMenuId := "favorites"
  const QueueMenuId := "queue"
  const PlaylistsMenuId := "playlists"
  const QueueIdInfix := "_q"

  // ---------------------------------------------------------------------
  // The queue
  // ---------------------------------------------------------------------

  /** The id of the queue row at `position`: the track's id is a proper
      prefix of it, so the row's id is never the track's. */
  function QueueRowId(t: Track, position: nat): (id: string)
    ensures |t.id| < |id| && id[..|t.id|] == t.id && id != t.id
  {
    t.id + QueueIdInfix + NatToString(position)
  }

  /** The queue screen's rows: one per entry, in order, under a
      position-suffixed id. */
  function QueueRows(queue: seq<Track>): (r: seq<MenuItem>)
    ensures |r| == |queue|
    ensures forall k :: 0 <= k < |r| ==> r[k] == TrackRow(queue[k], QueueRowId(queue[k], k))
  {
    seq(|queue|, k requires 0 <= k < |queue| => TrackRow(queue[k], QueueRowId(queue[k], k)))
  }

  /** The position suffix is the trailing run of digits, so two rows at
      different positions never share an id, even for the same track. */
  lemma QueueRowIdsDistinct(a: Track, i: nat, b: Track, j: nat)
    requires i != j
    ensures QueueRowId(a, i) != QueueRowId(b, j)
  {
    var di, dj := NatToString(i), NatToString(j);
    var si, sj := QueueRowId(a, i), QueueRowId(b, j);
    if |si| == |sj| {
      if |di| == |dj| {
        NatToStringDistinct(i, j);
        assert si[|si| - |di|..] == di;
        assert sj[|sj| - |dj|..] == dj;
      } else if |di| < |dj| {
        // Just before i's digits sits the 'q' of the infix; in sj that
        // position falls inside j's digits.
        assert si[|si| - |di| - 1] == 'q';
        assert sj[|sj| - |di| - 1] == dj[|dj| - |di| - 1];
      } else {
        assert sj[|sj| - |dj| - 1] == 'q';
        assert si[|si| - |dj| - 1] == di[|di| - |dj| - 1];
      }
    }
  }

  lemma QueueRowsDistinct(queue: seq<Track>)
    ensures forall i, j :: 0 <= i < j < |queue| ==> QueueRows(queue)[i].id != QueueRows(queue)[j].id
  {
    forall i, j | 0 <= i < j < |queue| ensures QueueRows(queue)[i].id != QueueRows(queue)[j].id {
      QueueRowIdsDistinct(queue[i], i, queue[j], j);
    }
  }

  /** As the hook is written, a queue row hands the player a track under
      the row's position-suffixed id, which is not its video id. */
  lemma QueueRowLosesTrackId(queue: seq<Track>, k: nat)
    requires k < |queue|
    ensures ItemTrackAsWritten(QueueRows(queue)[k]).id != queue[k].id
  {
  }

  /** With the corrected row-to-track step, every queue row stands for
      exactly the queued track, position suffix or not. */
  lemma QueueRowsRecoverTracks(queue: seq<Track>)
    ensures forall k :: 0 <= k < |queue| ==> ItemTrack(QueueRows(queue)[k]) == queue[k]
  {
  }

  // ---------------------------------------------------------------------
  // Playlists
  // ---------------------------------------------------------------------

  /** "1 song", otherwise "N songs". */
  function SongCount(n: nat): (s: string)
    ensures s == NatToString(n) + (if n == 1 then " song" else " songs")
  {
    NatToString(n) + " song" + (if n != 1 then "s" else "")
  }

  /** The singular form is used exactly for one track. */
  lemma SongCountSingular(n: nat)
    ensures SongCount(n)[|SongCount(n)| - 1] == 's' <==> n != 1
  {
    var d := NatToString(n);
    if n == 1 {
      assert SongCount(n) == d + " song";
    }
  }

  /** The playlist list: "+ New Playlist" first, then one `app` row per
      playlist, in store order, under the playlist's id. */
  function PlaylistRows(pls: seq<Library.Playlist>): (r: seq<MenuItem>)
    ensures |r| == |pls| + 1
    ensures r[0] == MenuItem("create_playlist", "+ New Playlist", ActionKind, Some("createPlaylist"), None, None)
    ensures forall k :: 0 <= k < |pls| ==>
              r[k + 1] == MenuItem(pls[k].id, pls[k].name, AppKind, None, Some(SongCount(|pls[k].tracks|)), None)
  {
    [MenuItem("create_playlist", "+ New Playlist", ActionKind, Some("createPlaylist"), None, None)]
      + seq(|pls|, k requires 0 <= k < |pls| =>
              MenuItem(pls[k].id, pls[k].name, AppKind, None, Some(SongCount(|pls[k].tracks|)), None))
  }

  /** The playlist picker's rows, or nothing while the inline name field
      is open: "+ New Playlist" first, then one `pickPlaylist` row per
      playlist under the playlist's id. */
  function PickerRows(pls: seq<Library.Playlist>, creatingNew: bool): (r: Option<seq<MenuItem>>)
    ensures creatingNew <==> r.None?
    ensures r.Some? ==> |r.value| == |pls| + 1
    ensures r.Some? ==> r.value[0] == ActionItem("+ New Playlist", "new_playlist_inline", "newPlaylistInline")
    ensures r.Some? ==> forall k :: 0 <= k < |pls| ==>
              r.value[k + 1] == MenuItem(pls[k].id, pls[k].name, ActionKind, Some("pickPlaylist"), Some(SongCount(|pls[k].tracks|)), None)
  {
    if creatingNew then None
    else Some([ActionItem("+ New Playlist", "new_playlist_inline", "newPlaylistInline")]
              + seq(|pls|, k requires 0 <= k < |pls| =>
                      MenuItem(pls[k].id, pls[k].name, ActionKind, Some("pickPlaylist"), Some(SongCount(|pls[k].tracks|)), None)))
  }

  /** What the detail screen of `playlistId` publishes: nothing when the
      store has no such playlist, otherwise its tracks as rows under the
      detail screen id. */
  function DetailPublication(pls: seq<Library.Playlist>, playlistId: string): (r: Option<(string, seq<MenuItem>)>)
    ensures r.None? <==> Library.Find(pls, playlistId).None?
    ensures r.Some? ==> r.value.0 == Navigation.DetailId(playlistId)
    ensures r.Some? ==> r.value.1 == TrackRows(Library.Find(pls, playlistId).value.tracks)
  {
    match Library.Find(pls, playlistId)
    case None => None
    case Some(pl) => Some((Navigation.DetailId(playlistId), TrackRows(pl.tracks)))
  }
}
