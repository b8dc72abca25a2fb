/** The screen components that hold state of their own and call back into
    the navigation hook: the search screen, the playlist picker, and the
    list screens whose only job is to publish rows. Playlist creation from
    a name is shared by the picker and the shell. */
module Screens {
  import opened Media
  import opened Text
  import Library
  import opened Navigation
  import opened Builders
  import opened Engine

  // ---------------------------------------------------------------------
  // Creating a playlist and filing the pending track into it
  // ---------------------------------------------------------------------

  /** `createPlaylist(name)`, then, when a track is waiting, adding it to
      the new playlist and clearing the slot, then one step back. */
  function PlaylistCreated(d: Device, name: string, stamp: string): (r: Device)
    requires DeviceValid(d)
    ensures DeviceValid(r) && r.player == d.player && r.account == d.account
    ensures r.nav == Popped(d.nav)
    ensures r.library.pending.None?
    ensures |r.library.playlists| == |d.library.playlists| + 1
  {
    var pls := Library.Created(d.library.playlists, name, stamp);
    var filed := match d.library.pending
      case None => pls
      case Some(t) => Library.WithTrack(pls, Library.IdPrefix + stamp, t);
    d.(library := Library.LibraryState(filed, None), nav := Popped(d.nav))
  }

  /** With a fresh stamp the earlier playlists are untouched and a lookup
      of the new id finds the new playlist holding exactly the track that
      was waiting, or nothing when none was. */
  lemma CreatedPlaylistHoldsPendingTrack(d: Device, name: string, stamp: string)
    requires DeviceValid(d)
    requires forall k :: 0 <= k < |d.library.playlists| ==> d.library.playlists[k].id != Library.IdPrefix + stamp
    ensures var r := PlaylistCreated(d, name, stamp);
            var tracks := if d.library.pending.Some? then [d.library.pending.value] else [];
            r.library.playlists[..|d.library.playlists|] == d.library.playlists &&
            Library.Find(r.library.playlists, Library.IdPrefix + stamp)
              == Some(Library.Playlist(Library.IdPrefix + stamp, name, tracks))
  {
    var pls := d.library.playlists;
    var id := Library.IdPrefix + stamp;
    var p := Library.NewPlaylist(name, stamp);
    var r := PlaylistCreated(d, name, stamp);
    match d.library.pending
    case None =>
      Library.FindCreated(pls, name, stamp);
    case Some(t) =>
      var q := p.(tracks := [t]);
      assert r.library.playlists == pls + [q] by {
        var w := r.library.playlists;
        assert w == Library.WithTrack(pls + [p], id, t);
        forall k | 0 <= k < |w| ensures w[k] == (pls + [q])[k] {
          if k < |pls| {
            assert (pls + [p])[k] == pls[k];
          } else {
            assert !Library.HasTrack(p.tracks, t.id);
          }
        }
      }
      Library.FindAppended(pls, q);
  }

  /** The imperative sequence behind `PlaylistCreated`, shared by the
      shell's `handleCreatePlaylist` and the picker's `handleCreateAndAdd`. */
  method CreateAndFile(engine: MenuEngine, name: string, stamp: string)
    requires engine.Valid()
    modifies engine, engine.playlists
    ensures engine.Valid() && engine.Snapshot() == PlaylistCreated(old(engine.Snapshot()), name, stamp)
  {
    var pl := engine.playlists.CreatePlaylist(name, stamp);
    if engine.playlists.pendingTrack.Some? {
      engine.playlists.AddToPlaylist(pl.id, engine.playlists.pendingTrack.value);
      engine.playlists.SetPendingTrack(None);
    }
    engine.GoBack();
  }

  // ---------------------------------------------------------------------
  // The search screen
  // ---------------------------------------------------------------------

  const PopularQuery := "popular"

  /** The search screen's own state. A search is split into its start,
      which returns the query to resolve, and the arrival of the results;
      the resolver itself is `Search.SearchYouTube`. */
  class SearchScreen {
    var query: string
    var results: seq<Track>
    var loading: bool
    const engine: MenuEngine

    constructor (engine: MenuEngine)
      ensures query == "" && results == [] && !loading && this.engine == engine
    {
      query := "";
      results := [];
      loading := false;
      this.engine := engine;
    }

    method SetQuery(value: string)
      modifies this
      ensures query == value && results == old(results) && loading == old(loading)
    {
      query := value;
    }

    /** The start of `doSearch(q)`: the loading flag goes up and the old
        results stay until the new ones arrive. */
    method StartSearch(q: string) returns (request: string)
      modifies this
      ensures request == q && loading
      ensures query == old(query) && results == old(results)
    {
      loading := true;
      request := q;
    }

    /** On mount the screen searches for "popular". */
    method Mount() returns (request: string)
      modifies this
      ensures request == PopularQuery && loading
      ensures query == old(query) && results == old(results)
    {
      request := StartSearch(PopularQuery);
    }

    /** Enter searches for the current query; any other key does nothing. */
    method KeyDown(key: string) returns (request: Option<string>)
      modifies this
      ensures key == "Enter" ==> request == Some(old(query)) && loading
      ensures key != "Enter" ==> request.None? && loading == old(loading)
      ensures query == old(query) && results == old(results)
    {
      if key == "Enter" {
        var q := StartSearch(query);
        return Some(q);
      }
      return None;
    }

    /** The end of `doSearch`: the results are kept, the loading flag drops
        and one track row per result is published under "search". */
    method ResultsArrived(data: seq<Track>)
      requires engine.Valid()
      modifies this, engine
      ensures results == data && !loading && query == old(query)
      ensures engine.Valid() && engine.NavState() == Updated(old(engine.NavState()), SearchMenuId, TrackRows(data))
    {
      results := data;
      loading := false;
      engine.UpdateMenuItems(SearchMenuId, TrackRows(data));
    }
  }

  // ---------------------------------------------------------------------
  // The playlist picker
  // ---------------------------------------------------------------------

  /** The picker's own state: whether its inline name field is open and
      the name typed so far. In the app only `Publish` with the field
      closed is live. No code calls `handlePickPlaylist`. The field never
      opens, because `creatingNew` is only ever set to false, so
      `handleCreateAndAdd` and the key handler cannot run. Picking and
      creating go through the hook's `pickPlaylist` and
      `newPlaylistInline` actions instead. The handlers are modelled as
      written, as what the component would do if they were wired. */
  class PlaylistPicker {
    var creatingNew: bool
    var newName: string
    const engine: MenuEngine

    constructor (engine: MenuEngine)
      ensures !creatingNew && newName == "" && this.engine == engine
    {
      creatingNew := false;
      newName := "";
      this.engine := engine;
    }

    method SetNewName(value: string)
      modifies this
      ensures newName == value && creatingNew == old(creatingNew)
    {
      newName := value;
    }

    /** The picker's effect: nothing while the name field is open,
        otherwise its rows published under "addToPlaylist". */
    method Publish()
      requires engine.Valid()
      modifies engine
      ensures engine.Valid()
      ensures creatingNew ==> engine.NavState() == old(engine.NavState())
      ensures !creatingNew ==>
                engine.NavState() == Updated(old(engine.NavState()), AddToPlaylistId,
                                             PickerRows(engine.playlists.playlists, false).value)
    {
      var rows := PickerRows(engine.playlists.playlists, creatingNew);
      if rows.Some? {
        engine.UpdateMenuItems(AddToPlaylistId, rows.value);
      }
    }

    /** `handlePickPlaylist`: nothing without a waiting track; otherwise the
        track is filed, the slot cleared and one step taken back. */
    method HandlePickPlaylist(playlistId: string)
      requires engine.Valid()
      modifies engine, engine.playlists
      ensures engine.Valid()
      ensures engine.Snapshot() == PickerPicked(old(engine.Snapshot()), playlistId)
    {
      if engine.playlists.pendingTrack.None? {
        return;
      }
      engine.playlists.AddToPlaylist(playlistId, engine.playlists.pendingTrack.value);
      engine.playlists.SetPendingTrack(None);
      engine.GoBack();
    }

    /** `handleCreateAndAdd`: nothing for a blank name; otherwise a playlist
        under the trimmed name, the waiting track filed into it, the field
        closed and cleared, and one step back. */
    method HandleCreateAndAdd(stamp: string)
      requires engine.Valid()
      modifies this, engine, engine.playlists
      ensures engine.Valid()
      ensures IsBlank(old(newName)) ==>
                engine.Snapshot() == old(engine.Snapshot()) &&
                creatingNew == old(creatingNew) && newName == old(newName)
      ensures !IsBlank(old(newName)) ==>
                engine.Snapshot() == PlaylistCreated(old(engine.Snapshot()), Trim(old(newName)), stamp) &&
                !creatingNew && newName == ""
    {
      TrimEmptyIffBlank(newName);
      var name := Trim(newName);
      if name == [] {
        return;
      }
      CreateAndFile(engine, name, stamp);
      creatingNew := false;
      newName := "";
    }

    /** Enter in the name field creates the playlist. */
    method KeyDown(key: string, stamp: string)
      requires engine.Valid()
      modifies this, engine, engine.playlists
      ensures engine.Valid()
      ensures key != "Enter" || IsBlank(old(newName)) ==>
                engine.Snapshot() == old(engine.Snapshot()) &&
                creatingNew == old(creatingNew) && newName == old(newName)
      ensures key == "Enter" && !IsBlank(old(newName)) ==>
                engine.Snapshot() == PlaylistCreated(old(engine.Snapshot()), Trim(old(newName)), stamp) &&
                !creatingNew && newName == ""
    {
      if key == "Enter" {
        HandleCreateAndAdd(stamp);
      }
    }
  }

  /** What `handlePickPlaylist` does to the device. */
  function PickerPicked(d: Device, playlistId: string): (r: Device)
    requires DeviceValid(d)
    ensures DeviceValid(r) && r.player == d.player && r.account == d.account
    ensures d.library.pending.None? ==> r == d
    ensures d.library.pending.Some? ==>
              r.nav == Popped(d.nav) && r.library.pending.None? &&
              r.library.playlists == Library.WithTrack(d.library.playlists, playlistId, d.library.pending.value)
  {
    match d.library.pending
    case None => d
    case Some(t) =>
      d.(library := Library.LibraryState(Library.WithTrack(d.library.playlists, playlistId, t), None),
         nav := Popped(d.nav))
  }

  /** The picker's unwired handler would file the waiting track exactly as
      the hook's `pickPlaylist` action, which is the path the app takes,
      does. Had it been wired, it would differ only in navigation: it
      takes one step back where the hook takes two. */
  lemma PickerAgreesWithHookOnLibrary(d: Device, playlistId: string)
    requires DeviceValid(d) && d.library.pending.Some?
    ensures PickerPicked(d, playlistId).library == PlaylistPicked(d, playlistId).library
    ensures |d.nav.path| > 1 ==>
              |PickerPicked(d, playlistId).nav.path| == |PlaylistPicked(d, playlistId).nav.path| + 1
  {
  }

  // ---------------------------------------------------------------------
  // The list screens' publications
  // ---------------------------------------------------------------------

  /** The favourites screen's effect: one track row per favourite under
      "favorites". */
  method PublishFavorites(engine: MenuEngine)
    requires engine.Valid()
    modifies engine
    ensures engine.Valid()
    ensures engine.NavState() == Updated(old(engine.NavState()), FavoritesMenuId, TrackRows(engine.player.favorites))
  {
    engine.UpdateMenuItems(FavoritesMenuId, TrackRows(engine.player.favorites));
  }

  /** The queue screen's effect: one position-tagged track row per queue
      entry under "queue". */
  method PublishQueue(engine: MenuEngine)
    requires engine.Valid()
    modifies engine
    ensures engine.Valid()
    ensures engine.NavState() == Updated(old(engine.NavState()), QueueMenuId, QueueRows(engine.player.queue))
  {
    engine.UpdateMenuItems(QueueMenuId, QueueRows(engine.player.queue));
  }

  /** The playlist list's effect: "+ New Playlist" and one row per
      playlist under "playlists". */
  method PublishPlaylists(engine: MenuEngine)
    requires engine.Valid()
    modifies engine
    ensures engine.Valid()
    ensures engine.NavState() == Updated(old(engine.NavState()), PlaylistsMenuId, PlaylistRows(engine.playlists.playlists))
  {
    engine.UpdateMenuItems(PlaylistsMenuId, PlaylistRows(engine.playlists.playlists));
  }

  /** The detail screen's effect: nothing for an unknown playlist,
      otherwise its tracks under the playlist's detail id. */
  method PublishDetail(engine: MenuEngine, playlistId: string)
    requires engine.Valid()
    modifies engine
    ensures engine.Valid()
    ensures Library.Find(engine.playlists.playlists, playlistId).None? ==> engine.NavState() == old(engine.NavState())
    ensures Library.Find(engine.playlists.playlists, playlistId).Some? ==>
              engine.NavState() == Updated(old(engine.NavState()), DetailId(playlistId),
                                           TrackRows(Library.Find(engine.playlists.playlists, playlistId).value.tracks))
  {
    var publication := DetailPublication(engine.playlists.playlists, playlistId);
    if publication.Some? {
      engine.UpdateMenuItems(publication.value.0, publication.value.1);
    }
  }
}
