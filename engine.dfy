/** The navigation hook as an object: its state in fields, the three
    contexts it calls into as collaborators, and one method per event.
    Each method's effect is the corresponding function of `Navigation`. */
module Engine {
  import opened Media
  import opened Text
  import Registry
  import Playback
  import Library
  import Account
  import opened Navigation

  class MenuEngine {
    var menus: map<string, Screen>
    var path: seq<string>
    var selectedIndex: nat
    var isLoading: bool
    var pendingActionTrack: Option<MenuItem>

    const player: Playback.Player
    const playlists: Library.PlaylistStore
    const auth: Account.Auth

    function NavState(): Nav
      reads this
    {
      Nav(menus, path, selectedIndex, isLoading, pendingActionTrack)
    }

    function Snapshot(): Device
      reads this, player, playlists, auth
    {
      Device(NavState(), player.State(), playlists.State(), auth.State())
    }

    predicate Valid()
      reads this, player, playlists, auth
    {
      DeviceValid(Snapshot())
    }

    constructor (player: Playback.Player, playlists: Library.PlaylistStore, auth: Account.Auth)
      requires player.Valid()
      ensures Valid() && NavState() == Navigation.Initial()
      ensures this.player == player && this.playlists == playlists && this.auth == auth
    {
      menus := Registry.InitialMenus();
      path := [MainId];
      selectedIndex := 0;
      isLoading := false;
      pendingActionTrack := None;
      this.player := player;
      this.playlists := playlists;
      this.auth := auth;
    }

    /** The screen on display. */
    function Current(): Screen
      reads this
      requires MainId in menus
    {
      CurrentMenu(NavState())
    }

    method Scroll(direction: int)
      requires Valid()
      modifies this
      ensures Valid() && NavState() == Scrolled(old(NavState()), direction)
    {
      var count := |Current().items|;
      var next := selectedIndex + direction;
      if count == 0 {
        selectedIndex := 0;
      } else if next < 0 {
        selectedIndex := 0;
      } else if next >= count {
        selectedIndex := count - 1;
      } else {
        selectedIndex := next;
      }
    }

    method GoBack()
      requires Valid()
      modifies this
      ensures Valid() && NavState() == Popped(old(NavState()))
    {
      if |path| > 1 {
        path := path[..|path| - 1];
        selectedIndex := 0;
      }
    }

    /** Publishes the rows of screen `menuId`, keeping the highlight on a
        row of the screen on display. */
    method UpdateMenuItems(menuId: string, items: seq<MenuItem>)
      requires Valid()
      modifies this
      ensures Valid() && NavState() == Updated(old(NavState()), menuId, items)
    {
      var title := if menuId in menus then menus[menuId].title else None;
      menus := menus[menuId := Screen(title, items)];
      var count := |Current().items|;
      if count == 0 {
        selectedIndex := 0;
      } else if selectedIndex >= count {
        selectedIndex := count - 1;
      }
    }

    /** The end of the music delay. */
    method FinishMusicLoad()
      requires Valid() && isLoading
      modifies this
      ensures Valid() && NavState() == MusicLoaded(old(NavState()))
    {
      isLoading := false;
      path := path + [MusicId];
      selectedIndex := 0;
    }

    method Push(id: string)
      requires MainId in menus
      modifies this
      ensures NavState() == Pushed(old(NavState()), id)
    {
      path := path + [id];
      selectedIndex := 0;
    }

    method ReplaceTop(id: string)
      requires MainId in menus
      modifies this
      ensures NavState() == Replaced(old(NavState()), id)
    {
      path := (if |path| == 0 then [] else path[..|path| - 1]) + [id];
      selectedIndex := 0;
    }

    method Select(outcome: Account.LoginOutcome)
      requires Valid()
      modifies this, player, playlists, auth
      ensures Valid() && Snapshot() == Selected(old(Snapshot()), outcome)
    {
      if isLoading {
        return;
      }
      var screen := Current();
      if |screen.items| == 0 {
        return;
      }
      var item := screen.items[selectedIndex];
      match item.kind
      case MenuKind => Enter(item);
      case AppKind => Enter(item);
      case BackKind => GoBack();
      case LinkKind =>
        if item.id in menus {
          Push(item.id);
        }
      case ActionKind => HandleAction(item, outcome);
      case TrackKind =>
        pendingActionTrack := Some(item);
        Push(TrackActionsId);
      case OtherKind =>
    }

    method Enter(item: MenuItem)
      requires Valid()
      modifies this
      ensures Valid() && Snapshot() == old(Snapshot()).(nav := Entered(old(NavState()), item))
    {
      if item.id == MusicId {
        isLoading := true;
        return;
      }
      if StartsWith(item.id, Library.IdPrefix) {
        var detail := DetailId(item.id);
        if detail !in menus {
          menus := menus[detail := Screen(Some(item.caption), [])];
        }
        Push(detail);
        return;
      }
      Push(item.id);
    }

    method HandleAction(item: MenuItem, outcome: Account.LoginOutcome)
      requires Valid()
      modifies this, player, playlists, auth
      ensures Valid() && Snapshot() == ActionHandled(old(Snapshot()), item, outcome)
    {
      if item.action == Some("setColor") {
        PickColor(item.id);
      } else if item.id == "auth" {
        ToggleAuth(outcome);
      } else if item.action == Some("playNow") {
        PlayPending();
      } else if item.action == Some("addToQueue") {
        QueuePending();
      } else if item.action == Some("addToPlaylist") {
        OfferPending();
      } else if item.action == Some("createPlaylist") || item.action == Some("newPlaylistInline") {
        Push(CreatePlaylistInputId);
      } else if item.action == Some("pickPlaylist") {
        PickPlaylist(item.id);
      }
    }

    method PickColor(color: string)
      requires Valid()
      modifies this, auth
      ensures Valid() && Snapshot() == ColorPicked(old(Snapshot()), color)
    {
      auth.ChangeColor(color);
      GoBack();
    }

    method ToggleAuth(outcome: Account.LoginOutcome)
      requires Valid()
      modifies this, auth
      ensures Valid() && Snapshot() == AuthToggled(old(Snapshot()), outcome)
    {
      if auth.user.Some? {
        auth.Logout();
      } else {
        auth.Login(outcome);
      }
      GoBack();
    }

    method PlayPending()
      requires Valid()
      modifies this, player
      ensures Valid() && Snapshot() == PendingPlayed(old(Snapshot()))
    {
      if pendingActionTrack.Some? {
        player.Play(ItemTrack(pendingActionTrack.value));
        pendingActionTrack := None;
        ReplaceTop(NowPlayingId);
      }
    }

    method QueuePending()
      requires Valid()
      modifies this, player
      ensures Valid() && Snapshot() == PendingQueued(old(Snapshot()))
    {
      if pendingActionTrack.Some? {
        player.AddToQueue(ItemTrack(pendingActionTrack.value));
        pendingActionTrack := None;
        GoBack();
      }
    }

    method OfferPending()
      requires Valid()
      modifies this, playlists
      ensures Valid() && Snapshot() == PendingOffered(old(Snapshot()))
    {
      if pendingActionTrack.Some? {
        playlists.SetPendingTrack(Some(ItemTrack(pendingActionTrack.value)));
        pendingActionTrack := None;
        ReplaceTop(AddToPlaylistId);
      }
    }

    method PickPlaylist(playlistId: string)
      requires Valid()
      modifies this, playlists
      ensures Valid() && Snapshot() == PlaylistPicked(old(Snapshot()), playlistId)
    {
      if playlists.pendingTrack.Some? {
        playlists.AddToPlaylist(playlistId, playlists.pendingTrack.value);
        playlists.SetPendingTrack(None);
      }
      // Both calls test the stack as it was before either ran.
      var depth := |path|;
      if depth > 1 {
        path := path[..|path| - 1];
        selectedIndex := 0;
      }
      if depth > 1 {
        path := path[..|path| - 1];
        selectedIndex := 0;
      }
    }
  }
}
