/** The menu navigation engine: a registry of screens, a stack of screen
    ids, a highlighted row and a loading flag, driven by the click wheel's
    scroll, select and back events. `Nav` is the engine's own state;
    `Device` adds the three contexts a selection can act on (player,
    playlist store, account). Each event is a function from state to
    state; the class `MenuEngine` in `Engine` runs them in place. */
module Navigation {
  import opened Media
  import opened Text
  import Registry
  import Playback
  import Library
  import Account

  /** `menus`, `path`, `selectedIndex` and `isLoading` of the hook, plus
      the row remembered when a track row opened the track options. */
  datatype Nav = Nav(
    menus: map<string, Screen>,
    path: seq<string>,
    cursor: nat,
    loading: bool,
    pending: Option<MenuItem>)

  const MainId := "main"
  const MusicId := "music"
  const TrackActionsId := "trackActions"
  const NowPlayingId := "nowplaying"
  const AddToPlaylistId := "addToPlaylist"
  const CreatePlaylistInputId := "createPlaylistInput"
  const DetailPrefix := "playlist_detail_"

  /** The screen on display: the top of the stack when it is registered,
      otherwise the main menu (also when the stack is empty). */
  function CurrentMenu(n: Nav): (m: Screen)
    requires MainId in n.menus
    ensures m in n.menus.Values
    ensures |n.path| > 0 && n.path[|n.path| - 1] in n.menus ==> m == n.menus[n.path[|n.path| - 1]]
  {
    if |n.path| > 0 && n.path[|n.path| - 1] in n.menus then n.menus[n.path[|n.path| - 1]]
    else n.menus[MainId]
  }

  function Count(n: Nav): nat
    requires MainId in n.menus
  {
    |CurrentMenu(n).items|
  }

  /** The engine's invariant: the main menu is registered (the fallback
      screen exists) and the highlighted row is a row of the screen on
      display, or 0 when that screen has no rows. */
  predicate Valid(n: Nav)
  {
    MainId in n.menus && (n.cursor == 0 || n.cursor < Count(n))
  }

  /** The row `select` acts on. */
  function Highlighted(n: Nav): (item: MenuItem)
    requires Valid(n) && Count(n) > 0
    ensures item in CurrentMenu(n).items
  {
    CurrentMenu(n).items[n.cursor]
  }

  /** The hook's state after mounting. */
  function Initial(): (n: Nav)
    ensures Valid(n) && n.path == [MainId] && n.cursor == 0 && !n.loading && n.pending == None
    ensures CurrentMenu(n) == Registry.InitialMenus()[MainId]
  {
    Nav(Registry.InitialMenus(), [MainId], 0, false, None)
  }

  // ---------------------------------------------------------------------
  // scroll
  // ---------------------------------------------------------------------

  /** The scroll clamp: 0 for an empty screen, otherwise `next` pinned to
      the first and last rows. */
  function Clamp(next: int, count: nat): (r: nat)
    ensures count == 0 ==> r == 0
    ensures count > 0 ==> r < count
    ensures 0 <= next < count ==> r == next
    ensures count > 0 && next < 0 ==> r == 0
    ensures count > 0 && next >= count ==> r == count - 1
  {
    if count == 0 then 0 else if next < 0 then 0 else if next >= count then count - 1 else next
  }

  /** `scroll(direction)`: moves the highlight, never past either end. */
  function Scrolled(n: Nav, direction: int): (r: Nav)
    requires Valid(n)
    ensures Valid(r) && r == n.(cursor := r.cursor)
    ensures Count(n) == 0 ==> r.cursor == 0
    ensures 0 <= n.cursor + direction < Count(n) ==> r.cursor == n.cursor + direction
  {
    n.(cursor := Clamp(n.cursor + direction, Count(n)))
  }

  /** A step down followed by a step up returns to the same row, unless
      the first step hit the bottom. */
  lemma ScrollRoundTrip(n: Nav)
    requires Valid(n) && n.cursor + 1 < Count(n)
    ensures Scrolled(Scrolled(n, 1), -1) == n
  {
  }

  /** Scrolling again at an end changes nothing. */
  lemma ScrollStopsAtEnds(n: Nav, direction: int)
    requires Valid(n)
    requires (direction >= 0 && (Count(n) == 0 || n.cursor == Count(n) - 1)) || (direction <= 0 && n.cursor == 0)
    ensures Scrolled(n, direction) == n
  {
  }

  // ---------------------------------------------------------------------
  // Stack moves
  // ---------------------------------------------------------------------

  /** Opens screen `id` on top of the stack, highlighting its first row. */
  function Pushed(n: Nav, id: string): (r: Nav)
    requires MainId in n.menus
    ensures Valid(r) && r.path == n.path + [id] && r.cursor == 0
    ensures r.menus == n.menus && r.loading == n.loading && r.pending == n.pending
  {
    n.(path := n.path + [id], cursor := 0)
  }

  /** `goBack()`: leaves the top screen unless it is the last one. */
  function Popped(n: Nav): (r: Nav)
    requires Valid(n)
    ensures Valid(r)
    ensures |n.path| > 1 ==> r == n.(path := n.path[..|n.path| - 1], cursor := 0)
    ensures |n.path| <= 1 ==> r == n
  {
    if |n.path| > 1 then n.(path := n.path[..|n.path| - 1], cursor := 0) else n
  }

  /** Swaps the top screen for `id` (`[...prev.slice(0, -1), id]`). */
  function Replaced(n: Nav, id: string): (r: Nav)
    requires MainId in n.menus
    ensures Valid(r) && r.cursor == 0 && |r.path| > 0 && r.path[|r.path| - 1] == id
    ensures |n.path| > 0 ==> r.path == n.path[..|n.path| - 1] + [id]
    ensures |n.path| == 0 ==> r.path == [id]
  {
    if |n.path| == 0 then n.(path := [id], cursor := 0)
    else n.(path := n.path[..|n.path| - 1] + [id], cursor := 0)
  }

  /** Two `goBack()` calls in one handler. Both test the stack as it was
      when the handler was created, and each drops one id from whatever
      the previous one left: so a stack of depth two is emptied. */
  function PoppedTwice(n: Nav): (r: Nav)
    requires Valid(n)
    ensures Valid(r)
    ensures |n.path| > 1 ==> r == n.(path := n.path[..|n.path| - 2], cursor := 0)
    ensures |n.path| <= 1 ==> r == n
  {
    if |n.path| > 1 then n.(path := n.path[..|n.path| - 2], cursor := 0) else n
  }

  /** Back undoes a push. */
  lemma PopUndoesPush(n: Nav, id: string)
    requires Valid(n) && |n.path| > 0
    ensures Popped(Pushed(n, id)).path == n.path
  {
    assert (n.path + [id])[..|n.path|] == n.path;
  }

  /** The route a track takes into a playlist: the options screen is
      pushed above the list, the picker replaces it, and picking a
      playlist backs out twice, so the list the track was chosen from is
      closed as well and the screen below it is on top. */
  lemma PickerBacksOutPastList(n: Nav)
    requires Valid(n) && |n.path| >= 2
    ensures PoppedTwice(Replaced(Pushed(n, TrackActionsId), AddToPlaylistId)).path == n.path[..|n.path| - 1]
  {
    var r := Replaced(Pushed(n, TrackActionsId), AddToPlaylistId);
    assert r.path == n.path + [AddToPlaylistId];
    assert (n.path + [AddToPlaylistId])[..|n.path| - 1] == n.path[..|n.path| - 1];
  }

  /** A stack of depth two emptied by the double back shows the main menu,
      and back then does nothing. */
  lemma PoppedTwiceAtDepthTwo(n: Nav)
    requires Valid(n) && |n.path| == 2
    ensures PoppedTwice(n).path == []
    ensures CurrentMenu(PoppedTwice(n)) == n.menus[MainId]
    ensures Popped(PoppedTwice(n)) == PoppedTwice(n)
  {
  }

  // ---------------------------------------------------------------------
  // updateMenuItems
  // ---------------------------------------------------------------------

  /** The registry after `updateMenuItems(menuId, items)`: the entry gets
      the new rows and keeps its title (an entry created this way has
      none); every other entry is untouched. */
  function WithItems(menus: map<string, Screen>, menuId: string, items: seq<MenuItem>): (r: map<string, Screen>)
    ensures r.Keys == menus.Keys + {menuId}
    ensures r[menuId].items == items
    ensures r[menuId].title == (if menuId in menus then menus[menuId].title else None)
    ensures forall k :: k in menus && k != menuId ==> r[k] == menus[k]
  {
    menus[menuId := Screen(if menuId in menus then menus[menuId].title else None, items)]
  }

  /** `updateMenuItems` as the hook writes it: the highlighted row is left
      where it was, even when the screen on display now has fewer rows. */
  function UpdatedAsWritten(n: Nav, menuId: string, items: seq<MenuItem>): (r: Nav)
    requires Valid(n)
    ensures r.menus.Keys == n.menus.Keys + {menuId} && r.menus[menuId].items == items
    ensures forall k :: k in n.menus && k != menuId ==> r.menus[k] == n.menus[k]
    ensures r.path == n.path && r.cursor == n.cursor && r.loading == n.loading && r.pending == n.pending
  {
    n.(menus := WithItems(n.menus, menuId, items))
  }

  /** A search screen showing ten results with the last one highlighted
      receives a new search with five: the highlight points past the last
      row, and `select` would read a row that is not there. */
  lemma StrandedCursor(results: seq<MenuItem>)
    requires |results| == 5
    ensures var before := Nav(WithItems(Registry.InitialMenus(), "search", results + results),
                              [MainId, MusicId, "search"], 9, false, None);
            Valid(before) && !Valid(UpdatedAsWritten(before, "search", results))
  {
    var before := Nav(WithItems(Registry.InitialMenus(), "search", results + results),
                      [MainId, MusicId, "search"], 9, false, None);
    assert CurrentMenu(before).items == results + results;
    assert CurrentMenu(UpdatedAsWritten(before, "search", results)).items == results;
  }

  /** `updateMenuItems` with the highlight pulled back onto the screen on
      display, the behaviour the rest of the model uses. */
  function Updated(n: Nav, menuId: string, items: seq<MenuItem>): (r: Nav)
    requires Valid(n)
    ensures Valid(r)
    ensures r.menus == WithItems(n.menus, menuId, items)
    ensures r.path == n.path && r.loading == n.loading && r.pending == n.pending
    ensures n.cursor < Count(r) ==> r.cursor == n.cursor
  {
    var m := n.(menus := WithItems(n.menus, menuId, items));
    m.(cursor := Clamp(n.cursor, Count(m)))
  }

  /** The corrected update keeps the highlight on a real row. */
  lemma UpdatedKeepsCursorOnRow(n: Nav, menuId: string, items: seq<MenuItem>)
    requires Valid(n)
    ensures var r := Updated(n, menuId, items); Count(r) > 0 ==> r.cursor < Count(r)
  {
  }

  /** Publishing the same rows twice is the same as publishing them once. */
  lemma UpdatedIdempotent(n: Nav, menuId: string, items: seq<MenuItem>)
    requires Valid(n)
    ensures Updated(Updated(n, menuId, items), menuId, items) == Updated(n, menuId, items)
  {
    var once := Updated(n, menuId, items);
    assert WithItems(once.menus, menuId, items) == once.menus;
  }

  /** Publishing rows for a screen other than the one on display leaves the
      display and the highlight alone. */
  lemma UpdatedElsewhere(n: Nav, menuId: string, items: seq<MenuItem>)
    requires Valid(n) && |n.path| > 0 && n.path[|n.path| - 1] in n.menus
    requires menuId != n.path[|n.path| - 1] && menuId != MainId
    ensures CurrentMenu(Updated(n, menuId, items)) == CurrentMenu(n)
    ensures Updated(n, menuId, items).cursor == n.cursor
  {
  }

  // ---------------------------------------------------------------------
  // The music delay
  // ---------------------------------------------------------------------

  /** The 1.3 s timer started by selecting Music: loading ends and the
      Music screen opens on top of whatever the stack is by then. */
  function MusicLoaded(n: Nav): (r: Nav)
    requires Valid(n) && n.loading
    ensures Valid(r) && !r.loading && r.path == n.path + [MusicId] && r.cursor == 0
  {
    Pushed(n, MusicId).(loading := false)
  }

  // ---------------------------------------------------------------------
  // select, over the whole device
  // ---------------------------------------------------------------------

  datatype Device = Device(
    nav: Nav,
    player: Playback.PlayerState,
    library: Library.LibraryState,
    account: Account.AccountState)

  predicate DeviceValid(d: Device)
  {
    Valid(d.nav) && Playback.Inv(d.player)
  }

  function InitialDevice(savedFavorites: seq<Track>, savedPlaylists: seq<Library.Playlist>): (d: Device)
    ensures DeviceValid(d) && d.nav == Initial()
  {
    Device(Initial(), Playback.Initial(savedFavorites), Library.Initial(savedPlaylists), Account.Initial())
  }

  /** The detail screen id a playlist row opens. */
  function DetailId(playlistId: string): (id: string)
    ensures StartsWith(id, DetailPrefix) && id[|DetailPrefix|..] == playlistId
  {
    DetailPrefix + playlistId
  }

  /** Selecting a menu or app row. Music only starts the loading delay; a
      playlist row (id starting `pl_`) registers its detail screen, titled
      with the row's label, unless it exists, and opens it; any other row
      opens the screen named by its id. */
  function Entered(n: Nav, item: MenuItem): (r: Nav)
    requires Valid(n)
    ensures Valid(r)
    ensures item.id == MusicId ==> r == n.(loading := true)
    ensures item.id != MusicId && StartsWith(item.id, Library.IdPrefix) ==>
              r.path == n.path + [DetailId(item.id)] && DetailId(item.id) in r.menus &&
              (DetailId(item.id) in n.menus ==> r.menus == n.menus) &&
              (DetailId(item.id) !in n.menus ==> r.menus == n.menus[DetailId(item.id) := Screen(Some(item.caption), [])])
    ensures item.id != MusicId && !StartsWith(item.id, Library.IdPrefix) ==> r == Pushed(n, item.id)
  {
    if item.id == MusicId then n.(loading := true)
    else if StartsWith(item.id, Library.IdPrefix) then
      var detail := DetailId(item.id);
      var menus := if detail in n.menus then n.menus else n.menus[detail := Screen(Some(item.caption), [])];
      Pushed(n.(menus := menus), detail)
    else Pushed(n, item.id)
  }

  /** A colour row: the body colour becomes the row's id, then back. */
  function ColorPicked(d: Device, color: string): (r: Device)
    requires DeviceValid(d)
    ensures DeviceValid(r)
    ensures r.account.color == color && r.account.user == d.account.user && r.account.loading == d.account.loading
    ensures r.nav == Popped(d.nav) && r.player == d.player && r.library == d.library
  {
    d.(account := Account.ColorChanged(d.account, color), nav := Popped(d.nav))
  }

  /** The sign-in row: signs out a signed-in user, otherwise signs in with
      whatever `login` settles with; then back. */
  function AuthToggled(d: Device, outcome: Account.LoginOutcome): (r: Device)
    requires DeviceValid(d)
    ensures DeviceValid(r) && r.nav == Popped(d.nav) && r.player == d.player && r.library == d.library
    ensures d.account.user.Some? ==> r.account.user == None && r.account.color == Account.DefaultColor
    ensures d.account.user.None? ==> r.account == Account.LoggedIn(d.account, outcome)
  {
    var account := if d.account.user.Some? then Account.LoggedOut(d.account)
                   else Account.LoggedIn(d.account, outcome);
    d.(account := account, nav := Popped(d.nav))
  }

  /** Play Now: the remembered row's track plays alone, the row is
      forgotten, and Now Playing replaces the options screen. Without a
      remembered row nothing happens. */
  function PendingPlayed(d: Device): (r: Device)
    requires DeviceValid(d)
    ensures DeviceValid(r) && r.library == d.library && r.account == d.account
    ensures d.nav.pending.None? ==> r == d
    ensures d.nav.pending.Some? ==>
              r.player == Playback.Played(d.player, ItemTrack(d.nav.pending.value)) &&
              r.nav == Replaced(d.nav.(pending := None), NowPlayingId)
  {
    if d.nav.pending.Some? then
      d.(player := Playback.Played(d.player, ItemTrack(d.nav.pending.value)),
         nav := Replaced(d.nav.(pending := None), NowPlayingId))
    else d
  }

  /** Add to Queue: the remembered row's track joins the queue, the row is
      forgotten, then back. */
  function PendingQueued(d: Device): (r: Device)
    requires DeviceValid(d)
    ensures DeviceValid(r) && r.library == d.library && r.account == d.account
    ensures d.nav.pending.None? ==> r == d
    ensures d.nav.pending.Some? ==>
              r.player == Playback.Enqueued(d.player, ItemTrack(d.nav.pending.value)) &&
              r.nav == Popped(d.nav.(pending := None))
  {
    if d.nav.pending.Some? then
      d.(player := Playback.Enqueued(d.player, ItemTrack(d.nav.pending.value)),
         nav := Popped(d.nav.(pending := None)))
    else d
  }

  /** Add to Playlist: the remembered row's track moves to the playlist
      store's waiting slot and the picker replaces the options screen. */
  function PendingOffered(d: Device): (r: Device)
    requires DeviceValid(d)
    ensures DeviceValid(r) && r.player == d.player && r.account == d.account
    ensures d.nav.pending.None? ==> r == d
    ensures d.nav.pending.Some? ==>
              r.library == d.library.(pending := Some(ItemTrack(d.nav.pending.value))) &&
              r.nav == Replaced(d.nav.(pending := None), AddToPlaylistId)
  {
    if d.nav.pending.Some? then
      d.(library := d.library.(pending := Some(ItemTrack(d.nav.pending.value))),
         nav := Replaced(d.nav.(pending := None), AddToPlaylistId))
    else d
  }

  /** A playlist row in the picker: the waiting track, if any, is filed
      into that playlist and the slot emptied; then back twice. */
  function PlaylistPicked(d: Device, playlistId: string): (r: Device)
    requires DeviceValid(d)
    ensures DeviceValid(r) && r.player == d.player && r.account == d.account
    ensures r.nav == PoppedTwice(d.nav)
    ensures d.library.pending.None? ==> r.library == d.library
    ensures d.library.pending.Some? ==>
              r.library == Library.LibraryState(Library.WithTrack(d.library.playlists, playlistId, d.library.pending.value), None)
  {
    var library := if d.library.pending.Some? then
                     Library.LibraryState(Library.WithTrack(d.library.playlists, playlistId, d.library.pending.value), None)
                   else d.library;
    d.(library := library, nav := PoppedTwice(d.nav))
  }

  /** The actions the hook recognises; any other action does nothing. */
  const KnownActions: set<Option<string>> := {
    Some("setColor"), Some("playNow"), Some("addToQueue"), Some("addToPlaylist"),
    Some("createPlaylist"), Some("newPlaylistInline"), Some("pickPlaylist")}

  /** `handleAction(item)`, tried in the hook's order: colour, the sign-in
      row (by id), play now, add to queue, add to playlist, the two
      create-playlist actions, pick playlist; any other action does
      nothing. `login` settles with `outcome`. */
  function ActionHandled(d: Device, item: MenuItem, outcome: Account.LoginOutcome): (r: Device)
    requires DeviceValid(d)
    ensures DeviceValid(r)
    ensures item.action == Some("setColor") ==> r == ColorPicked(d, item.id)
    ensures item.action != Some("setColor") && item.id == "auth" ==> r == AuthToggled(d, outcome)
    ensures item.action != Some("setColor") && item.id != "auth" ==>
              (item.action == Some("playNow") ==> r == PendingPlayed(d)) &&
              (item.action == Some("addToQueue") ==> r == PendingQueued(d)) &&
              (item.action == Some("addToPlaylist") ==> r == PendingOffered(d)) &&
              (item.action == Some("createPlaylist") || item.action == Some("newPlaylistInline") ==>
                 r == d.(nav := Pushed(d.nav, CreatePlaylistInputId))) &&
              (item.action == Some("pickPlaylist") ==> r == PlaylistPicked(d, item.id))
    ensures item.id != "auth" && item.action !in KnownActions ==> r == d
  {
    if item.action == Some("setColor") then ColorPicked(d, item.id)
    else if item.id == "auth" then AuthToggled(d, outcome)
    else if item.action == Some("playNow") then PendingPlayed(d)
    else if item.action == Some("addToQueue") then PendingQueued(d)
    else if item.action == Some("addToPlaylist") then PendingOffered(d)
    else if item.action == Some("createPlaylist") || item.action == Some("newPlaylistInline") then
      d.(nav := Pushed(d.nav, CreatePlaylistInputId))
    else if item.action == Some("pickPlaylist") then PlaylistPicked(d, item.id)
    else d
  }

  /** `select()`: nothing while loading or on an empty screen; otherwise
      the highlighted row acts according to its type. The precondition is
      the engine invariant: on a highlight past the last row the hook
      reads an undefined row and throws. */
  function Selected(d: Device, outcome: Account.LoginOutcome): (r: Device)
    requires DeviceValid(d)
    ensures DeviceValid(r)
    ensures d.nav.loading || Count(d.nav) == 0 ==> r == d
    ensures !d.nav.loading && Count(d.nav) > 0 ==>
              var item := Highlighted(d.nav);
              (item.kind == MenuKind || item.kind == AppKind ==> r == d.(nav := Entered(d.nav, item))) &&
              (item.kind == BackKind ==> r == d.(nav := Popped(d.nav))) &&
              (item.kind == LinkKind && item.id in d.nav.menus ==> r == d.(nav := Pushed(d.nav, item.id))) &&
              (item.kind == LinkKind && item.id !in d.nav.menus ==> r == d) &&
              (item.kind == ActionKind ==> r == ActionHandled(d, item, outcome)) &&
              (item.kind == TrackKind ==> r == d.(nav := Pushed(d.nav.(pending := Some(item)), TrackActionsId))) &&
              (item.kind == OtherKind ==> r == d)
  {
    var n := d.nav;
    if n.loading || Count(n) == 0 then d
    else
      var item := Highlighted(n);
      match item.kind
      case MenuKind => d.(nav := Entered(n, item))
      case AppKind => d.(nav := Entered(n, item))
      case BackKind => d.(nav := Popped(n))
      case LinkKind => if item.id in n.menus then d.(nav := Pushed(n, item.id)) else d
      case ActionKind => ActionHandled(d, item, outcome)
      case TrackKind => d.(nav := Pushed(n.(pending := Some(item)), TrackActionsId))
      case OtherKind => d
  }

  // ---------------------------------------------------------------------
  // Properties of select
  // ---------------------------------------------------------------------

  /** How deep the stack must be for a row to leave the main menu at the
      bottom: replacing the top needs a screen above main, the double back
      needs two. */
  function MinDepth(item: MenuItem): (k: nat)
    ensures 1 <= k <= 3
  {
    if item.kind != ActionKind || item.action == Some("setColor") || item.id == "auth" then 1
    else if item.action == Some("playNow") || item.action == Some("addToPlaylist") then 2
    else if item.action == Some("pickPlaylist") then 3
    else 1
  }

  predicate Rooted(n: Nav)
  {
    |n.path| > 0 && n.path[0] == MainId
  }

  /** Selecting never removes the main menu from the bottom of the stack,
      provided the stack is deep enough for the highlighted row. */
  lemma SelectedStaysRooted(d: Device, outcome: Account.LoginOutcome)
    requires DeviceValid(d) && Rooted(d.nav)
    requires !d.nav.loading && Count(d.nav) > 0 ==> |d.nav.path| >= MinDepth(Highlighted(d.nav))
    ensures Rooted(Selected(d, outcome).nav)
  {
  }

  /** Picking a playlist with a track waiting files the track into that
      playlist, clears the waiting slot, and drops the picker and the
      screen below it from the stack. */
  lemma PickPlaylistFilesTrack(d: Device, outcome: Account.LoginOutcome)
    requires DeviceValid(d) && !d.nav.loading && Count(d.nav) > 0
    requires Highlighted(d.nav).kind == ActionKind && Highlighted(d.nav).action == Some("pickPlaylist")
    requires Highlighted(d.nav).id != "auth"
    requires d.library.pending.Some? && |d.nav.path| >= 3
    ensures var r := Selected(d, outcome);
            r.library.pending == None &&
            r.library.playlists == Library.WithTrack(d.library.playlists, Highlighted(d.nav).id, d.library.pending.value) &&
            r.nav.path == d.nav.path[..|d.nav.path| - 2] &&
            r.player == d.player && r.account == d.account
  {
  }

  /** A track row opens the track options and remembers the row; Play Now
      there plays that row's track alone and swaps the options screen for
      Now Playing, one level above the list the row came from. */
  lemma TrackThenPlayNow(d: Device, outcome: Account.LoginOutcome)
    requires DeviceValid(d) && !d.nav.loading && Count(d.nav) > 0
    requires Highlighted(d.nav).kind == TrackKind
    requires d.nav.menus[MainId] == Registry.InitialMenus()[MainId]
    requires TrackActionsId in d.nav.menus && d.nav.menus[TrackActionsId].items == Registry.TrackActionItems
    ensures var shown := Selected(d, outcome);
            shown.nav.path == d.nav.path + [TrackActionsId] &&
            shown.nav.pending == Some(Highlighted(d.nav)) &&
            var played := Selected(shown, outcome);
            played.player.queue == [ItemTrack(Highlighted(d.nav))] && played.player.playing &&
            played.nav.path == d.nav.path + [NowPlayingId] && played.nav.pending == None
  {
    Registry.InitialContents();
    var item := Highlighted(d.nav);
    var shown := Selected(d, outcome);
    assert shown.nav.path == d.nav.path + [TrackActionsId];
    assert CurrentMenu(shown.nav) == shown.nav.menus[TrackActionsId];
    assert Highlighted(shown.nav) == Registry.TrackActionItems[0];
    assert (d.nav.path + [TrackActionsId])[..|d.nav.path|] == d.nav.path;
  }

  /** From start-up: one step down highlights Music; select starts the
      loading delay without moving; when the delay ends the Music screen is
      on top with its first row highlighted. */
  lemma OpenMusicFromStart(savedFavorites: seq<Track>, savedPlaylists: seq<Library.Playlist>, outcome: Account.LoginOutcome)
    ensures var d0 := InitialDevice(savedFavorites, savedPlaylists);
            var d1 := d0.(nav := Scrolled(d0.nav, 1));
            var d2 := Selected(d1, outcome);
            d1.nav.cursor == 1 && d2.nav.loading && d2.nav.path == [MainId] &&
            MusicLoaded(d2.nav).path == [MainId, MusicId] &&
            CurrentMenu(MusicLoaded(d2.nav)).items == Registry.MusicItems
  {
    Registry.InitialContents();
    var d0 := InitialDevice(savedFavorites, savedPlaylists);
    assert Count(d0.nav) == 4;
    var d1 := d0.(nav := Scrolled(d0.nav, 1));
    assert Highlighted(d1.nav) == Registry.MainItems[1];
  }
}
