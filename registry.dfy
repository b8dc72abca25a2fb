/** The screen registry the navigation engine starts from. */
module Registry {
  import opened Media

  const MainItems: seq<MenuItem> := [
    Plain("Cover Flow", "coverflow", LinkKind),
    Plain("Music", "music", MenuKind),
    Plain("Settings", "settings", MenuKind),
    Plain("Now Playing", "nowplaying", LinkKind)
  ]

  const MusicItems: seq<MenuItem> := [
    Plain("Queue", "queue", AppKind),
    Plain("Favorites", "favorites", AppKind),
    Plain("Playlists", "playlists", AppKind),
    Plain("Artists", "artists", MenuKind),
    Plain("Songs", "songs", MenuKind),
    Plain("Search", "search", AppKind)
  ]

  /** The Sign In / Out row carries no `action` field: the engine
      recognises it by its id. */
  const SettingsItems: seq<MenuItem> := [
    Plain("About", "about", LinkKind),
    Plain("Color Theme", "color_theme", MenuKind),
    Plain("Sign In / Out", "auth", ActionKind)
  ]

  const ColorItems: seq<MenuItem> := [
    ActionItem("Silver", "silver", "setColor"),
    ActionItem("Black", "black", "setColor"),
    ActionItem("Red", "red", "setColor"),
    ActionItem("Blue", "blue", "setColor"),
    ActionItem("Purple", "purple", "setColor")
  ]

  const TrackActionItems: seq<MenuItem> := [
    ActionItem("Play Now", "playNow", "playNow"),
    ActionItem("Add to Playlist", "addToPlaylist", "addToPlaylist")
  ]

  /** The ten screens registered at start-up. Screens whose rows come from
      live data start empty; `playlists`, `createPlaylistInput` and the
      link targets `coverflow` and `about` are not registered. */
  function InitialMenus(): (m: map<string, Screen>)
    ensures m.Keys == {"main", "music", "settings", "color_theme", "nowplaying",
                       "favorites", "queue", "search", "trackActions", "addToPlaylist"}
  {
    map[
      "main" := Screen(Some("iPod"), MainItems),
      "music" := Screen(Some("Music"), MusicItems),
      "settings" := Screen(Some("Settings"), SettingsItems),
      "color_theme" := Screen(Some("Color"), ColorItems),
      "nowplaying" := Screen(Some("Now Playing"), []),
      "favorites" := Screen(Some("Favorites"), []),
      "queue" := Screen(Some("Queue"), []),
      "search" := Screen(Some("Search"), []),
      "trackActions" := Screen(Some("Track Options"), TrackActionItems),
      "addToPlaylist" := Screen(Some("Add to Playlist"), [])
    ]
  }

  /** What the start-up registry shows: the main menu's four rows (Music at
      index 1), the two track options, the colour rows, the sign-in row and
      the data-backed screens that start empty. */
  lemma InitialContents()
    ensures InitialMenus()["main"].items == MainItems && MainItems[1].id == "music"
    ensures "playlists" !in InitialMenus() && "createPlaylistInput" !in InitialMenus()
    ensures "coverflow" !in InitialMenus() && "about" !in InitialMenus()
    ensures InitialMenus()["trackActions"].items == TrackActionItems
    ensures InitialMenus()["color_theme"].items == ColorItems
    ensures InitialMenus()["settings"].items == SettingsItems
    ensures InitialMenus()["nowplaying"].items == [] && InitialMenus()["favorites"].items == []
    ensures InitialMenus()["queue"].items == [] && InitialMenus()["search"].items == []
    ensures InitialMenus()["addToPlaylist"].items == []
    ensures |TrackActionItems| == 2
    ensures TrackActionItems[0].action == Some("playNow") && TrackActionItems[1].action == Some("addToPlaylist")
    ensures forall i :: 0 <= i < |ColorItems| ==> ColorItems[i].kind == ActionKind && ColorItems[i].action == Some("setColor")
    ensures SettingsItems[2].id == "auth" && SettingsItems[2].kind == ActionKind && SettingsItems[2].action == None
  {
  }
}
