# iPod-style YouTube player — a Dafny model of its navigation core

The application is a browser "iPod": a click wheel drives a stack of
menu screens, and tracks found on YouTube are played, queued, starred
and filed into playlists. This project models the parts of it that hold
logic:

- the navigation hook `useMenu`, a `MenuEngine` class;
- the initial screen registry;
- the three stores (player queue and favourites, playlists, account);
- the search resolver with its fallback chain, and the two serverless
  endpoints;
- the screen router and the shell's button dispatch;
- the screens that turn store data into menu rows;
- the Now Playing screen and the first-run guide.

Every stateful component is a class whose fields are the component's
state. Each method's postcondition ties the new state to a pure function
of the old one. The properties are proved about those functions: bounds,
invariants, round trips, idempotence, and the fallback order of the
search chain.

The `Device` value gathers the navigation state and the three stores. It
is what `select` and the shell act on. Provider calls, the clock, the
login popup and the browser are parameters:

- each search provider's answer is an outcome value;
- a sign-in attempt settles with a `LoginOutcome`;
- a new playlist's `Date.now()` suffix is a `stamp` string.

Modules, one per file:

| file | module | models |
|---|---|---|
| text.dfy | `Text` | decimal rendering, `trim`, `startsWith`, first-occurrence `replace` |
| media.dfy | `Media` | tracks, menu items, screens |
| registry.dfy | `Registry` | the initial screen registry |
| playback.dfy | `Playback` | the player store |
| library.dfy | `Library` | the playlist store |
| account.dfy | `Account` | the account store |
| navigation.dfy | `Navigation` | the navigation hook as functions on values |
| engine.dfy | `Engine` | the hook as a class |
| search.dfy | `Search` | the browser search and suggestion resolver |
| api.dfy | `Api` | the two endpoints |
| builders.dfy | `Builders` | the row builders |
| screen.dfy | `Routing` | the router, the list view and the name field |
| screens.dfy | `Screens` | the stateful screens and the publications |
| shell.dfy | `Shell` | the device frame |
| nowplaying.dfy | `NowPlayingScreen` | the Now Playing screen |
| onboarding.dfy | `Onboarding` | the first-run guide |

## Model

| member | source | states |
|---|---|---|
| Media.ItemTrackAsWritten | src/hooks/useMenu.js:93-98 | as the hook writes it, the track handed on is the row itself: the row's id with the spread track's title, artist and thumbnail |
| Media.ItemTrack | src/hooks/useMenu.js:116-143 | corrected: the track handed to `play`, `addToQueue` or the picker is exactly the track the row was built from; it agrees with the as-written step on every row filed under its own track's id |
| Registry.InitialMenus | src/utils/menus.js:1-67 | the registry has exactly the ten screens main, music, settings, color_theme, nowplaying, favorites, queue, search, trackActions and addToPlaylist |
| Registry.InitialContents | src/utils/menus.js:1-67 | Music is row 1 of main; there are no playlists, createPlaylistInput, coverflow or about screens; trackActions offers exactly playNow then addToPlaylist; every colour row is a setColor action; the sign-in row has id auth and no action; the five dynamic screens start empty |
| Playback.Initial | src/context/PlayerContext.jsx:8-22 | empty queue at cursor −1, no track, paused, favourites read back from storage, invariant holds |
| Playback.Played | src/context/PlayerContext.jsx:107-113 | play(t): queue is [t], cursor 0, t is current, playing, progress zero, favourites kept |
| Playback.Enqueued | src/context/PlayerContext.jsx:42-53 | appended at the end; on an empty queue t becomes current at 0 and plays; otherwise cursor, track and transport unchanged |
| Playback.RemoveAt | src/context/PlayerContext.jsx:57 | filtering out position i removes exactly that element and keeps the rest in order; an index past the end changes nothing |
| Playback.RemovedAt | src/context/PlayerContext.jsx:55-75 | below the cursor: cursor moves down with the same track; above: unchanged; at the cursor: `min(i, len−1)` becomes current, or the player resets when the queue empties; invariant kept |
| Playback.Cleared | src/context/PlayerContext.jsx:77-82 | empty queue, cursor −1, no track, paused, favourites kept |
| Playback.Advanced | src/context/PlayerContext.jsx:84-93 | one step forward with progress reset only while a next entry exists, never wrapping; otherwise no change |
| Playback.Rewound | src/context/PlayerContext.jsx:95-104 | one step back while the cursor is above 0; otherwise no change |
| Playback.HasNext | src/context/PlayerContext.jsx:85-87 | `playNext`'s guard: a queue entry follows the cursor (false on an empty queue, where the cursor is −1) |
| Playback.HasPrevious | src/context/PlayerContext.jsx:96-98 | `playPrevious`'s guard: the cursor is above the first entry |
| Playback.AfterEvent | src/context/PlayerContext.jsx:129-145 | 1 plays, 2 pauses, 0 advances if possible or else stops without moving the cursor, other codes ignored; invariant kept |
| Playback.EndedAdvancesLikeNext | src/context/PlayerContext.jsx:133-141 | the end-of-track advance equals `playNext` |
| Playback.PlayToggled | src/context/PlayerContext.jsx:115-122 | only the playing flag changes, and it flips |
| Playback.IsFavorite | src/context/PlayerContext.jsx:37-39 | `isFavorite(track)`: some favourite has the track's id; only the id is compared |
| Playback.WithoutId | src/context/PlayerContext.jsx:31 | the filter keeps only entries of other ids, each from the original list |
| Playback.WithoutAbsentId | src/context/PlayerContext.jsx:31 | filtering an id that is absent changes nothing |
| Playback.WithoutIdKeeps | src/context/PlayerContext.jsx:31 | every entry of another id survives the filter |
| Playback.WithoutIdOne | src/context/PlayerContext.jsx:31 | one entry is kept exactly when its id differs |
| Playback.WithoutIdConcat | src/context/PlayerContext.jsx:31 | the filter works entry by entry, so the survivors keep their order and multiplicity |
| Playback.FavoriteToggled | src/context/PlayerContext.jsx:29-35 | a starred track's id is filtered out, an unstarred track is appended, nothing else changes |
| Playback.ToggleFlips | src/context/PlayerContext.jsx:29-39 | after a toggle, `isFavorite` of that track is the opposite of before |
| Playback.ToggleTwice | src/context/PlayerContext.jsx:29-39 | toggling twice restores every track's membership, and restores the list exactly when the track was not starred |
| Playback.WithoutAbsentIdAppended | src/context/PlayerContext.jsx:31-33 | appending a new id and filtering it out gives the original list |
| Playback.Player.constructor | src/context/PlayerContext.jsx:8-22 | the fields start in `Initial(saved)` |
| Playback.Player.Play | src/context/PlayerContext.jsx:107-113 | the fields become `Played` of the old state |
| Playback.Player.AddToQueue | src/context/PlayerContext.jsx:42-53 | the fields become `Enqueued` of the old state, invariant kept |
| Playback.Player.RemoveFromQueue | src/context/PlayerContext.jsx:55-75 | the fields become `RemovedAt` of the old state, invariant kept |
| Playback.Player.ClearQueue | src/context/PlayerContext.jsx:77-82 | the fields become `Cleared` |
| Playback.Player.PlayNext | src/context/PlayerContext.jsx:84-93 | the fields become `Advanced` |
| Playback.Player.PlayPrevious | src/context/PlayerContext.jsx:95-104 | the fields become `Rewound` |
| Playback.Player.OnStateChange | src/context/PlayerContext.jsx:129-145 | the fields become `AfterEvent` |
| Playback.Player.TogglePlay | src/context/PlayerContext.jsx:115-122 | the fields become `PlayToggled` |
| Playback.Player.ToggleFavorite | src/context/PlayerContext.jsx:29-35 | the fields become `FavoriteToggled` |
| Library.Initial | src/context/PlaylistContext.jsx:8-14 | the saved playlists, with no pending track |
| Library.NewPlaylist | src/context/PlaylistContext.jsx:22-26 | id is "pl_" followed by the stamp, the given name, no tracks |
| Library.Created | src/context/PlaylistContext.jsx:21-29 | one playlist appended, the earlier ones unchanged |
| Library.CreatedKeepsDistinct | src/context/PlaylistContext.jsx:21-29 | a fresh stamp keeps playlist ids distinct and every track list deduplicated |
| Library.WithTrackOne | src/context/PlaylistContext.jsx:33-36 | a track is appended only when its id is not already present |
| Library.WithTrack | src/context/PlaylistContext.jsx:31-38 | every playlist with that id gets the track deduplicated; the others are unchanged |
| Library.WithTrackUnknownId | src/context/PlaylistContext.jsx:32-33 | an unknown playlist id changes nothing |
| Library.WithTrackIdempotent | src/context/PlaylistContext.jsx:35 | adding twice equals adding once |
| Library.WithTrackKeepsDeduplicated | src/context/PlaylistContext.jsx:31-38 | track ids stay distinct within every playlist |
| Library.TracksWithout | src/context/PlaylistContext.jsx:43 | the filter leaves no track with that id and only tracks of the original list |
| Library.TracksWithoutOne | src/context/PlaylistContext.jsx:43 | one track is kept exactly when its id differs |
| Library.TracksWithoutConcat | src/context/PlaylistContext.jsx:43 | the filter works track by track, so the surviving tracks keep their order |
| Library.TracksWithoutAbsent | src/context/PlaylistContext.jsx:43 | removing an absent id changes nothing |
| Library.WithoutTrack | src/context/PlaylistContext.jsx:40-45 | only the named playlists lose the tracks of that id; ids and names stay |
| Library.RemoveUndoesAdd | src/context/PlaylistContext.jsx:31-45 | removing a track just added to playlists that lacked it restores the store |
| Library.TracksWithoutAppended | src/context/PlaylistContext.jsx:36-43 | appending a new track and filtering it out gives the original tracks |
| Library.Deleted | src/context/PlaylistContext.jsx:47-49 | no playlist of that id remains, every survivor comes from the store, an unknown id changes nothing |
| Library.DeletedOne | src/context/PlaylistContext.jsx:48 | one playlist is kept exactly when its id differs |
| Library.DeletedConcat | src/context/PlaylistContext.jsx:48 | deletion works playlist by playlist, so the remaining playlists keep their order |
| Library.DeletedKeeps | src/context/PlaylistContext.jsx:47-49 | every playlist of another id survives |
| Library.Find | src/context/PlaylistContext.jsx:51-53 | absent exactly when no playlist has the id; otherwise the first playlist with it |
| Library.FindAppended | src/context/PlaylistContext.jsx:51-53 | a playlist appended under a new id is what a lookup of that id finds |
| Library.FindCreated | src/context/PlaylistContext.jsx:21-53 | a playlist just created under a fresh stamp is found by its id |
| Library.PlaylistStore.constructor | src/context/PlaylistContext.jsx:8-14 | the fields start in `Initial(saved)` |
| Library.PlaylistStore.CreatePlaylist | src/context/PlaylistContext.jsx:21-29 | returns the new playlist; the list becomes `Created` |
| Library.PlaylistStore.AddToPlaylist | src/context/PlaylistContext.jsx:31-38 | the list becomes `WithTrack` |
| Library.PlaylistStore.RemoveFromPlaylist | src/context/PlaylistContext.jsx:40-45 | the list becomes `WithoutTrack` |
| Library.PlaylistStore.DeletePlaylist | src/context/PlaylistContext.jsx:47-49 | the list becomes `Deleted` |
| Library.PlaylistStore.SetPendingTrack | src/context/PlaylistContext.jsx:14 | only the pending slot changes |
| Account.Initial | src/context/AuthContext.jsx:9-11 | no user, loading, silver |
| Account.AuthStateChanged | src/context/AuthContext.jsx:14-17 | the reported user is adopted and loading ends |
| Account.LoadTimedOut | src/context/AuthContext.jsx:19 | loading ends, nothing else changes |
| Account.LoggedIn | src/context/AuthContext.jsx:26-36 | the result is adopted only when it is a user and none is signed in; failures change nothing |
| Account.LoggedOut | src/context/AuthContext.jsx:38-42 | no user and the colour back to silver |
| Account.ColorChanged | src/context/AuthContext.jsx:44-46 | only the colour changes |
| Account.LogoutUndoesLogin | src/context/AuthContext.jsx:26-46 | from the signed-out silver state, logging in, recolouring and logging out returns to it |
| Account.LoginKeepsExistingUser | src/context/AuthContext.jsx:30 | a login never replaces a signed-in user |
| Account.Auth.constructor | src/context/AuthContext.jsx:9-11 | the fields start in `Initial` |
| Account.Auth.OnAuthStateChanged | src/context/AuthContext.jsx:14-17 | the fields become `AuthStateChanged` |
| Account.Auth.OnLoadTimeout | src/context/AuthContext.jsx:19 | the fields become `LoadTimedOut` |
| Account.Auth.Login | src/context/AuthContext.jsx:26-36 | the fields become `LoggedIn` |
| Account.Auth.Logout | src/context/AuthContext.jsx:38-42 | the fields become `LoggedOut` |
| Account.Auth.ChangeColor | src/context/AuthContext.jsx:44-46 | the fields become `ColorChanged` |
| Navigation.CurrentMenu | src/hooks/useMenu.js:20-21 | the registered screen on top of the stack, and a registered screen in every case (main when the top is unknown or the stack empty) |
| Navigation.Highlighted | src/hooks/useMenu.js:45 | the highlighted row is a row of the screen on display |
| Navigation.Initial | src/hooks/useMenu.js:8-11 | stack [main], cursor 0, not loading, no pending row, main on display |
| Navigation.Clamp | src/hooks/useMenu.js:32-37 | 0 on an empty screen; otherwise a row index, equal to the request when in range and pinned to the nearer end when not |
| Navigation.Scrolled | src/hooks/useMenu.js:30-39 | only the cursor changes, stays on a row, and moves by `direction` when that stays in range |
| Navigation.ScrollRoundTrip | src/hooks/useMenu.js:30-39 | away from the last row, down then up returns to the same state |
| Navigation.ScrollStopsAtEnds | src/hooks/useMenu.js:35-36 | scrolling past either end does not wrap and changes nothing |
| Navigation.Pushed | src/hooks/useMenu.js:81-82 | the id goes on top, cursor 0, registry, loading flag and pending row unchanged |
| Navigation.Popped | src/hooks/useMenu.js:101-106 | above depth 1 exactly one frame is removed with cursor 0; at depth 1 nothing changes |
| Navigation.Replaced | src/hooks/useMenu.js:123-124 | the top frame is swapped for the id, depth unchanged, cursor 0 |
| Navigation.PoppedTwice | src/hooks/useMenu.js:158-159 | both backs test the depth before either ran, so above depth 1 two frames go, else nothing |
| Navigation.PopUndoesPush | src/hooks/useMenu.js:81-106 | back after a push restores the stack |
| Navigation.PickerBacksOutPastList | src/hooks/useMenu.js:96-159 | track options pushed, then the picker replacing them, then a pick: the stack ends one below the list the track came from |
| Navigation.PoppedTwiceAtDepthTwo | src/hooks/useMenu.js:158-159 | at depth 2 the double back empties the stack, `CurrentMenu` falls back to main, and back can no longer act (what the router draws on an empty stack is not modelled) |
| Navigation.WithItems | src/hooks/useMenu.js:24-27 | only that screen's rows change; its title is kept, it is created untitled when absent, other screens are untouched |
| Navigation.UpdatedAsWritten | src/hooks/useMenu.js:23-28 | the update as written: only that screen's rows change, and stack, cursor, loading flag and pending row stay as they were |
| Navigation.StrandedCursor | src/hooks/useMenu.js:23-28 | a concrete valid state that the as-written update leaves with the cursor past the last row |
| Navigation.Updated | src/hooks/useMenu.js:23-28 | corrected: the registry update with the cursor kept whenever it is still on a row, and the state valid |
| Navigation.UpdatedKeepsCursorOnRow | src/hooks/useMenu.js:23-28 | after an update the cursor is on a row of the screen on display |
| Navigation.UpdatedIdempotent | src/hooks/useMenu.js:23-28 | publishing the same rows twice equals publishing them once |
| Navigation.UpdatedElsewhere | src/hooks/useMenu.js:23-28 | publishing to a screen not on display changes neither the display nor the cursor |
| Navigation.MusicLoaded | src/hooks/useMenu.js:51-65 | the end of the music delay: loading off, music pushed, cursor 0 |
| Navigation.InitialDevice | src/hooks/useMenu.js:8-11 | the device starts valid with the initial navigation state |
| Navigation.DetailId | src/hooks/useMenu.js:71 | "playlist_detail_" followed by the playlist id |
| Navigation.Entered | src/hooks/useMenu.js:47-82 | music only raises the loading flag; a pl_ row registers its detail screen if absent, keeping an existing one, then pushes it; any other row pushes its id |
| Navigation.ColorPicked | src/hooks/useMenu.js:109-111 | the colour becomes the row's id with user and loading kept, one back, player and playlists untouched |
| Navigation.AuthToggled | src/hooks/useMenu.js:112-115 | signed in: logout with silver; signed out: login settles with the outcome; one back either way |
| Navigation.PendingPlayed | src/hooks/useMenu.js:116-125 | corrected (the track is `ItemTrack` of the row): with a pending row: its track plays alone, the slot clears, Now Playing replaces the top; otherwise nothing |
| Navigation.PendingQueued | src/hooks/useMenu.js:126-134 | corrected (the track is `ItemTrack` of the row): with a pending row: its track is queued, the slot clears, one back; otherwise nothing |
| Navigation.PendingOffered | src/hooks/useMenu.js:135-143 | corrected (the track is `ItemTrack` of the row): with a pending row: its track goes to the store's slot, the row slot clears, the picker replaces the top; otherwise nothing |
| Navigation.PlaylistPicked | src/hooks/useMenu.js:152-160 | the store's waiting track, if any, is filed and the slot cleared; the double back happens regardless |
| Navigation.ActionHandled | src/hooks/useMenu.js:108-161 | setColor wins over everything; otherwise the row with id auth toggles sign-in whatever its action; otherwise play now, add to queue, add to playlist, pick, and both create actions push the name field; an unknown action on another row changes nothing; the device stays valid |
| Navigation.Selected | src/hooks/useMenu.js:41-99 | nothing while loading or on an empty screen; otherwise menu and app rows go through `Entered`, back rows pop, a link pushes only a registered screen and otherwise does nothing, actions go to `ActionHandled`, a track row opens the options remembering the row, an unknown type does nothing; the device stays valid |
| Navigation.MinDepth | src/hooks/useMenu.js:109-160 | the stack depth a row needs: 1, 2 for the replacing actions, 3 for the double back |
| Navigation.SelectedStaysRooted | src/hooks/useMenu.js:41-161 | with enough depth for the highlighted row, main stays at the bottom of a non-empty stack |
| Navigation.PickPlaylistFilesTrack | src/hooks/useMenu.js:152-160 | a pick with a waiting track files it, clears the slot, and drops two frames |
| Navigation.TrackThenPlayNow | src/hooks/useMenu.js:93-125 | a track row opens the options and remembers the row; Play Now plays that row's track alone, one level above the list |
| Navigation.OpenMusicFromStart | src/hooks/useMenu.js:30-67 | from start-up, down then select starts the delay; when it ends Music is on top with its own rows |
| Engine.MenuEngine.constructor | src/hooks/useMenu.js:8-17 | given a valid player, the engine starts valid, in `Initial`, with its three stores |
| Engine.MenuEngine.Scroll | src/hooks/useMenu.js:30-39 | the state becomes `Scrolled` |
| Engine.MenuEngine.GoBack | src/hooks/useMenu.js:101-106 | the state becomes `Popped` |
| Engine.MenuEngine.UpdateMenuItems | src/hooks/useMenu.js:23-28 | corrected: the state becomes `Updated`, which keeps the cursor on a row |
| Engine.MenuEngine.FinishMusicLoad | src/hooks/useMenu.js:51-65 | the state becomes `MusicLoaded` |
| Engine.MenuEngine.Push | src/hooks/useMenu.js:81-82 | the state becomes `Pushed` |
| Engine.MenuEngine.ReplaceTop | src/hooks/useMenu.js:123-124 | the state becomes `Replaced` |
| Engine.MenuEngine.Select | src/hooks/useMenu.js:41-99 | the device becomes `Selected` |
| Engine.MenuEngine.Enter | src/hooks/useMenu.js:47-82 | the navigation state becomes `Entered`; the stores are untouched |
| Engine.MenuEngine.HandleAction | src/hooks/useMenu.js:108-161 | the device becomes `ActionHandled` |
| Engine.MenuEngine.PickColor | src/hooks/useMenu.js:109-111 | the device becomes `ColorPicked` |
| Engine.MenuEngine.ToggleAuth | src/hooks/useMenu.js:112-115 | the device becomes `AuthToggled` |
| Engine.MenuEngine.PlayPending | src/hooks/useMenu.js:116-125 | the device becomes `PendingPlayed` |
| Engine.MenuEngine.QueuePending | src/hooks/useMenu.js:126-134 | the device becomes `PendingQueued` |
| Engine.MenuEngine.OfferPending | src/hooks/useMenu.js:135-143 | the device becomes `PendingOffered` |
| Engine.MenuEngine.PickPlaylist | src/hooks/useMenu.js:152-160 | the device becomes `PlaylistPicked` |
| Search.OrElse | src/services/youtube.js:36-37 | JavaScript `\|\|` on a string: the value when present and non-empty, the default otherwise |
| Search.VideoId | src/services/youtube.js:35 | absent without a url; a watch url loses its "/watch?v=" prefix |
| Search.Normalised | src/services/youtube.js:34-39 | id from the url; "Unknown" and "Unknown Artist" for a missing title and uploader; a given thumbnail kept, otherwise `img.youtube.com/vi/<id>/default.jpg`, with the text "undefined" as id when there is no url |
| Search.NormalisedWatchUrl | src/services/youtube.js:35-38 | a watch url yields the video id and the derived thumbnail `img.youtube.com/vi/<id>/default.jpg` |
| Search.Streams | src/services/youtube.js:32 | exactly the stream items are kept |
| Search.Converted | src/services/youtube.js:31-39 | the first 15 streams in order, each normalised |
| Search.ConvertedBounded | src/services/youtube.js:31-39 | at most 15 results, and none exactly when there are no streams |
| Search.Usable | src/services/youtube.js:29-30 | an instance's reply is taken only when the request succeeded and its `items` list is non-empty |
| Search.PipedChain | src/services/youtube.js:22-43 | absent exactly when no instance answered with items; otherwise at most 15 tracks |
| Search.PipedChainFirstWins | src/services/youtube.js:22-43 | the first instance that answers with items decides the result |
| Search.SearchPipedDirect | src/services/youtube.js:22-43 | the loop computes `PipedChain`, stopping at the first usable reply, with the instances before it all unusable |
| Search.ProxyResult | src/services/youtube.js:46-53 | a non-empty ok list, otherwise absent |
| Search.ApiTrack | src/services/youtube.js:77-82 | the Data API item's video id, title, channel and default thumbnail |
| Search.KeyUsable | src/services/youtube.js:70 | the key counts only when it is present, non-empty and not the placeholder `YOUR_YOUTUBE_API_KEY` |
| Search.ApiResult | src/services/youtube.js:75-83 | present exactly for a reply without error and with items, mapped one to one |
| Search.SearchResult | src/services/youtube.js:56-88 | blank query: the built-in list; production: proxy else built-in list; development: the Piped chain's list when an instance answered, else the Data API's list when the key is real and the API answered, else the built-in list |
| Search.SearchYouTube | src/services/youtube.js:56-88 | the resolver computes `SearchResult` |
| Search.ProductionNeverEmpty | src/services/youtube.js:57-64 | production never returns an empty list |
| Search.StreamlessReplyEndsChain | src/services/youtube.js:30-31 | a first usable reply without streams gives an empty list, with no Data API or built-in list |
| Search.ApiNeedsKey | src/services/youtube.js:70 | without a real key the Data API's answer cannot affect the result |
| Search.DevelopmentExhaustion | src/services/youtube.js:66-87 | all instances failing and no usable Data API answer gives the built-in list |
| Search.Suggestions | src/services/youtube.js:112 | the first element of each entry, at most eight, in order |
| Search.SuggestionsOf | src/services/youtube.js:109-114 | a parsed reply with a second element gives its suggestions; anything else gives [] |
| Search.GetSuggestions | src/services/youtube.js:91-115 | a blank query gives []; production reads the endpoint and falls back to []; development parses the service reply |
| Api.SearchResponse | api/search.js:1-65 | CORS headers always; missing q is 400 with the error; otherwise 200 with the first usable instance's tracks, else the Data API's tracks when the key is real and the API answered, else [] |
| Api.MissingQ | api/search.js:7 | `!q`: the query parameter is absent or empty; both endpoints answer 400 on it |
| Api.SearchHandler | api/search.js:1-65 | the handler's loop computes `SearchResponse` |
| Api.SuggestResponse | api/suggest.js:1-23 | CORS headers always; missing q is 400; otherwise 200 with at most eight suggestions, [] on any failure |
| Api.AsProxyReply | src/services/youtube.js:48-51 | the browser accepts a 2xx list and treats anything else as failure |
| Api.AsSuggestProxyReply | src/services/youtube.js:97-99 | the browser accepts a 2xx list of suggestions |
| Api.ProductionMatchesDevelopment | api/search.js:16-64 | through the endpoint, production gives development's result, with the built-in list in place of an empty one |
| Api.SuggestionsAgree | api/suggest.js:8-22 | suggestions through the endpoint equal those read directly |
| Builders.TrackRow | src/components/ipod/SearchScreen.jsx:18-23 | a `track` row under the given id, labelled with the title, carrying the track |
| Builders.TrackRowRoundTrip | src/components/ipod/SearchScreen.jsx:18-23 | selecting the row hands back the track it was built from; the as-written step returns it under the row's id |
| Builders.TrackRows | src/components/ipod/FavoritesScreen.jsx:10-15 | one track row per track, in order, under the track's id |
| Builders.TrackRowsRecoverTracks | src/components/ipod/FavoritesScreen.jsx:10-15 | every row stands for exactly its track |
| Builders.QueueRowId | src/components/ipod/QueueScreen.jsx:13 | the track's id is a proper prefix of the row's id, so the two never coincide |
| Builders.QueueRows | src/components/ipod/QueueScreen.jsx:9-15 | one track row per queue entry, in order, under its position id |
| Builders.QueueRowIdsDistinct | src/components/ipod/QueueScreen.jsx:13 | rows at different positions never share an id, even for the same track |
| Builders.QueueRowsDistinct | src/components/ipod/QueueScreen.jsx:9-15 | all queue row ids are distinct |
| Builders.QueueRowLosesTrackId | src/components/ipod/QueueScreen.jsx:9-14 | as written, a selected queue row hands on a track whose id is not the queued track's id |
| Builders.QueueRowsRecoverTracks | src/components/ipod/QueueScreen.jsx:9-14 | with the corrected step, every queue row stands for exactly the queued track |
| Builders.SongCount | src/components/ipod/PlaylistsScreen.jsx:15 | "1 song", otherwise "N songs" |
| Builders.SongCountSingular | src/components/ipod/PlaylistsScreen.jsx:15 | the plural ending appears exactly when the count is not 1 |
| Builders.PlaylistRows | src/components/ipod/PlaylistsScreen.jsx:9-17 | "+ New Playlist" createPlaylist action first, then one `app` row per playlist under its id with the song count |
| Builders.PickerRows | src/components/ipod/AddToPlaylistScreen.jsx:10-23 | nothing while creating; otherwise the newPlaylistInline action first, then one pickPlaylist row per playlist |
| Builders.DetailPublication | src/components/ipod/PlaylistDetailScreen.jsx:9-19 | nothing for an unknown playlist; otherwise its tracks as rows under "playlist_detail_" followed by its id |
| Routing.DetailMatch | src/components/ipod/Screen.jsx:84 | matches exactly the prefix followed by a non-empty suffix without line terminators, capturing the suffix |
| Routing.DetailMatchRoundTrip | src/components/ipod/Screen.jsx:84 | a detail id parses back to its playlist id |
| Routing.Route | src/components/ipod/Screen.jsx:96-121 | loading wins; the seven fixed ids by exact match; detail ids to their playlist; anything else the generic list |
| Routing.PlaylistRowOpensItsDetail | src/components/ipod/Screen.jsx:108-113 | selecting a pl_ row displays that playlist's detail screen |
| Routing.ListRows | src/components/ipod/Screen.jsx:122-138 | one row per item with its label, highlighted exactly at the cursor, with ">" for menu, app and link rows |
| Routing.HighlightIsSelection | src/components/ipod/Screen.jsx:128-130 | the only highlighted row is the one `select` acts on |
| Routing.Submission | src/components/ipod/Screen.jsx:14-18 | a name is submitted exactly on Enter with a non-blank name, and it is the trimmed name |
| Routing.SubmissionIsTrimmed | src/components/ipod/Screen.jsx:15-16 | a submitted name starts and ends with a non-space character |
| Routing.CreatePlaylistInput.constructor | src/components/ipod/Screen.jsx:13 | the field starts empty |
| Routing.CreatePlaylistInput.SetName | src/components/ipod/Screen.jsx:26 | the field takes the typed value |
| Routing.CreatePlaylistInput.KeyDown | src/components/ipod/Screen.jsx:14-18 | returns `Submission(key, name)` |
| Screens.PlaylistCreated | src/components/ipod/Shell.jsx:53-62 | one playlist more, the slot cleared, one back, player and account untouched |
| Screens.CreatedPlaylistHoldsPendingTrack | src/components/ipod/Shell.jsx:53-62 | with a fresh stamp the earlier playlists are untouched and the new one holds exactly the waiting track, or nothing |
| Screens.CreateAndFile | src/components/ipod/Shell.jsx:53-62 | the device becomes `PlaylistCreated` |
| Screens.SearchScreen.constructor | src/components/ipod/SearchScreen.jsx:6-8 | empty query and results, not loading |
| Screens.SearchScreen.SetQuery | src/components/ipod/SearchScreen.jsx:44 | only the query changes |
| Screens.SearchScreen.StartSearch | src/components/ipod/SearchScreen.jsx:10-14 | loading goes up, the query is requested, old results stay |
| Screens.SearchScreen.Mount | src/components/ipod/SearchScreen.jsx:28-30 | requests "popular" |
| Screens.SearchScreen.KeyDown | src/components/ipod/SearchScreen.jsx:32-36 | Enter requests the current query; other keys do nothing |
| Screens.SearchScreen.ResultsArrived | src/components/ipod/SearchScreen.jsx:14-25 | results stored, loading down, track rows published under "search" |
| Screens.PlaylistPicker.constructor | src/components/ipod/AddToPlaylistScreen.jsx:7-8 | not creating, empty name |
| Screens.PlaylistPicker.SetNewName | src/components/ipod/AddToPlaylistScreen.jsx:62 | only the name changes |
| Screens.PlaylistPicker.Publish | src/components/ipod/AddToPlaylistScreen.jsx:10-23 | nothing while creating; otherwise the picker rows published under "addToPlaylist" |
| Screens.PlaylistPicker.HandlePickPlaylist | src/components/ipod/AddToPlaylistScreen.jsx:25-30 | (never wired in the app) the device becomes `PickerPicked` |
| Screens.PlaylistPicker.HandleCreateAndAdd | src/components/ipod/AddToPlaylistScreen.jsx:32-42 | (never wired in the app) a blank name changes nothing; otherwise `PlaylistCreated` under the trimmed name and the field closed and cleared |
| Screens.PlaylistPicker.KeyDown | src/components/ipod/AddToPlaylistScreen.jsx:44-48 | (never wired in the app) Enter runs `HandleCreateAndAdd`; other keys change nothing |
| Screens.PickerPicked | src/components/ipod/AddToPlaylistScreen.jsx:25-30 | (never wired in the app) no waiting track: no change; otherwise the track filed, the slot cleared, one back |
| Screens.PickerAgreesWithHookOnLibrary | src/components/ipod/AddToPlaylistScreen.jsx:25-30 | the unwired handler would file the track exactly as the hook's pick, which the app uses, does; the hook ends one frame lower |
| Screens.PublishFavorites | src/components/ipod/FavoritesScreen.jsx:8-17 | the favourites' track rows published under "favorites" |
| Screens.PublishQueue | src/components/ipod/QueueScreen.jsx:8-16 | the queue's rows published under "queue" |
| Screens.PublishPlaylists | src/components/ipod/PlaylistsScreen.jsx:8-19 | the playlist rows published under "playlists" |
| Screens.PublishDetail | src/components/ipod/PlaylistDetailScreen.jsx:9-19 | nothing for an unknown playlist; otherwise its track rows under its detail id |
| Shell.TopId | src/hooks/useMenu.js:20 | the top of the stack, absent on an empty stack |
| Shell.OnNowPlaying | src/components/ipod/Shell.jsx:23-24 | the top of the stack is `nowplaying`, the test the wheel and both side buttons make |
| Shell.SeekTarget | src/components/ipod/Shell.jsx:24-28 | ten seconds per step, held within 0 and the duration |
| Shell.SeekRoundTrip | src/components/ipod/Shell.jsx:24-28 | inside the track, forward then back returns to the same second |
| Shell.SeekMonotone | src/components/ipod/Shell.jsx:24-28 | turning further never lands earlier |
| Shell.Dispatch | src/components/ipod/Shell.jsx:22-51 | menu is back, centre is select, play toggles; on Now Playing the wheel seeks to `SeekTarget` of the current time and the side buttons skip; elsewhere the wheel and forward scroll and backward goes back |
| Shell.Applied | src/components/ipod/Shell.jsx:14 | each command's effect on the device; a seek changes nothing because the player provides no `seekTo` |
| Shell.Pressed | src/components/ipod/Shell.jsx:22-88 | a press of any control, dispatched and applied, leaves the device valid |
| Shell.SideButtonsFollowScreen | src/components/ipod/Shell.jsx:37-51 | forward and backward skip on Now Playing, and scroll down and go back elsewhere |
| Shell.ForwardThenBackward | src/components/ipod/Shell.jsx:37-51 | on Now Playing with a next track, forward then backward returns to the same queue slot and stack |
| Shell.MenuAndBackwardAgree | src/components/ipod/Shell.jsx:45-51 | away from Now Playing, backward equals menu, and play never touches navigation |
| Shell.Press | src/components/ipod/Shell.jsx:22-88 | the device becomes `Pressed` |
| Shell.SubmitName | src/components/ipod/Screen.jsx:120-121 | a submitted name creates the playlist through the shell's handler; otherwise nothing changes |
| Shell.Theme | src/components/ipod/Shell.jsx:16 | the stored colour when the theme table has it, silver otherwise |
| Shell.ColorMenuMatchesThemes | src/components/ipod/Shell.jsx:16 | every colour the Color menu offers has its own theme, and picking it shows that theme |
| NowPlayingScreen.TwoDigits | src/components/ipod/NowPlaying.jsx:17 | two digits reading back as the seconds |
| NowPlayingScreen.FormatTime | src/components/ipod/NowPlaying.jsx:13-18 | "0:00" for 0; otherwise the minutes without leading zeros, a colon and the seconds as two digits |
| NowPlayingScreen.FormatTimeRoundTrip | src/components/ipod/NowPlaying.jsx:13-18 | every label reads back as the time it shows, 0 as "0:00" included |
| NowPlayingScreen.ZeroLabel | src/components/ipod/NowPlaying.jsx:14 | "0:00" is a label that reads as 0 |
| NowPlayingScreen.FormatTimeInjective | src/components/ipod/NowPlaying.jsx:13-18 | different times get different labels |
| NowPlayingScreen.ControlsMatchPlayer | src/components/ipod/NowPlaying.jsx:21-22 | the skip controls are enabled exactly when the player can move that way |
| NowPlayingScreen.NextEnabled | src/components/ipod/NowPlaying.jsx:21 | `hasNext`: the cursor is before the last queue entry |
| NowPlayingScreen.PreviousEnabled | src/components/ipod/NowPlaying.jsx:22 | `hasPrev`: the cursor is past the first entry |
| NowPlayingScreen.PositionLabel | src/components/ipod/NowPlaying.jsx:81-85 | "i+1 of len" shown exactly for queues of two or more |
| NowPlayingScreen.PositionInRange | src/components/ipod/NowPlaying.jsx:81-85 | the position shown is between 1 and the queue length |
| NowPlayingScreen.Shown | src/components/ipod/NowPlaying.jsx:9-85 | "No Music Playing" exactly without a track; otherwise the track, its thumbnail, time labels reading back as time and duration, the star, the controls and the "i of n" position line |
| NowPlayingScreen.SkipClicked | src/components/ipod/NowPlaying.jsx:60-77 | a click keeps the player invariant |
| NowPlayingScreen.SkipClickedIsPlayerMove | src/components/ipod/NowPlaying.jsx:60-77 | a click always equals the player's move, dimmed or not |
| NowPlayingScreen.StarFlips | src/components/ipod/NowPlaying.jsx:66-70 | a click on the star flips it for the current track |
| Onboarding.Finished | src/components/OnboardingGuide.jsx:53-56 | done, on the same step |
| Onboarding.NextPressed | src/components/OnboardingGuide.jsx:39-45 | one step forward before the last step, finish on it; the step stays in range |
| Onboarding.BackPressed | src/components/OnboardingGuide.jsx:47-51 | one step back above 0, nothing at 0; the step stays in range |
| Onboarding.BackUndoesNext | src/components/OnboardingGuide.jsx:39-51 | before the last step, back undoes next |
| Onboarding.NextTimes | src/components/OnboardingGuide.jsx:39-45 | any number of presses keeps the step in range |
| Onboarding.NextTimesWalks | src/components/OnboardingGuide.jsx:39-45 | presses that stay within the steps advance one step each without finishing |
| Onboarding.NextTimesLast | src/components/OnboardingGuide.jsx:39-45 | one more press is one more step of `NextPressed` |
| Onboarding.WalkThrough | src/components/OnboardingGuide.jsx:3-45 | from the start five presses reach the last step unfinished, and the sixth finishes |
| Onboarding.NextCaption | src/components/OnboardingGuide.jsx:101-103 | "Get Started" exactly on the last step |
| Onboarding.Counter | src/components/OnboardingGuide.jsx:107-109 | exactly "i / 6" with i the step counted from one, between 1 and 6 |
| Onboarding.Guidebook.constructor | src/components/OnboardingGuide.jsx:37 | starts at step 0, not done |
| Onboarding.Guidebook.Next | src/components/OnboardingGuide.jsx:39-45 | the state becomes `NextPressed` |
| Onboarding.Guidebook.Prev | src/components/OnboardingGuide.jsx:47-51 | the state becomes `BackPressed` |
| Onboarding.Guidebook.Finish | src/components/OnboardingGuide.jsx:53-56 | the state becomes `Finished`; Skip calls the same handler |

## Left out

- Timers are not modelled as time. The 1.3 s music delay is two steps: `Entered` raises the flag and `MusicLoaded` ends it. The auth timeout is the `OnLoadTimeout` event. The progress polling interval is left out; `time` and `duration` are whatever the player last reported.
- Concurrency is not modelled. Login and logout take effect at once. Search responses arrive in the order they were requested; a late response overwriting a newer one is not modelled.
- Floating-point seconds are not modelled. Times are whole seconds (`nat`), so `formatTime` of a missing value is not modelled and the progress-bar width is left out.
- Shell.Applied: a seek changes nothing. `seekTo` is destructured in the shell but the player context does not provide it, so the call would throw. The target is still computed by `SeekTarget`.
- Navigation.Selected: requires a valid state. With a cursor past the last row the source reads an undefined row and throws; that state arises only through the finding below.
- Navigation.PoppedTwice: the path can empty at depth 2. The model keeps the empty stack, and `CurrentMenu` falls back to main. The router's `menuId.match` on an undefined id is not modelled.
- The `pl_` branch inside the music timer is unreachable, because its guard tests an id already known to be `music`. It is not modelled.
- Network and storage I/O are parameters. Each provider call is an outcome value. Favourites and playlists read from storage are constructor arguments, and writing them back is left out. The onboarding flag write and `onComplete` are the `done` field.
- The JSONP-stripping regular expression of the suggestion service is modelled by its outcome: parsed with or without a second element, or failed.
- The browser's and the endpoint's Data API requests differ. The endpoint reads its key from the server environment and asks only for the music category. `Api.ProductionMatchesDevelopment` compares the two paths on one given outcome.
- A Data API reply whose items lack the expected fields throws inside the mapping. That is modelled as a failed reply (`ApiUnreachable`).
- PlaylistPicker: the picker's own handlers are modelled as written but are never wired in the app. No code calls `handlePickPlaylist`. `creatingNew` is only ever set to false, so the inline field, `handleCreateAndAdd` and its key handler cannot run. Picking and creating go through the hook's `pickPlaylist` and `newPlaylistInline` actions.
- Playback.Player.RemoveFromQueue: takes a `nat` index. Negative indices are not modelled; the filter would leave the queue unchanged.
- `Date.now()` in playlist ids is the `stamp` parameter. Properties that need a fresh id assume it as a precondition.
- Library.PlaylistStore.GetPlaylist: has no contract of its own. It is `Find`, whose contract states the lookup.
- The Firebase sign-in service and the gesture angle arithmetic are not part of this model. Sign-in is a `LoginOutcome`, and the wheel is a `Wheel(direction)` button.
- Logout failure is not modelled. `logoutUser` is assumed to succeed.
- The source renders `undefined` into a derived thumbnail when an item has no url. This is modelled as the literal text "undefined".

## Findings

| source | as written | input that shows it | evidently intended | confidence | as-written member | corrected member |
|---|---|---|---|---|---|---|
| src/hooks/useMenu.js:23-28 | `updateMenuItems` replaces a screen's rows but leaves `selectedIndex` where it was | on the search screen with ten results and the cursor on row 9, a new search returns five; the cursor points past the last row and `select` reads an undefined row | pull the cursor back onto the screen's rows when the screen on display shrinks | medium, not executed | Navigation.StrandedCursor | Navigation.Updated |
| src/components/ipod/QueueScreen.jsx:9-14 | queue rows override the track's id with `<id>_q<position>`; the hook hands the selected row itself to `play`, `addToQueue` and the picker (useMenu.js:93-143), so that suffixed id becomes the track's id and is passed to the YouTube player as its video id (NowPlaying.jsx:89) | queue one track with id dQw4w9WgXcQ, open the queue, select its row and choose Play Now: the player is asked for video dQw4w9WgXcQ_q0 | keep the suffixed id as the row's key only, and hand on the queued track with its own id | medium, not executed | Builders.QueueRowLosesTrackId | Builders.QueueRowsRecoverTracks |
