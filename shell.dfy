/** The device frame: which command each click-wheel control issues, with
    the Now Playing screen giving the wheel and the side buttons their
    transport meaning, the colour theme, and the wiring of the name field
    to playlist creation. */
module Shell {
  import opened Media
  import opened Text
  import Registry
  import Playback
  import Account
  import opened Navigation
  import opened Engine
  import Routing
  import Screens

  datatype Button =
    | MenuButton
    | CenterButton
    | PlayButton
    | ForwardButton
    | BackwardButton
    | Wheel(direction: int)

  datatype Command =
    | Seek(time: nat)
    | ScrollBy(direction: int)
    | Next
    | Previous
    | Back
    | Choose
    | TogglePlayback

  /** Seconds one wheel step moves the playhead. */
  const SeekStep := 10

  /** `currentMenuId`: the top of the stack, absent when the stack is
      empty. */
  function TopId(path: seq<string>): (r: Option<string>)
    ensures r.Some? <==> |path| > 0
    ensures r.Some? ==> r.value == path[|path| - 1]
  {
    if |path| == 0 then None else Some(path[|path| - 1])
  }

  predicate OnNowPlaying(n: Nav)
  {
    TopId(n.path) == Some(NowPlayingId)
  }

  /** The seek target: `direction` steps of ten seconds from `time`, held
      between 0 and the track's duration. */
  function SeekTarget(time: nat, direction: int, duration: nat): (t: nat)
    ensures t <= duration
    ensures 0 <= time + direction * SeekStep <= duration ==> t == time + direction * SeekStep
    ensures time + direction * SeekStep < 0 ==> t == 0
    ensures time + direction * SeekStep > duration ==> t == duration
  {
    var wanted := time + direction * SeekStep;
    if wanted < 0 then 0 else if wanted > duration then duration else wanted
  }

  /** Inside the track, a step forward and a step back return to the same
      second. */
  lemma SeekRoundTrip(time: nat, duration: nat)
    requires time + SeekStep <= duration
    ensures SeekTarget(SeekTarget(time, 1, duration), -1, duration) == time
  {
  }

  /** Seeking is monotone in the direction: turning further never lands
      earlier. */
  lemma SeekMonotone(time: nat, d1: int, d2: int, duration: nat)
    requires d1 <= d2
    ensures SeekTarget(time, d1, duration) <= SeekTarget(time, d2, duration)
  {
  }

  /** The command a control issues. Menu, centre and play always go back,
      select and toggle playback; on Now Playing the wheel seeks and the
      side buttons skip, elsewhere the wheel and forward scroll and
      backward goes back. */
  function Dispatch(b: Button, n: Nav, time: nat, duration: nat): (c: Command)
    ensures b == MenuButton ==> c == Back
    ensures b == CenterButton ==> c == Choose
    ensures b == PlayButton ==> c == TogglePlayback
    ensures b == ForwardButton ==> c == (if OnNowPlaying(n) then Next else ScrollBy(1))
    ensures b == BackwardButton ==> c == (if OnNowPlaying(n) then Previous else Back)
    ensures b.Wheel? && OnNowPlaying(n) ==> c == Seek(SeekTarget(time, b.direction, duration))
    ensures b.Wheel? && !OnNowPlaying(n) ==> c == ScrollBy(b.direction)
  {
    match b
    case MenuButton => Back
    case CenterButton => Choose
    case PlayButton => TogglePlayback
    case ForwardButton => if OnNowPlaying(n) then Next else ScrollBy(1)
    case BackwardButton => if OnNowPlaying(n) then Previous else Back
    case Wheel(direction) =>
      if OnNowPlaying(n) then Seek(SeekTarget(time, direction, duration)) else ScrollBy(direction)
  }

  /** What a command does to the device. The player context provides no
      `seekTo`, so a seek changes nothing. */
  function Applied(d: Device, c: Command, outcome: Account.LoginOutcome): (r: Device)
    requires DeviceValid(d)
    ensures DeviceValid(r)
    ensures c.Seek? ==> r == d
    ensures c.ScrollBy? ==> r == d.(nav := Scrolled(d.nav, c.direction))
    ensures c == Next ==> r == d.(player := Playback.Advanced(d.player))
    ensures c == Previous ==> r == d.(player := Playback.Rewound(d.player))
    ensures c == Back ==> r == d.(nav := Popped(d.nav))
    ensures c == Choose ==> r == Selected(d, outcome)
    ensures c == TogglePlayback ==> r == d.(player := Playback.PlayToggled(d.player))
  {
    match c
    case Seek(_) => d
    case ScrollBy(direction) => d.(nav := Scrolled(d.nav, direction))
    case Next => d.(player := Playback.Advanced(d.player))
    case Previous => d.(player := Playback.Rewound(d.player))
    case Back => d.(nav := Popped(d.nav))
    case Choose => Selected(d, outcome)
    case TogglePlayback => d.(player := Playback.PlayToggled(d.player))
  }

  /** A press of control `b`; `outcome` settles a sign-in the press may
      start. */
  function Pressed(d: Device, b: Button, outcome: Account.LoginOutcome): (r: Device)
    requires DeviceValid(d)
    ensures DeviceValid(r)
  {
    Applied(d, Dispatch(b, d.nav, d.player.time, d.player.duration), outcome)
  }

  /** On Now Playing the side buttons move through the queue and leave the
      screen stack alone; elsewhere they scroll down one row and go back. */
  lemma SideButtonsFollowScreen(d: Device, outcome: Account.LoginOutcome)
    requires DeviceValid(d)
    ensures OnNowPlaying(d.nav) ==>
              Pressed(d, ForwardButton, outcome) == d.(player := Playback.Advanced(d.player)) &&
              Pressed(d, BackwardButton, outcome) == d.(player := Playback.Rewound(d.player))
    ensures !OnNowPlaying(d.nav) ==>
              Pressed(d, ForwardButton, outcome) == d.(nav := Scrolled(d.nav, 1)) &&
              Pressed(d, BackwardButton, outcome) == d.(nav := Popped(d.nav))
  {
  }

  /** On Now Playing, a queue move followed by its opposite returns to the
      track that was playing whenever the first move happened. */
  lemma ForwardThenBackward(d: Device, outcome: Account.LoginOutcome)
    requires DeviceValid(d) && OnNowPlaying(d.nav) && Playback.HasNext(d.player)
    ensures var r := Pressed(Pressed(d, ForwardButton, outcome), BackwardButton, outcome);
            r.nav == d.nav && r.player.index == d.player.index && r.player.queue == d.player.queue
  {
    var r1 := Pressed(d, ForwardButton, outcome);
    assert r1.nav == d.nav;
    assert Playback.HasPrevious(r1.player);
  }

  /** Away from Now Playing the menu button and the backward button do the
      same thing, and the play button never touches navigation. */
  lemma MenuAndBackwardAgree(d: Device, outcome: Account.LoginOutcome)
    requires DeviceValid(d) && !OnNowPlaying(d.nav)
    ensures Pressed(d, MenuButton, outcome) == Pressed(d, BackwardButton, outcome)
    ensures Pressed(d, PlayButton, outcome).nav == d.nav
  {
  }

  /** The imperative handler behind each control. */
  method Press(engine: MenuEngine, b: Button, outcome: Account.LoginOutcome)
    requires engine.Valid()
    modifies engine, engine.player, engine.playlists, engine.auth
    ensures engine.Valid() && engine.Snapshot() == Pressed(old(engine.Snapshot()), b, outcome)
  {
    var onNowPlaying := |engine.path| > 0 && engine.path[|engine.path| - 1] == NowPlayingId;
    match b
    case MenuButton => engine.GoBack();
    case CenterButton => engine.Select(outcome);
    case PlayButton => engine.player.TogglePlay();
    case ForwardButton =>
      if onNowPlaying {
        engine.player.PlayNext();
      } else {
        engine.Scroll(1);
      }
    case BackwardButton =>
      if onNowPlaying {
        engine.player.PlayPrevious();
      } else {
        engine.GoBack();
      }
    case Wheel(direction) =>
      if !onNowPlaying {
        engine.Scroll(direction);
      }
  }

  /** The name field on the `createPlaylistInput` screen hands a submitted
      name to the shell's `handleCreatePlaylist`. */
  method SubmitName(engine: MenuEngine, input: Routing.CreatePlaylistInput, key: string, stamp: string)
    requires engine.Valid()
    modifies engine, engine.playlists
    ensures engine.Valid()
    ensures Routing.Submission(key, input.name).None? ==> engine.Snapshot() == old(engine.Snapshot())
    ensures Routing.Submission(key, input.name).Some? ==>
              engine.Snapshot() == Screens.PlaylistCreated(old(engine.Snapshot()), Routing.Submission(key, input.name).value, stamp)
  {
    var submitted := input.KeyDown(key);
    if submitted.Some? {
      Screens.CreateAndFile(engine, submitted.value, stamp);
    }
  }

  // ---------------------------------------------------------------------
  // The colour theme
  // ---------------------------------------------------------------------

  const ThemeColors: set<string> := {"silver", "black", "red", "blue", "purple"}

  /** `ipodColors[ipodColor] || ipodColors.silver`: the stored colour when
      the theme table has it, silver otherwise. */
  function Theme(color: string): (t: string)
    ensures t in ThemeColors
    ensures color in ThemeColors ==> t == color
    ensures color !in ThemeColors ==> t == Account.DefaultColor
  {
    if color in ThemeColors then color else Account.DefaultColor
  }

  /** Every colour the Color menu offers has its own theme, and picking one
      shows that theme. */
  lemma ColorMenuMatchesThemes(d: Device, k: nat)
    requires DeviceValid(d) && k < |Registry.ColorItems|
    ensures Registry.ColorItems[k].id in ThemeColors
    ensures Theme(ColorPicked(d, Registry.ColorItems[k].id).account.color) == Registry.ColorItems[k].id
  {
  }
}
