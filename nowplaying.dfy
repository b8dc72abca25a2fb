/** The Now Playing screen: what it shows for the player's state, the
    elapsed/total time labels, the queue position line, and its skip and
    star controls. Times are whole seconds. */
module NowPlayingScreen {
  import opened Media
  import opened Text
  import opened Playback

  // ---------------------------------------------------------------------
  // Time labels
  // ---------------------------------------------------------------------

  /** The seconds part: two digits, a leading zero below ten. */
  function TwoDigits(n: nat): (s: string)
    requires n < 60
    ensures |s| == 2 && AllDigits(s)
    ensures ParseNat(s) == n
  {
    ParseNatToString(n);
    if n < 10 then "0" + NatToString(n)
    else
      assert ParseNat(NatToString(n)[..1]) == n / 10;
      NatToString(n)
  }

  /** A time label: digits, a colon, then exactly two digits. */
  predicate IsTimeLabel(s: string)
  {
    |s| >= 4 && s[|s| - 3] == ':' && AllDigits(s[..|s| - 3]) && AllDigits(s[|s| - 2..])
  }

  /** `formatTime(seconds)`: "0:00" for zero, otherwise whole minutes, a
      colon and the remaining seconds as two digits. */
  function FormatTime(seconds: nat): (s: string)
    ensures IsTimeLabel(s)
    ensures seconds == 0 ==> s == "0:00"
    ensures seconds > 0 ==> s[..|s| - 3] == NatToString(seconds / 60) && s[|s| - 2..] == TwoDigits(seconds % 60)
  {
    if seconds == 0 then "0:00"
    else NatToString(seconds / 60) + ":" + TwoDigits(seconds % 60)
  }

  /** Reads a label back: the digits before the colon are minutes, the two
      after it seconds. */
  function ParseTime(s: string): (seconds: nat)
    requires IsTimeLabel(s)
  {
    ParseNat(s[..|s| - 3]) * 60 + ParseNat(s[|s| - 2..])
  }

  /** Every label reads back as the time it shows, so distinct times get
      distinct labels. */
  lemma FormatTimeRoundTrip(seconds: nat)
    ensures ParseTime(FormatTime(seconds)) == seconds
  {
    if seconds == 0 {
      ZeroLabel();
    } else {
      var s, m, t := FormatTime(seconds), NatToString(seconds / 60), TwoDigits(seconds % 60);
      assert s[..|s| - 3] == m;
      assert s[|s| - 2..] == t;
      ParseNatToString(seconds / 60);
    }
  }

  lemma ZeroLabel()
    ensures IsTimeLabel("0:00") && ParseTime("0:00") == 0
  {
    var s := "0:00";
    assert s[..1] == "0" && s[2..] == "00";
    assert NatToString(0) == "0";
    ParseNatToString(0);
    assert "00"[..1] == "0";
    assert ParseNat("00") == ParseNat("0") * 10 + DigitValue('0');
  }

  lemma FormatTimeInjective(a: nat, b: nat)
    requires FormatTime(a) == FormatTime(b)
    ensures a == b
  {
    FormatTimeRoundTrip(a);
    FormatTimeRoundTrip(b);
  }

  // ---------------------------------------------------------------------
  // The screen
  // ---------------------------------------------------------------------

  /** `hasNext`: the cursor is before the last queue entry. */
  predicate NextEnabled(s: PlayerState)
  {
    s.index < |s.queue| - 1
  }

  /** `hasPrev`: the cursor is past the first entry. */
  predicate PreviousEnabled(s: PlayerState)
  {
    s.index > 0
  }

  /** The on-screen skip buttons are enabled exactly when the player can
      move in that direction. */
  lemma ControlsMatchPlayer(s: PlayerState)
    ensures NextEnabled(s) <==> HasNext(s)
    ensures PreviousEnabled(s) <==> HasPrevious(s)
  {
  }

  /** "i of n" under the controls, shown only for a queue of two or more. */
  function PositionLabel(s: PlayerState): (r: Option<string>)
    requires Inv(s)
    ensures r.Some? <==> |s.queue| > 1
    ensures r.Some? ==> r.value == NatToString(s.index + 1) + " of " + NatToString(|s.queue|)
  {
    if |s.queue| > 1 then Some(NatToString(s.index + 1) + " of " + NatToString(|s.queue|)) else None
  }

  /** The position line names a real queue slot: its first number is
      between 1 and the queue length. */
  lemma PositionInRange(s: PlayerState)
    requires Inv(s) && |s.queue| > 1
    ensures var line := PositionLabel(s).value;
            var first := NatToString(s.index + 1);
            line[..|first|] == first && 1 <= ParseNat(first) <= |s.queue|
  {
    ParseNatToString(s.index + 1);
  }

  datatype Display =
    | NoMusic
    | Showing(title: string, artist: string, thumbnail: string, elapsed: string, total: string,
              favorite: bool, previous: bool, next: bool, position: Option<string>)

  /** What the screen shows: "No Music Playing" without a current track,
      otherwise the track, its time labels, the star and the controls. */
  function Shown(s: PlayerState): (d: Display)
    requires Inv(s)
    ensures d.NoMusic? <==> s.current.None?
    ensures d.Showing? ==> d.title == s.current.value.title && d.artist == s.current.value.artist
    ensures d.Showing? ==> d.thumbnail == s.current.value.thumbnail && d.position == PositionLabel(s)
    ensures d.Showing? ==> IsTimeLabel(d.elapsed) && ParseTime(d.elapsed) == s.time
    ensures d.Showing? ==> IsTimeLabel(d.total) && ParseTime(d.total) == s.duration
    ensures d.Showing? ==> (d.favorite <==> IsFavorite(s.favorites, s.current.value))
    ensures d.Showing? ==> (d.next <==> HasNext(s)) && (d.previous <==> HasPrevious(s))
  {
    match s.current
    case None => NoMusic
    case Some(t) =>
      FormatTimeRoundTrip(s.time);
      FormatTimeRoundTrip(s.duration);
      Showing(t.title, t.artist, t.thumbnail, FormatTime(s.time), FormatTime(s.duration),
              IsFavorite(s.favorites, t), PreviousEnabled(s), NextEnabled(s), PositionLabel(s))
  }

  /** A click on the next (or previous) control: the player's move when the
      control is enabled, nothing when it is dimmed. */
  function SkipClicked(s: PlayerState, forward: bool): (r: PlayerState)
    requires Inv(s)
    ensures Inv(r)
  {
    if forward then (if NextEnabled(s) then Advanced(s) else s)
    else (if PreviousEnabled(s) then Rewound(s) else s)
  }

  /** Dimming a control loses nothing: a click always does what the wheel
      button does. */
  lemma SkipClickedIsPlayerMove(s: PlayerState)
    requires Inv(s)
    ensures SkipClicked(s, true) == Advanced(s)
    ensures SkipClicked(s, false) == Rewound(s)
  {
  }

  /** A click on the star flips it for the current track. */
  lemma StarFlips(s: PlayerState)
    requires Inv(s) && s.current.Some?
    ensures var r := FavoriteToggled(s, s.current.value);
            Inv(r) && Shown(r).Showing? && Shown(r).favorite == !Shown(s).favorite
  {
    ToggleFlips(s, s.current.value);
  }
}
