/** The playback controller: the play queue with its cursor, the current
    track, the transport flag, the reported progress and the favourites
    list. The functions give each operation's effect on a state value;
    the class `Player` holds the same state in fields. */
module Playback {
  import opened Media

  datatype PlayerState = PlayerState(
    queue: seq<Track>,
    index: int,
    current: Option<Track>,
    playing: bool,
    time: nat,
    duration: nat,
    favorites: seq<Track>)

  /** The queue invariant: the cursor is -1 exactly when the queue is
      empty, and then nothing is current; otherwise the cursor is in range
      and the current track is the one it points at. */
  predicate Inv(s: PlayerState)
  {
    if s.queue == [] then s.index == -1 && s.current == None
    else 0 <= s.index < |s.queue| && s.current == Some(s.queue[s.index])
  }

  /** The start-up state; `saved` is the favourites list read back from
      storage. */
  function Initial(saved: seq<Track>): (s: PlayerState)
    ensures Inv(s) && s.queue == [] && s.current == None && !s.playing
    ensures s.favorites == saved
  {
    PlayerState([], -1, None, false, 0, 0, saved)
  }

  // ---------------------------------------------------------------------
  // Queue operations
  // ---------------------------------------------------------------------

  /** `play(track)`: a fresh one-track queue, playing from the start. */
  function Played(s: PlayerState, t: Track): (r: PlayerState)
    ensures Inv(r)
    ensures r.queue == [t] && r.current == Some(t) && r.playing
    ensures r.time == 0 && r.duration == 0 && r.favorites == s.favorites
  {
    s.(queue := [t], index := 0, current := Some(t), playing := true, time := 0, duration := 0)
  }

  /** `addToQueue(track)`: appends; an empty queue starts playing it. */
  function Enqueued(s: PlayerState, t: Track): (r: PlayerState)
    requires Inv(s)
    ensures Inv(r)
    ensures r.queue == s.queue + [t] && r.favorites == s.favorites
    ensures s.queue == [] ==> r.index == 0 && r.current == Some(t) && r.playing
    ensures s.queue != [] ==> r.index == s.index && r.current == s.current && r.playing == s.playing
  {
    if s.queue == [] then s.(queue := [t], index := 0, current := Some(t), playing := true)
    else s.(queue := s.queue + [t])
  }

  /** The queue without position `i` (the queue itself when `i` is past
      its end), as the position filter leaves it. */
  function RemoveAt(q: seq<Track>, i: nat): (r: seq<Track>)
    ensures i < |q| ==> |r| == |q| - 1
    ensures i >= |q| ==> r == q
    ensures forall k :: 0 <= k < i && k < |r| ==> r[k] == q[k]
    ensures forall k :: i <= k < |r| ==> r[k] == q[k + 1]
  {
    if i < |q| then q[..i] + q[i + 1..] else q
  }

  /** `removeFromQueue(i)`: drops position `i`. A position before the cursor
      shifts the cursor down so the same track stays current; removing the
      current track makes the track now at `min(i, newLength - 1)` current;
      removing the last track stops playback. */
  function RemovedAt(s: PlayerState, i: nat): (r: PlayerState)
    requires Inv(s)
    ensures Inv(r)
    ensures r.queue == RemoveAt(s.queue, i) && r.favorites == s.favorites
    ensures i < s.index ==> r.index == s.index - 1 && r.current == s.current && r.playing == s.playing
    ensures i > s.index ==> r.index == s.index && r.current == s.current && r.playing == s.playing
    ensures i == s.index && |s.queue| > 1 ==>
              r.index == (if i < |s.queue| - 1 then i else |s.queue| - 2) && r.playing == s.playing
    ensures i == s.index && |s.queue| == 1 ==> r.queue == [] && r.current == None && !r.playing
  {
    var q := RemoveAt(s.queue, i);
    if i < s.index then
      s.(queue := q, index := s.index - 1)
    else if i == s.index then
      if |q| > 0 then
        var k := if i < |q| - 1 then i else |q| - 1;
        s.(queue := q, index := k, current := Some(q[k]))
      else
        s.(queue := q, index := -1, current := None, playing := false)
    else
      s.(queue := q)
  }

  /** `clearQueue()`. */
  function Cleared(s: PlayerState): (r: PlayerState)
    ensures Inv(r) && r.queue == [] && r.current == None && !r.playing
    ensures r.favorites == s.favorites
  {
    s.(queue := [], index := -1, current := None, playing := false)
  }

  /** A further track follows the cursor. */
  predicate HasNext(s: PlayerState) { s.index + 1 < |s.queue| }

  /** A track precedes the cursor. */
  predicate HasPrevious(s: PlayerState) { s.index > 0 }

  /** `playNext()`: one step forward while a next track exists, never
      wrapping; otherwise nothing changes. */
  function Advanced(s: PlayerState): (r: PlayerState)
    requires Inv(s)
    ensures Inv(r) && r.queue == s.queue && r.favorites == s.favorites
    ensures HasNext(s) ==> r.index == s.index + 1 && r.playing && r.time == 0 && r.duration == 0
    ensures !HasNext(s) ==> r == s
  {
    if |s.queue| == 0 then s
    else if s.index + 1 < |s.queue| then
      s.(index := s.index + 1, current := Some(s.queue[s.index + 1]), playing := true, time := 0, duration := 0)
    else s
  }

  /** `playPrevious()`: one step back while the cursor is above 0. */
  function Rewound(s: PlayerState): (r: PlayerState)
    requires Inv(s)
    ensures Inv(r) && r.queue == s.queue && r.favorites == s.favorites
    ensures HasPrevious(s) ==> r.index == s.index - 1 && r.playing && r.time == 0 && r.duration == 0
    ensures !HasPrevious(s) ==> r == s
  {
    if |s.queue| == 0 then s
    else if s.index - 1 >= 0 then
      s.(index := s.index - 1, current := Some(s.queue[s.index - 1]), playing := true, time := 0, duration := 0)
    else s
  }

  /** The embedded player's state codes. */
  const Ended := 0
  const Playing := 1
  const Paused := 2

  /** `onStateChange(event)`: playing and paused set the transport flag; at
      the end of a track the queue advances if it can and otherwise stops
      without moving the cursor; other codes are ignored. */
  function AfterEvent(s: PlayerState, event: int): (r: PlayerState)
    requires Inv(s)
    ensures Inv(r) && r.queue == s.queue && r.favorites == s.favorites
    ensures event == Playing ==> r == s.(playing := true)
    ensures event == Paused ==> r == s.(playing := false)
    ensures event == Ended && !HasNext(s) ==> r == s.(playing := false)
    ensures event !in {Ended, Playing, Paused} ==> r == s
  {
    if event == Playing then s.(playing := true)
    else if event == Paused then s.(playing := false)
    else if event == Ended then
      if s.index + 1 < |s.queue| then
        s.(index := s.index + 1, current := Some(s.queue[s.index + 1]), playing := true, time := 0, duration := 0)
      else s.(playing := false)
    else s
  }

  /** End-of-track auto-advance moves exactly as the Next control does. */
  lemma EndedAdvancesLikeNext(s: PlayerState)
    requires Inv(s) && HasNext(s)
    ensures AfterEvent(s, Ended) == Advanced(s)
  {
  }

  /** `togglePlay()`. */
  function PlayToggled(s: PlayerState): (r: PlayerState)
    ensures r.playing == !s.playing && r == s.(playing := r.playing)
  {
    s.(playing := !s.playing)
  }

  // ---------------------------------------------------------------------
  // Favourites
  // ---------------------------------------------------------------------

  /** `isFavorite(track)`: some favourite has the track's id. */
  predicate IsFavorite(favorites: seq<Track>, t: Track)
  {
    exists k | 0 <= k < |favorites| :: favorites[k].id == t.id
  }

  /** The favourites without any entry whose id is `id`, order kept. */
  function WithoutId(favorites: seq<Track>, id: string): (r: seq<Track>)
    ensures |r| <= |favorites|
    ensures forall k :: 0 <= k < |r| ==> r[k].id != id && r[k] in favorites
    decreases |favorites|
  {
    if favorites == [] then []
    else if favorites[0].id == id then WithoutId(favorites[1..], id)
    else [favorites[0]] + WithoutId(favorites[1..], id)
  }

  /** On a single entry the filter keeps it exactly when its id differs. */
  lemma WithoutIdOne(t: Track, id: string)
    ensures WithoutId([t], id) == (if t.id == id then [] else [t])
  {
    assert [t][1..] == [];
  }

  /** The filter works entry by entry: filtering a concatenation is the
      concatenation of the filtered parts, so the survivors keep their
      order and multiplicity. */
  lemma {:induction false} WithoutIdConcat(a: seq<Track>, b: seq<Track>, id: string)
    ensures WithoutId(a + b, id) == WithoutId(a, id) + WithoutId(b, id)
    decreases |a|
  {
    if a == [] {
      assert a + b == b;
    } else {
      assert (a + b)[0] == a[0];
      assert (a + b)[1..] == a[1..] + b;
      WithoutIdConcat(a[1..], b, id);
    }
  }

  /** Filtering by an id nobody has changes nothing. */
  lemma {:induction false} WithoutAbsentId(favorites: seq<Track>, id: string)
    requires forall k :: 0 <= k < |favorites| ==> favorites[k].id != id
    ensures WithoutId(favorites, id) == favorites
    decreases |favorites|
  {
    if favorites != [] {
      WithoutAbsentId(favorites[1..], id);
    }
  }

  /** Filtering keeps every entry with another id. */
  lemma {:induction false} WithoutIdKeeps(favorites: seq<Track>, id: string, t: Track)
    requires t in favorites && t.id != id
    ensures t in WithoutId(favorites, id)
    decreases |favorites|
  {
    if favorites[0] != t {
      WithoutIdKeeps(favorites[1..], id, t);
    }
  }

  /** `toggleFavorite(track)`: removes every favourite with the track's id
      when there is one, and otherwise appends the track. */
  function FavoriteToggled(s: PlayerState, t: Track): (r: PlayerState)
    ensures r == s.(favorites := r.favorites)
    ensures IsFavorite(s.favorites, t) ==> r.favorites == WithoutId(s.favorites, t.id)
    ensures !IsFavorite(s.favorites, t) ==> r.favorites == s.favorites + [t]
  {
    if IsFavorite(s.favorites, t) then s.(favorites := WithoutId(s.favorites, t.id))
    else s.(favorites := s.favorites + [t])
  }

  /** Toggling flips whether the track is a favourite. */
  lemma ToggleFlips(s: PlayerState, t: Track)
    ensures IsFavorite(FavoriteToggled(s, t).favorites, t) == !IsFavorite(s.favorites, t)
  {
    var r := FavoriteToggled(s, t);
    if !IsFavorite(s.favorites, t) {
      assert r.favorites[|s.favorites|] == t;
    }
  }

  /** Toggling twice restores membership for every id, and restores the
      very list when the track was not a favourite. */
  lemma ToggleTwice(s: PlayerState, t: Track, u: Track)
    ensures IsFavorite(FavoriteToggled(FavoriteToggled(s, t), t).favorites, u) == IsFavorite(s.favorites, u)
    ensures !IsFavorite(s.favorites, t) ==> FavoriteToggled(FavoriteToggled(s, t), t) == s
  {
    var once := FavoriteToggled(s, t);
    var twice := FavoriteToggled(once, t);
    ToggleFlips(s, t);
    ToggleFlips(once, t);
    if IsFavorite(s.favorites, t) {
      assert twice.favorites == WithoutId(s.favorites, t.id) + [t];
      if u.id != t.id && IsFavorite(s.favorites, u) {
        var k :| 0 <= k < |s.favorites| && s.favorites[k].id == u.id;
        WithoutIdKeeps(s.favorites, t.id, s.favorites[k]);
        var w := WithoutId(s.favorites, t.id);
        var j :| 0 <= j < |w| && w[j] == s.favorites[k];
        assert twice.favorites[j] == w[j];
      }
      if u.id != t.id && IsFavorite(twice.favorites, u) {
        var j :| 0 <= j < |twice.favorites| && twice.favorites[j].id == u.id;
        var w := WithoutId(s.favorites, t.id);
        assert j < |w|;
        assert w[j] in s.favorites;
      }
      if u.id == t.id {
        assert twice.favorites[|twice.favorites| - 1] == t;
      }
    } else {
      assert forall k :: 0 <= k < |s.favorites| ==> s.favorites[k].id != t.id;
      assert once.favorites == s.favorites + [t];
      assert IsFavorite(once.favorites, t) by {
        assert once.favorites[|s.favorites|] == t;
      }
      assert twice.favorites == WithoutId(s.favorites + [t], t.id);
      WithoutAbsentIdAppended(s.favorites, t);
    }
  }

  lemma {:induction false} WithoutAbsentIdAppended(favorites: seq<Track>, t: Track)
    requires forall k :: 0 <= k < |favorites| ==> favorites[k].id != t.id
    ensures WithoutId(favorites + [t], t.id) == favorites
    decreases |favorites|
  {
    if favorites == [] {
      assert WithoutId([t], t.id) == WithoutId([t][1..], t.id);
    } else {
      assert (favorites + [t])[1..] == favorites[1..] + [t];
      WithoutAbsentIdAppended(favorites[1..], t);
    }
  }

  // ---------------------------------------------------------------------
  // The controller object
  // ---------------------------------------------------------------------

  class Player {
    var queue: seq<Track>
    var queueIndex: int
    var currentTrack: Option<Track>
    var isPlaying: bool
    var currentTime: nat
    var duration: nat
    var favorites: seq<Track>

    function State(): PlayerState
      reads this
    {
      PlayerState(queue, queueIndex, currentTrack, isPlaying, currentTime, duration, favorites)
    }

    predicate Valid()
      reads this
    {
      Inv(State())
    }

    constructor (saved: seq<Track>)
      ensures Valid() && State() == Initial(saved)
    {
      queue := [];
      queueIndex := -1;
      currentTrack := None;
      isPlaying := false;
      currentTime := 0;
      duration := 0;
      favorites := saved;
    }

    method Play(t: Track)
      modifies this
      ensures Valid() && State() == Played(old(State()), t)
    {
      queue := [t];
      queueIndex := 0;
      currentTrack := Some(t);
      isPlaying := true;
      currentTime, duration := 0, 0;
    }

    method AddToQueue(t: Track)
      requires Valid()
      modifies this
      ensures Valid() && State() == Enqueued(old(State()), t)
    {
      var wasEmpty := |queue| == 0;
      queue := queue + [t];
      if wasEmpty {
        currentTrack := Some(t);
        queueIndex := 0;
        isPlaying := true;
      }
    }

    method RemoveFromQueue(index: nat)
      requires Valid()
      modifies this
      ensures Valid() && State() == RemovedAt(old(State()), index)
    {
      var newQueue := RemoveAt(queue, index);
      if index < queueIndex {
        queueIndex := queueIndex - 1;
      } else if index == queueIndex {
        if |newQueue| > 0 {
          var newIdx := if index < |newQueue| - 1 then index else |newQueue| - 1;
          queueIndex := newIdx;
          currentTrack := Some(newQueue[newIdx]);
        } else {
          queueIndex := -1;
          currentTrack := None;
          isPlaying := false;
        }
      }
      queue := newQueue;
    }

    method ClearQueue()
      modifies this
      ensures Valid() && State() == Cleared(old(State()))
    {
      queue := [];
      queueIndex := -1;
      currentTrack := None;
      isPlaying := false;
    }

    method PlayNext()
      requires Valid()
      modifies this
      ensures Valid() && State() == Advanced(old(State()))
    {
      if |queue| == 0 {
        return;
      }
      var nextIndex := queueIndex + 1;
      if nextIndex < |queue| {
        queueIndex := nextIndex;
        currentTrack := Some(queue[nextIndex]);
        isPlaying := true;
        currentTime, duration := 0, 0;
      }
    }

    method PlayPrevious()
      requires Valid()
      modifies this
      ensures Valid() && State() == Rewound(old(State()))
    {
      if |queue| == 0 {
        return;
      }
      var prevIndex := queueIndex - 1;
      if prevIndex >= 0 {
        queueIndex := prevIndex;
        currentTrack := Some(queue[prevIndex]);
        isPlaying := true;
        currentTime, duration := 0, 0;
      }
    }

    method OnStateChange(event: int)
      requires Valid()
      modifies this
      ensures Valid() && State() == AfterEvent(old(State()), event)
    {
      if event == Playing {
        isPlaying := true;
      }
      if event == Paused {
        isPlaying := false;
      }
      if event == Ended {
        var nextIndex := queueIndex + 1;
        if nextIndex < |queue| {
          queueIndex := nextIndex;
          currentTrack := Some(queue[nextIndex]);
          isPlaying := true;
          currentTime, duration := 0, 0;
        } else {
          isPlaying := false;
        }
      }
    }

    method TogglePlay()
      modifies this
      ensures State() == PlayToggled(old(State()))
    {
      isPlaying := !isPlaying;
    }

    method ToggleFavorite(t: Track)
      modifies this
      ensures State() == FavoriteToggled(old(State()), t)
    {
      if IsFavorite(favorites, t) {
        favorites := WithoutId(favorites, t.id);
      } else {
        favorites := favorites + [t];
      }
    }
  }
}
