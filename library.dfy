/** The playlist store: the list of named playlists and the one-slot
    "track awaiting placement" register. */
module Library {
  import opened Media
  import opened Text

  datatype Playlist = Playlist(id: string, name: string, tracks: seq<Track>)

  datatype LibraryState = LibraryState(playlists: seq<Playlist>, pending: Option<Track>)

  /** The start-up state; `saved` is the list read back from storage. */
  function Initial(saved: seq<Playlist>): (s: LibraryState)
    ensures s.playlists == saved && s.pending == None
  {
    LibraryState(saved, None)
  }

  const IdPrefix := "pl_"

  /** Some track in `tracks` has the id `id`. */
  predicate HasTrack(tracks: seq<Track>, id: string)
  {
    exists k | 0 <= k < |tracks| :: tracks[k].id == id
  }

  /** No two tracks share an id. */
  predicate DistinctTracks(tracks: seq<Track>)
  {
    forall i, j :: 0 <= i < j < |tracks| ==> tracks[i].id != tracks[j].id
  }

  /** No two playlists share an id. */
  predicate DistinctPlaylists(pls: seq<Playlist>)
  {
    forall i, j :: 0 <= i < j < |pls| ==> pls[i].id != pls[j].id
  }

  /** Every playlist's tracks have distinct ids. */
  predicate AllDeduplicated(pls: seq<Playlist>)
  {
    forall k :: 0 <= k < |pls| ==> DistinctTracks(pls[k].tracks)
  }

  // ---------------------------------------------------------------------
  // createPlaylist
  // ---------------------------------------------------------------------

  /** The playlist `createPlaylist(name)` builds; `stamp` stands for the
      clock reading the id is made from. */
  function NewPlaylist(name: string, stamp: string): (p: Playlist)
    ensures StartsWith(p.id, IdPrefix) && p.id[|IdPrefix|..] == stamp
    ensures p.name == name && p.tracks == []
  {
    Playlist(IdPrefix + stamp, name, [])
  }

  /** The list after `createPlaylist`: the existing playlists, untouched,
      followed by the new one. */
  function Created(pls: seq<Playlist>, name: string, stamp: string): (r: seq<Playlist>)
    ensures |r| == |pls| + 1 && r[..|pls|] == pls && r[|pls|] == NewPlaylist(name, stamp)
  {
    pls + [NewPlaylist(name, stamp)]
  }

  /** A fresh stamp keeps playlist ids distinct, and the empty new
      playlist keeps every track list deduplicated. */
  lemma CreatedKeepsDistinct(pls: seq<Playlist>, name: string, stamp: string)
    requires DistinctPlaylists(pls) && AllDeduplicated(pls)
    requires forall k :: 0 <= k < |pls| ==> pls[k].id != IdPrefix + stamp
    ensures DistinctPlaylists(Created(pls, name, stamp)) && AllDeduplicated(Created(pls, name, stamp))
  {
  }

  // ---------------------------------------------------------------------
  // addToPlaylist
  // ---------------------------------------------------------------------

  /** One playlist after `addToPlaylist`: the track is appended unless a
      track with its id is already there. */
  function WithTrackOne(p: Playlist, t: Track): (r: Playlist)
    ensures r.id == p.id && r.name == p.name
    ensures HasTrack(p.tracks, t.id) ==> r == p
    ensures !HasTrack(p.tracks, t.id) ==> r.tracks == p.tracks + [t]
  {
    if HasTrack(p.tracks, t.id) then p else p.(tracks := p.tracks + [t])
  }

  /** `addToPlaylist(playlistId, track)`: every playlist with that id gets
      the track (deduplicated by id); the others are left alone. */
  function WithTrack(pls: seq<Playlist>, playlistId: string, t: Track): (r: seq<Playlist>)
    ensures |r| == |pls|
    ensures forall k :: 0 <= k < |pls| ==>
              r[k] == (if pls[k].id == playlistId then WithTrackOne(pls[k], t) else pls[k])
    decreases |pls|
  {
    if pls == [] then []
    else [if pls[0].id == playlistId then WithTrackOne(pls[0], t) else pls[0]]
         + WithTrack(pls[1..], playlistId, t)
  }

  /** An id no playlist has changes nothing. */
  lemma WithTrackUnknownId(pls: seq<Playlist>, playlistId: string, t: Track)
    requires forall k :: 0 <= k < |pls| ==> pls[k].id != playlistId
    ensures WithTrack(pls, playlistId, t) == pls
  {
  }

  /** Adding the same track twice is the same as adding it once. */
  lemma WithTrackIdempotent(pls: seq<Playlist>, playlistId: string, t: Track)
    ensures WithTrack(WithTrack(pls, playlistId, t), playlistId, t) == WithTrack(pls, playlistId, t)
  {
    var once := WithTrack(pls, playlistId, t);
    forall k | 0 <= k < |pls| && pls[k].id == playlistId
      ensures HasTrack(once[k].tracks, t.id)
    {
      if !HasTrack(pls[k].tracks, t.id) {
        assert once[k].tracks[|pls[k].tracks|] == t;
      }
    }
  }

  /** Adding keeps the track ids of every playlist distinct. */
  lemma WithTrackKeepsDeduplicated(pls: seq<Playlist>, playlistId: string, t: Track)
    requires AllDeduplicated(pls)
    ensures AllDeduplicated(WithTrack(pls, playlistId, t))
  {
    var r := WithTrack(pls, playlistId, t);
    forall k | 0 <= k < |r| ensures DistinctTracks(r[k].tracks) {
      if pls[k].id == playlistId && !HasTrack(pls[k].tracks, t.id) {
        var ts := pls[k].tracks;
        forall i, j | 0 <= i < j < |ts| + 1 ensures r[k].tracks[i].id != r[k].tracks[j].id {
          if j == |ts| {
            assert r[k].tracks[i] == ts[i];
          }
        }
      }
    }
  }

  // ---------------------------------------------------------------------
  // removeFromPlaylist, deletePlaylist, getPlaylist
  // ---------------------------------------------------------------------

  /** The tracks whose id is not `id`, in their order. */
  function TracksWithout(tracks: seq<Track>, id: string): (r: seq<Track>)
    ensures |r| <= |tracks|
    ensures !HasTrack(r, id)
    ensures forall k :: 0 <= k < |r| ==> r[k] in tracks
    decreases |tracks|
  {
    if tracks == [] then []
    else if tracks[0].id == id then TracksWithout(tracks[1..], id)
    else [tracks[0]] + TracksWithout(tracks[1..], id)
  }

  /** Removing an id no track has changes nothing. */
  lemma {:induction false} TracksWithoutAbsent(tracks: seq<Track>, id: string)
    requires !HasTrack(tracks, id)
    ensures TracksWithout(tracks, id) == tracks
    decreases |tracks|
  {
    if tracks != [] {
      assert !HasTrack(tracks[1..], id) by {
        forall k | 0 <= k < |tracks[1..]| ensures tracks[1..][k].id != id {
          assert tracks[1..][k] == tracks[k + 1];
        }
      }
      TracksWithoutAbsent(tracks[1..], id);
    }
  }

  /** On a single track the filter keeps it exactly when its id differs. */
  lemma TracksWithoutOne(t: Track, id: string)
    ensures TracksWithout([t], id) == (if t.id == id then [] else [t])
  {
    assert [t][1..] == [];
  }

  /** The filter works track by track: filtering a concatenation is the
      concatenation of the filtered parts, so the surviving tracks keep
      their order. */
  lemma {:induction false} TracksWithoutConcat(a: seq<Track>, b: seq<Track>, id: string)
    ensures TracksWithout(a + b, id) == TracksWithout(a, id) + TracksWithout(b, id)
    decreases |a|
  {
    if a == [] {
      assert a + b == b;
    } else {
      assert (a + b)[0] == a[0];
      assert (a + b)[1..] == a[1..] + b;
      TracksWithoutConcat(a[1..], b, id);
    }
  }

  /** `removeFromPlaylist(playlistId, trackId)`: every track with that id
      leaves the playlists with that id; other playlists are untouched. */
  function WithoutTrack(pls: seq<Playlist>, playlistId: string, trackId: string): (r: seq<Playlist>)
    ensures |r| == |pls|
    ensures forall k :: 0 <= k < |pls| ==> r[k].id == pls[k].id && r[k].name == pls[k].name
    ensures forall k :: 0 <= k < |pls| && pls[k].id != playlistId ==> r[k] == pls[k]
    ensures forall k :: 0 <= k < |pls| && pls[k].id == playlistId ==>
              r[k].tracks == TracksWithout(pls[k].tracks, trackId)
    decreases |pls|
  {
    if pls == [] then []
    else [if pls[0].id == playlistId then pls[0].(tracks := TracksWithout(pls[0].tracks, trackId)) else pls[0]]
         + WithoutTrack(pls[1..], playlistId, trackId)
  }

  /** Removing a track undoes adding it when it was not there before. */
  lemma RemoveUndoesAdd(pls: seq<Playlist>, playlistId: string, t: Track)
    requires forall k :: 0 <= k < |pls| && pls[k].id == playlistId ==> !HasTrack(pls[k].tracks, t.id)
    ensures WithoutTrack(WithTrack(pls, playlistId, t), playlistId, t.id) == pls
  {
    var added := WithTrack(pls, playlistId, t);
    var r := WithoutTrack(added, playlistId, t.id);
    forall k | 0 <= k < |pls| ensures r[k] == pls[k] {
      if pls[k].id == playlistId {
        TracksWithoutAppended(pls[k].tracks, t);
      }
    }
  }

  lemma {:induction false} TracksWithoutAppended(tracks: seq<Track>, t: Track)
    requires !HasTrack(tracks, t.id)
    ensures TracksWithout(tracks + [t], t.id) == tracks
    decreases |tracks|
  {
    if tracks == [] {
      assert TracksWithout([t], t.id) == TracksWithout([t][1..], t.id);
    } else {
      assert (tracks + [t])[1..] == tracks[1..] + [t];
      assert !HasTrack(tracks[1..], t.id) by {
        forall k | 0 <= k < |tracks[1..]| ensures tracks[1..][k].id != t.id {
          assert tracks[1..][k] == tracks[k + 1];
        }
      }
      TracksWithoutAppended(tracks[1..], t);
    }
  }

  /** `deletePlaylist(playlistId)`: the playlists with another id, in
      their order. */
  function Deleted(pls: seq<Playlist>, playlistId: string): (r: seq<Playlist>)
    ensures |r| <= |pls|
    ensures forall k :: 0 <= k < |r| ==> r[k].id != playlistId && r[k] in pls
    ensures (forall k :: 0 <= k < |pls| ==> pls[k].id != playlistId) ==> r == pls
    decreases |pls|
  {
    if pls == [] then []
    else if pls[0].id == playlistId then Deleted(pls[1..], playlistId)
    else [pls[0]] + Deleted(pls[1..], playlistId)
  }

  /** On a single playlist, deletion keeps it exactly when its id differs. */
  lemma DeletedOne(p: Playlist, playlistId: string)
    ensures Deleted([p], playlistId) == (if p.id == playlistId then [] else [p])
  {
    assert [p][1..] == [];
  }

  /** Deletion works playlist by playlist, so the remaining playlists keep
      their order. */
  lemma {:induction false} DeletedConcat(a: seq<Playlist>, b: seq<Playlist>, playlistId: string)
    ensures Deleted(a + b, playlistId) == Deleted(a, playlistId) + Deleted(b, playlistId)
    decreases |a|
  {
    if a == [] {
      assert a + b == b;
    } else {
      assert (a + b)[0] == a[0];
      assert (a + b)[1..] == a[1..] + b;
      DeletedConcat(a[1..], b, playlistId);
    }
  }

  /** Deleting keeps every playlist with another id. */
  lemma {:induction false} DeletedKeeps(pls: seq<Playlist>, playlistId: string, p: Playlist)
    requires p in pls && p.id != playlistId
    ensures p in Deleted(pls, playlistId)
    decreases |pls|
  {
    if pls[0] != p {
      DeletedKeeps(pls[1..], playlistId, p);
    }
  }

  /** No playlist before position `k` has the id `playlistId`. */
  predicate FirstWithId(pls: seq<Playlist>, playlistId: string, k: nat)
    requires k <= |pls|
  {
    forall j :: 0 <= j < k ==> pls[j].id != playlistId
  }

  /** `getPlaylist(playlistId)`: the first playlist with that id, or none. */
  function Find(pls: seq<Playlist>, playlistId: string): (r: Option<Playlist>)
    ensures r.None? <==> forall k :: 0 <= k < |pls| ==> pls[k].id != playlistId
    ensures r.Some? ==> r.value.id == playlistId && r.value in pls
    ensures r.Some? ==> exists k :: 0 <= k < |pls| && pls[k] == r.value && FirstWithId(pls, playlistId, k)
    decreases |pls|
  {
    if pls == [] then None
    else if pls[0].id == playlistId then Some(pls[0])
    else
      var r := Find(pls[1..], playlistId);
      if r.Some? then
        var k :| 0 <= k < |pls| - 1 && pls[1..][k] == r.value && FirstWithId(pls[1..], playlistId, k);
        assert pls[k + 1] == r.value && FirstWithId(pls, playlistId, k + 1);
        r
      else r
  }

  /** A playlist appended under a new id is what a lookup of that id
      finds. */
  lemma {:induction false} FindAppended(pls: seq<Playlist>, p: Playlist)
    requires forall k :: 0 <= k < |pls| ==> pls[k].id != p.id
    ensures Find(pls + [p], p.id) == Some(p)
    decreases |pls|
  {
    if pls != [] {
      assert (pls + [p])[1..] == pls[1..] + [p];
      FindAppended(pls[1..], p);
    }
  }

  /** Looking up a playlist right after creating it finds it, when the
      stamp is fresh. */
  lemma FindCreated(pls: seq<Playlist>, name: string, stamp: string)
    requires forall k :: 0 <= k < |pls| ==> pls[k].id != IdPrefix + stamp
    ensures Find(Created(pls, name, stamp), IdPrefix + stamp) == Some(NewPlaylist(name, stamp))
  {
    FindAppended(pls, NewPlaylist(name, stamp));
  }

  // ---------------------------------------------------------------------
  // The store object
  // ---------------------------------------------------------------------

  class PlaylistStore {
    var playlists: seq<Playlist>
    var pendingTrack: Option<Track>

    function State(): LibraryState
      reads this
    {
      LibraryState(playlists, pendingTrack)
    }

    constructor (saved: seq<Playlist>)
      ensures State() == Initial(saved)
    {
      playlists := saved;
      pendingTrack := None;
    }

    method CreatePlaylist(name: string, stamp: string) returns (p: Playlist)
      modifies this
      ensures p == NewPlaylist(name, stamp)
      ensures State() == old(State()).(playlists := Created(old(playlists), name, stamp))
    {
      p := Playlist(IdPrefix + stamp, name, []);
      playlists := playlists + [p];
    }

    method AddToPlaylist(playlistId: string, t: Track)
      modifies this
      ensures State() == old(State()).(playlists := WithTrack(old(playlists), playlistId, t))
    {
      playlists := WithTrack(playlists, playlistId, t);
    }

    method RemoveFromPlaylist(playlistId: string, trackId: string)
      modifies this
      ensures State() == old(State()).(playlists := WithoutTrack(old(playlists), playlistId, trackId))
    {
      playlists := WithoutTrack(playlists, playlistId, trackId);
    }

    method DeletePlaylist(playlistId: string)
      modifies this
      ensures State() == old(State()).(playlists := Deleted(old(playlists), playlistId))
    {
      playlists := Deleted(playlists, playlistId);
    }

    method SetPendingTrack(t: Option<Track>)
      modifies this
      ensures State() == old(State()).(pending := t)
    {
      pendingTrack := t;
    }

    function GetPlaylist(playlistId: string): Option<Playlist>
      reads this
    {
      Find(playlists, playlistId)
    }
  }
}
