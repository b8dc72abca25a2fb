/** The values the player passes around: tracks, menu items and screen
    definitions. */
module Media {

  datatype Option<+T> = None | Some(value: T)

  /** A playable video as the search backends describe it; two tracks are
      the same song when their ids agree. */
  datatype Track = Track(id: string, title: string, artist: string, thumbnail: string)

  /** The `type` tag of a menu item. `OtherKind` stands for a missing or
      unrecognised tag, which selection ignores. */
  datatype ItemType = MenuKind | AppKind | LinkKind | ActionKind | TrackKind | BackKind | OtherKind

  /** A menu row; `caption` is the source's `label`. `action` and `sublabel` are the optional fields of the
      same names; `media` holds the track fields a track row is built
      from (the rows spread a track object into themselves). */
  datatype MenuItem = MenuItem(
    id: string,
    caption: string,
    kind: ItemType,
    action: Option<string>,
    sublabel: Option<string>,
    media: Option<Track>)

  /** A registered screen: a title (absent when the entry was created by a
      bare item update) and its rows. */
  datatype Screen = Screen(title: Option<string>, items: seq<MenuItem>)

  /** A plain row with no action, sublabel or track fields. */
  function Plain(caption: string, id: string, kind: ItemType): (item: MenuItem)
    ensures item.id == id && item.caption == caption && item.kind == kind
    ensures item.action == None && item.media == None
  {
    MenuItem(id, caption, kind, None, None, None)
  }

  /** An action row. */
  function ActionItem(caption: string, id: string, action: string): (item: MenuItem)
    ensures item.id == id && item.kind == ActionKind && item.action == Some(action)
  {
    MenuItem(id, caption, ActionKind, Some(action), None, None)
  }

  /** The track object a selected row stands for when it is handed to the
      player or the playlist store, as the hook writes it: the row object
      itself, whose `id` is the row's id (overriding the spread track id)
      and whose title, artist and thumbnail are the spread track fields. */
  function ItemTrackAsWritten(item: MenuItem): (t: Track)
    ensures t.id == item.id
    ensures item.media.Some? ==> t == item.media.value.(id := item.id)
  {
    match item.media
    case Some(m) => m.(id := item.id)
    case None => Track(item.id, "", "", "")
  }

  /** The track a selected row stands for, corrected: the track the row
      was built from, whatever id the row carries. It agrees with the
      hook's version on every row filed under its own track's id. */
  function ItemTrack(item: MenuItem): (t: Track)
    ensures item.media.Some? ==> t == item.media.value
    ensures item.media.None? ==> t.id == item.id
    ensures item.media.Some? && item.media.value.id == item.id ==> t == ItemTrackAsWritten(item)
  {
    match item.media
    case Some(m) => m
    case None => Track(item.id, "", "", "")
  }
}
