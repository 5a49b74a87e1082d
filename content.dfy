// The content descriptors the server sends and the agents hold: playlist items,
// playlists and single-media assignments, as the JSON objects they are.
module Content {
  import opened Common

  /** One playlist entry (or the single assigned media file) as a JSON object. */
  datatype Item = Item(
    id: int,
    filename: Option<string>,       // missing key is None
    originalFilename: string,
    fileType: string,               // "image" or "video"
    duration: Field<int>,
    url: Option<string>,
    isStream: bool,                 // `is_stream`, False when missing
    streamUrl: Option<string>,
    fileSize: Field<int>)

  /** A playlist descriptor: `{id, name, loop, default_duration, last_updated, items}`. */
  datatype Playlist = Playlist(
    id: int,
    name: string,
    loop: Field<bool>,
    defaultDuration: Field<int>,
    lastUpdated: Option<string>,
    items: seq<Item>)

  /** A single-media descriptor: the item's members plus `last_updated`. */
  datatype Media = Media(item: Item, lastUpdated: Option<string>)

  /**
   * The `current_media` value of a checkin: the original file name of the
   * item at the play index, when a playlist with items is held and the index
   * is inside it. All three agent revisions compute it the same way.
   */
  function CurrentMediaName(playlist: Option<Playlist>, index: nat): (r: Option<string>)
    ensures r.Some? <==> playlist.Some? && index < |playlist.value.items|
    ensures r.Some? ==> r.value == playlist.value.items[index].originalFilename
  {
    if playlist.Some? && |playlist.value.items| > 0 && index < |playlist.value.items|
    then Some(playlist.value.items[index].originalFilename)
    else None
  }
}
