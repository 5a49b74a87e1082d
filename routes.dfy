// The server's handlers as they touch the device records and the catalogue of
// playlists and media files: the upload whitelist and naming rule, device
// assignment, one-time delivery of a pending command, the payloads of the
// status and content endpoints, rebuilding a playlist's items from the edit
// form, and the guards on deleting media and playlists.
module Routes {
  import opened Common
  import Content

  const AllowedExtensions: set<string> := {"png", "jpg", "jpeg", "gif", "mp4", "avi", "mov", "mkv", "webm"}
  const VideoExtensions: seq<string> := ["mp4", "avi", "mov", "mkv", "webm"]

  /** `ext in ALLOWED_EXTENSIONS`. */
  predicate Whitelisted(ext: string)
  {
    ext in AllowedExtensions
  }

  /** `ext in ['mp4', 'avi', 'mov', 'mkv', 'webm']`. */
  predicate IsVideoExtension(ext: string)
  {
    ext in VideoExtensions
  }
  /** Seconds a singly assigned image is shown for. */
  const SingleImageDuration: int := 10

  // ---------------------------------------------------------------- catalogue

  /** A `media_files` row, keyed by its id in the catalogue map. */
  datatype MediaRecord = MediaRecord(filename: string, originalFilename: string, fileType: string, createdAt: string)

  /** A `playlist_items` row of one playlist. */
  datatype ItemRecord = ItemRecord(mediaFileId: int, orderIndex: int, duration: Option<int>)

  /** A `playlists` row with its items in `order_index` order, keyed by its id. */
  datatype PlaylistRecord = PlaylistRecord(
    name: string,
    isActive: bool,
    loop: bool,
    defaultDuration: int,
    updatedAt: string,
    items: seq<ItemRecord>)

  /** Every playlist item refers to a stored media file (the foreign key of `playlist_items`). */
  predicate ItemsResolve(playlists: map<int, PlaylistRecord>, media: map<int, MediaRecord>)
  {
    forall id, k :: id in playlists && 0 <= k < |playlists[id].items| ==> playlists[id].items[k].mediaFileId in media
  }

  /**
   * A value of a submitted form field as the handlers read it: empty, text
   * that `int()` accepts (with its value), or text that `int()` rejects.
   */
  datatype FormId = Blank | Number(n: int) | NotANumber

  // ------------------------------------------------------------------ uploads

  /** `name.rsplit('.', 1)[1]`: the text after the last dot, None when there is no dot. */
  function Extension(name: string): (r: Option<string>)
    ensures r.None? <==> '.' !in name
    ensures r.Some? ==> |r.value| < |name| && name[|name| - |r.value| - 1] == '.' && name[|name| - |r.value|..] == r.value && '.' !in r.value
  {
    match LastIndexOf(name, '.')
    case None => None
    case Some(i) => Some(name[i + 1..])
  }

  /** Any dot followed by no other dot is the one Extension splits at. */
  lemma ExtensionIsLastDot(name: string)
    ensures forall j :: 0 <= j < |name| && name[j] == '.' && '.' !in name[j + 1..] ==>
              Extension(name).Some? && j == |name| - |Extension(name).value| - 1
  {
    forall j | 0 <= j < |name| && name[j] == '.' && '.' !in name[j + 1..]
      ensures Extension(name).Some? && j == |name| - |Extension(name).value| - 1
    {
      var e := Extension(name);
      LastUnique(name, '.', j, |name| - |e.value| - 1);
    }
  }

  /** A test of the lower-cased extension holds exactly when it holds after some dot followed by no other. */
  lemma LastDotTest(name: string, ok: string -> bool)
    ensures (Extension(name).Some? && ok(Lower(Extension(name).value)))
            <==> exists i :: 0 <= i < |name| && name[i] == '.' && '.' !in name[i + 1..] && ok(Lower(name[i + 1..]))
  {
    ExtensionIsLastDot(name);
    var e := Extension(name);
    if e.Some? {
      assert name[|name| - |e.value|..] == e.value;
    }
  }

  /**
   * `allowed_file`: the name has a dot, and the lower-cased text after its
   * last dot is one of the whitelisted extensions.
   */
  function AllowedFile(name: string): (r: bool)
    ensures r <==> exists i :: 0 <= i < |name| && name[i] == '.' && '.' !in name[i + 1..] && Whitelisted(Lower(name[i + 1..]))
  {
    LastDotTest(name, Whitelisted);
    var e := Extension(name);
    if e.Some? then Whitelisted(Lower(e.value)) else false
  }

  /** The `file_type` recorded for an upload, from its lower-cased extension. */
  function FileType(ext: string): (t: string)
    ensures t == "video" <==> IsVideoExtension(ext)
    ensures t == "image" <==> !IsVideoExtension(ext)
  {
    if IsVideoExtension(ext) then "video" else "image"
  }

  /** How an upload request ends. */
  datatype Upload =
    | NoFile                 // no `file` part, or an empty file name
    | InvalidType            // the submitted name fails the whitelist
    | Crashed                // the sanitized name has no dot left: `rsplit` raises
    | Stored(filename: string, originalFilename: string, fileType: string)

  /**
   * `upload_media`. `part` is the submitted file name (None when there is no
   * `file` part), `secured` what `secure_filename` made of it and `hex` the
   * random hex string of the new name.
   */
  function UploadMedia(part: Option<string>, secured: string, hex: string): (r: Upload)
    ensures r.NoFile? <==> part.None? || part.value == ""
    ensures r.InvalidType? <==> part.Some? && part.value != "" && !AllowedFile(part.value)
    ensures r.Crashed? <==> part.Some? && part.value != "" && AllowedFile(part.value) && '.' !in secured
    ensures r.Stored? ==> Extension(secured).Some? && r.originalFilename == secured
    ensures r.Stored? ==> r.filename == hex + "." + Lower(Extension(secured).value)
    ensures r.Stored? ==> r.fileType == FileType(Lower(Extension(secured).value))
    ensures r.Stored? ==> (r.fileType == "video" <==> IsVideoExtension(Lower(Extension(secured).value)))
    ensures r.Stored? ==> (r.fileType == "image" <==> !IsVideoExtension(Lower(Extension(secured).value)))
  {
    if part.None? || part.value == "" then NoFile
    else if !AllowedFile(part.value) then InvalidType
    else
      match Extension(secured)
      case None => Crashed
      case Some(ext) =>
        var lowered := Lower(ext);
        Stored(hex + "." + lowered, secured, FileType(lowered))
  }

  lemma LowerIdempotent(s: string)
    ensures Lower(Lower(s)) == Lower(s)
  {
  }

  lemma LowerKeepsDots(s: string)
    ensures '.' in Lower(s) <==> '.' in s
  {
    if '.' in Lower(s) {
      var k :| 0 <= k < |s| && Lower(s)[k] == '.';
      assert s[k] == '.';
    }
    if '.' in s {
      var k :| 0 <= k < |s| && s[k] == '.';
      assert Lower(s)[k] == '.';
    }
  }

  /**
   * The stored name keeps the extension: read back from the stored name it is
   * the lower-cased extension of the sanitized name, the type derived from it
   * again is the recorded type, and the stored name passes the whitelist
   * exactly when that extension is whitelisted.
   */
  lemma StoredNameKeepsExtension(part: Option<string>, secured: string, hex: string)
    requires UploadMedia(part, secured, hex).Stored?
    ensures Extension(UploadMedia(part, secured, hex).filename) == Some(Lower(Extension(secured).value))
    ensures FileType(Extension(UploadMedia(part, secured, hex).filename).value) == UploadMedia(part, secured, hex).fileType
    ensures AllowedFile(UploadMedia(part, secured, hex).filename) <==> Whitelisted(Lower(Extension(secured).value))
  {
    var ext := Lower(Extension(secured).value);
    var name := hex + "." + ext;
    LowerKeepsDots(Extension(secured).value);
    assert name[|hex|] == '.';
    assert name[|hex| + 1..] == ext;
    var e := Extension(name);
    LastUnique(name, '.', |hex|, |name| - |e.value| - 1);
    assert e.value == name[|hex| + 1..];
    LowerIdempotent(Extension(secured).value);
  }

  // ------------------------------------------------------------- assignments

  /** How an assignment form ends. */
  datatype Assignment =
    | Assigned       // committed
    | NotFound       // the chosen playlist is missing or inactive, or the media file is missing
    | BadNumber      // `int()` raised on the submitted id

  /** The command part of a response: the command and its timestamp text. */
  datatype Delivery = Delivery(command: string, timestamp: Option<string>)

  /** The pending command a response carries, and what stays pending after it. */
  datatype Taken = Taken(delivered: Option<Delivery>, pending: Option<string>, stamp: Option<string>)

  /**
   * The command handling shared by checkin and the status endpoint: a
   * non-empty pending command is put in the response and cleared with its
   * timestamp; anything else is left as it was and nothing is delivered.
   * Either way nothing deliverable is left pending.
   */
  function TakeCommand(pending: Option<string>, stamp: Option<string>): (r: Taken)
    ensures TruthyStr(pending) ==> r == Taken(Some(Delivery(pending.value, stamp)), None, None)
    ensures !TruthyStr(pending) ==> r == Taken(None, pending, stamp)
    ensures !TruthyStr(r.pending)
  {
    if TruthyStr(pending) then Taken(Some(Delivery(pending.value, stamp)), None, None)
    else Taken(None, pending, stamp)
  }

  /** The `(playlist_id, media_id, last_updated)` triple of the status endpoint. */
  datatype Target = Target(playlistId: Option<int>, mediaId: Option<int>, lastUpdated: Option<string>)

  /**
   * What the status endpoint reports for a device's assignment: an active
   * stored playlist with its update time, else a stored media file with its
   * creation time, else nothing. A playlist assignment that does not resolve
   * hides a media assignment.
   */
  function StatusTarget(playlistId: Option<int>, mediaId: Option<int>, playlists: map<int, PlaylistRecord>, media: map<int, MediaRecord>): (r: Target)
    ensures r.playlistId.Some? ==> r.mediaId.None?
    ensures r.lastUpdated.Some? <==> r.playlistId.Some? || r.mediaId.Some?
    ensures r.playlistId.Some? <==> TruthyId(playlistId) && playlistId.value in playlists && playlists[playlistId.value].isActive
    ensures r.playlistId.Some? ==> r == Target(playlistId, None, Some(playlists[playlistId.value].updatedAt))
    ensures r.mediaId.Some? <==> !TruthyId(playlistId) && TruthyId(mediaId) && mediaId.value in media
    ensures r.mediaId.Some? ==> r == Target(None, mediaId, Some(media[mediaId.value].createdAt))
  {
    if TruthyId(playlistId) then
      if playlistId.value in playlists && playlists[playlistId.value].isActive
      then Target(playlistId, None, Some(playlists[playlistId.value].updatedAt))
      else Target(None, None, None)
    else if TruthyId(mediaId) then
      if mediaId.value in media then Target(None, mediaId, Some(media[mediaId.value].createdAt))
      else Target(None, None, None)
    else Target(None, None, None)
  }

  /** The body of a checkin response. */
  datatype CheckinResponse = CheckinResponse(playlistId: Option<int>, mediaId: Option<int>, delivered: Option<Delivery>)

  /** The body of a status response. */
  datatype StatusResponse = StatusResponse(target: Target, delivered: Option<Delivery>)

  // ------------------------------------------------------------------ content

  /** `url_for('main.uploaded_file', filename=..., _external=True)` under the server's base URL. */
  function UploadUrl(base: string, filename: string): string
  {
    base + "/uploads/" + filename
  }

  /** `item.duration or playlist.default_duration`: an unset or zero override falls back. */
  function ItemDuration(duration: Option<int>, defaultDuration: int): (d: int)
    ensures TruthyId(duration) ==> d == duration.value
    ensures !TruthyId(duration) ==> d == defaultDuration
  {
    if TruthyId(duration) then duration.value else defaultDuration
  }

  /** One entry of the `items` list of the content payload. */
  function ItemPayload(item: ItemRecord, file: MediaRecord, defaultDuration: int, base: string): (r: Content.Item)
    ensures r.id == item.mediaFileId && r.filename == Some(file.filename)
    ensures r.duration == Field.Val(ItemDuration(item.duration, defaultDuration))
    ensures r.url == Some(UploadUrl(base, file.filename)) && !r.isStream
  {
    Content.Item(item.mediaFileId, Some(file.filename), file.originalFilename, file.fileType,
      Val(ItemDuration(item.duration, defaultDuration)), Some(UploadUrl(base, file.filename)), false, None, Absent)
  }

  /** The `items` list of a playlist, or None when an item's media file is missing (the handler raises). */
  function ItemPayloads(p: PlaylistRecord, media: map<int, MediaRecord>, base: string): (r: Option<seq<Content.Item>>)
    ensures r.None? <==> exists k :: 0 <= k < |p.items| && p.items[k].mediaFileId !in media
    ensures r.Some? ==> |r.value| == |p.items|
    ensures r.Some? ==> forall k :: 0 <= k < |p.items| ==>
      p.items[k].mediaFileId in media && r.value[k] == ItemPayload(p.items[k], media[p.items[k].mediaFileId], p.defaultDuration, base)
  {
    if forall k :: 0 <= k < |p.items| ==> p.items[k].mediaFileId in media then
      Some(seq(|p.items|, k requires 0 <= k < |p.items| => ItemPayload(p.items[k], media[p.items[k].mediaFileId], p.defaultDuration, base)))
    else None
  }

  /** The body of the content endpoint, or a server error. */
  datatype ContentReply = ContentReply(playlist: Option<Content.Playlist>, media: Option<Content.Media>) | ServerError

  /** The playlist descriptor sent for a stored playlist whose items all resolve. */
  function PlaylistPayload(id: int, p: PlaylistRecord, items: seq<Content.Item>): (r: Content.Playlist)
    ensures r.id == id && r.lastUpdated == Some(p.updatedAt) && r.items == items
    ensures r.loop == Field.Val(p.loop) && r.defaultDuration == Field.Val(p.defaultDuration)
  {
    Content.Playlist(id, p.name, Val(p.loop), Val(p.defaultDuration), Some(p.updatedAt), items)
  }

  /** The descriptor sent for a singly assigned media file: images get 10 seconds, videos none. */
  function MediaPayload(id: int, file: MediaRecord, base: string): (r: Content.Media)
    ensures r.item.id == id && r.lastUpdated == Some(file.createdAt)
    ensures file.fileType == "image" ==> r.item.duration == Field.Val(SingleImageDuration)
    ensures file.fileType != "image" ==> r.item.duration.Null?
    ensures r.item.filename == Some(file.filename) && r.item.url == Some(UploadUrl(base, file.filename))
  {
    Content.Media(
      Content.Item(id, Some(file.filename), file.originalFilename, file.fileType,
        if file.fileType == "image" then Val(SingleImageDuration) else Null,
        Some(UploadUrl(base, file.filename)), false, None, Absent),
      Some(file.createdAt))
  }

  /** The content endpoint's reply for a device's assignment. */
  function ContentFor(playlistId: Option<int>, mediaId: Option<int>, playlists: map<int, PlaylistRecord>, media: map<int, MediaRecord>, base: string): (r: ContentReply)
    ensures r.ContentReply? ==> r.playlist.None? || r.media.None?
    // a server error exactly for an active stored playlist some of whose items do not resolve
    ensures r.ServerError? <==> TruthyId(playlistId) && playlistId.value in playlists && playlists[playlistId.value].isActive
                                && ItemPayloads(playlists[playlistId.value], media, base).None?
    // a missing or inactive playlist: nothing
    ensures TruthyId(playlistId) && (playlistId.value !in playlists || !playlists[playlistId.value].isActive) ==> r == ContentReply(None, None)
    // an active playlist: its descriptor with the resolved items
    ensures TruthyId(playlistId) && playlistId.value in playlists && playlists[playlistId.value].isActive
            && ItemPayloads(playlists[playlistId.value], media, base).Some? ==>
              r == ContentReply(Some(PlaylistPayload(playlistId.value, playlists[playlistId.value],
                                                     ItemPayloads(playlists[playlistId.value], media, base).value)), None)
    // no playlist id: the stored media file, or nothing
    ensures !TruthyId(playlistId) && TruthyId(mediaId) && mediaId.value in media ==>
              r == ContentReply(None, Some(MediaPayload(mediaId.value, media[mediaId.value], base)))
    ensures !TruthyId(playlistId) && !(TruthyId(mediaId) && mediaId.value in media) ==> r == ContentReply(None, None)
  {
    if TruthyId(playlistId) then
      if playlistId.value !in playlists || !playlists[playlistId.value].isActive then ContentReply(None, None)
      else
        var p := playlists[playlistId.value];
        match ItemPayloads(p, media, base)
        case None => ServerError
        case Some(items) => ContentReply(Some(PlaylistPayload(playlistId.value, p, items)), None)
    else if TruthyId(mediaId) then
      if mediaId.value in media then ContentReply(None, Some(MediaPayload(mediaId.value, media[mediaId.value], base)))
      else ContentReply(None, None)
    else ContentReply(None, None)
  }

  /**
   * The status endpoint and the content endpoint agree: the playlist or media
   * the content names carries the id and the `last_updated` text the status
   * reports, an empty content reply goes with an empty status, and the
   * content fails only where the status names a playlist.
   */
  lemma StatusMatchesContent(playlistId: Option<int>, mediaId: Option<int>, playlists: map<int, PlaylistRecord>, media: map<int, MediaRecord>, base: string)
    ensures var c := ContentFor(playlistId, mediaId, playlists, media, base);
            var s := StatusTarget(playlistId, mediaId, playlists, media);
            (c.ContentReply? && c.playlist.Some? ==> s.playlistId == Some(c.playlist.value.id) && s.lastUpdated == c.playlist.value.lastUpdated)
            && (c.ContentReply? && c.media.Some? ==> s.mediaId == Some(c.media.value.item.id) && s.lastUpdated == c.media.value.lastUpdated)
            && (c == ContentReply(None, None) ==> s == Target(None, None, None))
            && (c.ServerError? ==> s.playlistId == playlistId)
  {
  }

  /**
   * Building the `items` list item by item, as the handler's loop appends
   * them; it stops with None at the first item whose media file is missing.
   */
  method ContentItems(p: PlaylistRecord, media: map<int, MediaRecord>, base: string) returns (items: Option<seq<Content.Item>>)
    ensures items == ItemPayloads(p, media, base)
  {
    var built: seq<Content.Item> := [];
    var i := 0;
    while i < |p.items|
      invariant 0 <= i <= |p.items|
      invariant |built| == i
      invariant forall k :: 0 <= k < i ==> p.items[k].mediaFileId in media
      invariant forall k :: 0 <= k < i ==> built[k] == ItemPayload(p.items[k], media[p.items[k].mediaFileId], p.defaultDuration, base)
    {
      var item := p.items[i];
      if item.mediaFileId !in media {
        assert ItemPayloads(p, media, base).None?;
        return None;
      }
      built := built + [ItemPayload(item, media[item.mediaFileId], p.defaultDuration, base)];
      i := i + 1;
    }
    assert built == ItemPayloads(p, media, base).value;
    items := Some(built);
  }

  // ----------------------------------------------------- editing a playlist

  /** What position `i` of the edit form contributes: nothing, an error, or a row. */
  datatype Cell = Skip | Raises | Row(item: ItemRecord)

  /** The handler's reading of position `i`: a blank id is skipped; a short or non-numeric duration, or a non-numeric id, raises. */
  function CellAt(ids: seq<FormId>, durations: seq<FormId>, i: nat): (c: Cell)
    requires i < |ids|
    ensures c.Skip? <==> ids[i].Blank?
    ensures c.Row? ==> c.item.orderIndex == i && ids[i] == Number(c.item.mediaFileId) && i < |durations|
    ensures c.Row? ==> (durations[i].Blank? ==> c.item.duration.None?) && (durations[i].Number? ==> c.item.duration == Some(durations[i].n))
    ensures c.Raises? <==> !ids[i].Blank? && (i >= |durations| || durations[i].NotANumber? || ids[i].NotANumber?)
  {
    if ids[i].Blank? then Skip
    else if i >= |durations| then Raises
    else
      var duration: Option<int> :=
        match durations[i]
        case Blank => None
        case Number(n) => Some(n)
        case NotANumber => None;
      if durations[i].NotANumber? || ids[i].NotANumber? then Raises
      else Row(ItemRecord(ids[i].n, i, duration))
  }

  /** The rows of every position, as present-or-absent values. */
  function Cells(ids: seq<FormId>, durations: seq<FormId>): (r: seq<Option<ItemRecord>>)
    ensures |r| == |ids|
    ensures forall i :: 0 <= i < |ids| ==> (r[i].Some? <==> CellAt(ids, durations, i).Row?)
    ensures forall i :: 0 <= i < |ids| && r[i].Some? ==> r[i].value == CellAt(ids, durations, i).item
  {
    seq(|ids|, i requires 0 <= i < |ids| => if CellAt(ids, durations, i).Row? then Some(CellAt(ids, durations, i).item) else None)
  }

  /** The new items of a playlist edit, None when the form makes the handler raise. */
  function NewItems(ids: seq<FormId>, durations: seq<FormId>): (r: Option<seq<ItemRecord>>)
    ensures r.None? <==> exists i :: 0 <= i < |ids| && CellAt(ids, durations, i).Raises?
  {
    if exists i :: 0 <= i < |ids| && CellAt(ids, durations, i).Raises? then None
    else Some(Somes(Cells(ids, durations)))
  }

  /**
   * The rows of a successful edit: each row's `order_index` is its position
   * in the submitted list, where a numeric id and a numeric or blank duration
   * stood; the indexes strictly increase; and every position with a non-blank
   * id has its row, so blank ids are skipped without renumbering the rest.
   */
  lemma {:induction false} NewItemsInOrder(ids: seq<FormId>, durations: seq<FormId>)
    requires NewItems(ids, durations).Some?
    ensures var rows := NewItems(ids, durations).value;
            (forall k :: 0 <= k < |rows| ==>
               0 <= rows[k].orderIndex < |ids| && ids[rows[k].orderIndex] == Number(rows[k].mediaFileId)
               && rows[k].orderIndex < |durations|
               && (durations[rows[k].orderIndex].Blank? ==> rows[k].duration.None?)
               && (durations[rows[k].orderIndex].Number? ==> rows[k].duration == Some(durations[rows[k].orderIndex].n)))
            && (forall j, k :: 0 <= j < k < |rows| ==> rows[j].orderIndex < rows[k].orderIndex)
            && (forall i :: 0 <= i < |ids| && !ids[i].Blank? ==> exists k :: 0 <= k < |rows| && rows[k].orderIndex == i)
  {
    var cells := Cells(ids, durations);
    var rows := NewItems(ids, durations).value;
    assert rows == Somes(cells);
    SomesInOrder(cells);
    var at := SomeIndices(cells);
    forall k | 0 <= k < |rows|
      ensures rows[k].orderIndex == at[k]
    {
      assert CellAt(ids, durations, at[k]).Row?;
    }
    forall i | 0 <= i < |ids| && !ids[i].Blank?
      ensures exists k :: 0 <= k < |rows| && rows[k].orderIndex == i
    {
      assert !CellAt(ids, durations, i).Raises?;
      assert cells[i].Some?;
      var k :| 0 <= k < |at| && at[k] == i;
      assert rows[k].orderIndex == i;
    }
  }

  /** The loop of `update_playlist` over the submitted ids, stopping at the first position that raises. */
  method BuildItems(ids: seq<FormId>, durations: seq<FormId>) returns (rows: Option<seq<ItemRecord>>)
    ensures rows == NewItems(ids, durations)
  {
    ghost var cells := Cells(ids, durations);
    var built: seq<ItemRecord> := [];
    var i := 0;
    while i < |ids|
      invariant 0 <= i <= |ids|
      invariant forall j :: 0 <= j < i ==> !CellAt(ids, durations, j).Raises?
      invariant built == Somes(cells[..i])
    {
      var c := CellAt(ids, durations, i);
      if c.Raises? {
        return None;
      }
      assert cells[..i + 1][..i] == cells[..i];
      if c.Row? {
        built := built + [c.item];
      }
      i := i + 1;
    }
    assert cells[..i] == cells;
    rows := Some(built);
  }

  /**
   * `update_playlist`: the settings are replaced, the update time is `now`,
   * and the items are rebuilt from the form; when the form makes the handler
   * raise nothing is committed and the playlist stays as it was (None).
   */
  method UpdatePlaylist(p: PlaylistRecord, name: string, defaultDuration: int, loop: bool, now: string,
                        ids: seq<FormId>, durations: seq<FormId>) returns (r: Option<PlaylistRecord>)
    ensures r.None? <==> NewItems(ids, durations).None?
    ensures r.Some? ==> r.value == PlaylistRecord(name, p.isActive, loop, defaultDuration, now, NewItems(ids, durations).value)
  {
    var rows := BuildItems(ids, durations);
    if rows.None? {
      return None;
    }
    r := Some(PlaylistRecord(name, p.isActive, loop, defaultDuration, now, rows.value));
  }

  // ---------------------------------------------------------------- deleting

  /** True when some item of some playlist uses media file `mediaId`. */
  predicate InPlaylist(mediaId: int, playlists: map<int, PlaylistRecord>)
  {
    exists id, k :: id in playlists && 0 <= k < |playlists[id].items| && playlists[id].items[k].mediaFileId == mediaId
  }

  /**
   * `delete_media`: refused (None) while an item uses the file; otherwise the
   * file leaves the catalogue, and every item still resolves.
   */
  function DeleteMedia(mediaId: int, playlists: map<int, PlaylistRecord>, media: map<int, MediaRecord>): (r: Option<map<int, MediaRecord>>)
    ensures r.None? <==> InPlaylist(mediaId, playlists)
    ensures r.Some? ==> r.value == media - {mediaId}
    ensures r.Some? && ItemsResolve(playlists, media) ==> ItemsResolve(playlists, r.value)
  {
    if InPlaylist(mediaId, playlists) then None else Some(media - {mediaId})
  }

  /** Every assigned playlist id names a stored playlist. */
  predicate AssignmentsResolve(deviceAssignments: seq<Option<int>>, playlists: map<int, PlaylistRecord>)
  {
    forall d :: 0 <= d < |deviceAssignments| && deviceAssignments[d].Some? ==> deviceAssignments[d].value in playlists
  }

  /**
   * `delete_playlist`, given the `current_playlist_id` of every device:
   * refused (None) while a device is assigned the playlist; otherwise the
   * playlist and its items leave the catalogue and every assignment still
   * names a stored playlist.
   */
  function DeletePlaylist(playlistId: int, deviceAssignments: seq<Option<int>>, playlists: map<int, PlaylistRecord>): (r: Option<map<int, PlaylistRecord>>)
    ensures r.None? <==> Some(playlistId) in deviceAssignments
    ensures r.Some? ==> r.value == playlists - {playlistId}
    ensures r.Some? && AssignmentsResolve(deviceAssignments, playlists) ==> AssignmentsResolve(deviceAssignments, r.value)
  {
    if Some(playlistId) in deviceAssignments then None else Some(playlists - {playlistId})
  }

  // ------------------------------------------------------------------ devices

  /** A `devices` row, updated in place by the handlers. */
  class Device {
    var currentPlaylistId: Option<int>
    var currentMediaId: Option<int>
    var pendingCommand: Option<string>
    var commandTimestamp: Option<string>
    var status: string
    var lastCheckin: Option<string>
    var currentMedia: Option<string>

    /** At most one of the two assignments is set. */
    predicate AtMostOne()
      reads this
    {
      currentPlaylistId.None? || currentMediaId.None?
    }

    /** `add_device`: a new device is offline, unassigned and has no command. */
    constructor ()
      ensures currentPlaylistId.None? && currentMediaId.None? && AtMostOne()
      ensures pendingCommand.None? && commandTimestamp.None?
      ensures status == "offline" && lastCheckin.None? && currentMedia.None?
    {
      currentPlaylistId := None;
      currentMediaId := None;
      pendingCommand := None;
      commandTimestamp := None;
      status := "offline";
      lastCheckin := None;
      currentMedia := None;
    }

    /**
     * `assign_playlist`. Assigning a playlist needs an active stored playlist
     * and clears the media; assigning media needs a stored file and clears the
     * playlist; a blank id clears only its own kind; any other kind clears
     * both. A refused or failing form changes nothing, and a committed one
     * always leaves at most one assignment.
     */
    method Assign(kind: Option<string>, playlistField: FormId, mediaField: FormId,
                  playlists: map<int, PlaylistRecord>, media: map<int, MediaRecord>) returns (outcome: Assignment)
      modifies this
      ensures outcome.Assigned? ==> AtMostOne()
      ensures !outcome.Assigned? ==> currentPlaylistId == old(currentPlaylistId) && currentMediaId == old(currentMediaId)
      ensures kind == Some("playlist") ==>
        ((playlistField.Number? && playlistField.n in playlists && playlists[playlistField.n].isActive)
           ==> outcome.Assigned? && currentPlaylistId == Some(playlistField.n) && currentMediaId.None?)
        && (playlistField.Number? && !(playlistField.n in playlists && playlists[playlistField.n].isActive) ==> outcome.NotFound?)
        && (playlistField.Blank? ==> outcome.Assigned? && currentPlaylistId.None? && currentMediaId == old(currentMediaId))
        && (playlistField.NotANumber? ==> outcome.BadNumber?)
      ensures kind == Some("media") ==>
        (mediaField.Number? && mediaField.n in media ==> outcome.Assigned? && currentMediaId == Some(mediaField.n) && currentPlaylistId.None?)
        && (mediaField.Number? && mediaField.n !in media ==> outcome.NotFound?)
        && (mediaField.Blank? ==> outcome.Assigned? && currentMediaId.None? && currentPlaylistId == old(currentPlaylistId))
        && (mediaField.NotANumber? ==> outcome.BadNumber?)
      ensures kind != Some("playlist") && kind != Some("media") ==> outcome.Assigned? && currentPlaylistId.None? && currentMediaId.None?
      ensures pendingCommand == old(pendingCommand) && commandTimestamp == old(commandTimestamp)
      ensures status == old(status) && lastCheckin == old(lastCheckin) && currentMedia == old(currentMedia)
    {
      if kind == Some("playlist") {
        match playlistField
        case Blank =>
          currentPlaylistId := None;
          outcome := Assigned;
        case NotANumber =>
          outcome := BadNumber;
        case Number(n) =>
          if n in playlists && playlists[n].isActive {
            currentPlaylistId := Some(n);
            currentMediaId := None;
            outcome := Assigned;
          } else {
            outcome := NotFound;
          }
      } else if kind == Some("media") {
        match mediaField
        case Blank =>
          currentMediaId := None;
          outcome := Assigned;
        case NotANumber =>
          outcome := BadNumber;
        case Number(n) =>
          if n in media {
            currentMediaId := Some(n);
            currentPlaylistId := None;
            outcome := Assigned;
          } else {
            outcome := NotFound;
          }
      } else {
        currentPlaylistId := None;
        currentMediaId := None;
        outcome := Assigned;
      }
    }

    /** `reboot_device`: a reboot command is left pending with the time it was issued. */
    method RequestReboot(now: string)
      modifies this
      ensures pendingCommand == Some("reboot") && commandTimestamp == Some(now)
      ensures TakeCommand(pendingCommand, commandTimestamp).delivered == Some(Delivery("reboot", Some(now)))
      ensures currentPlaylistId == old(currentPlaylistId) && currentMediaId == old(currentMediaId)
      ensures status == old(status) && lastCheckin == old(lastCheckin) && currentMedia == old(currentMedia)
    {
      pendingCommand := Some("reboot");
      commandTimestamp := Some(now);
    }

    /**
     * `device_checkin`: the device is marked online at `now` with the media it
     * reports; the response names both assignments and carries the pending
     * command, which is then cleared so that no later response carries it.
     */
    method Checkin(report: Option<string>, now: string) returns (response: CheckinResponse)
      modifies this
      ensures response.playlistId == old(currentPlaylistId) && response.mediaId == old(currentMediaId)
      ensures var t := TakeCommand(old(pendingCommand), old(commandTimestamp));
              response.delivered == t.delivered && pendingCommand == t.pending && commandTimestamp == t.stamp
      ensures !TruthyStr(pendingCommand)
      ensures status == "online" && lastCheckin == Some(now) && currentMedia == report
      ensures currentPlaylistId == old(currentPlaylistId) && currentMediaId == old(currentMediaId)
    {
      status := "online";
      lastCheckin := Some(now);
      currentMedia := report;
      var t := TakeCommand(pendingCommand, commandTimestamp);
      response := CheckinResponse(currentPlaylistId, currentMediaId, t.delivered);
      pendingCommand := t.pending;
      commandTimestamp := t.stamp;
    }

    /**
     * `get_device_playlist_status`: the pending command is delivered and
     * cleared exactly as at checkin, and the assignment is reported as
     * `StatusTarget` resolves it. Nothing else about the device changes.
     */
    method PlaylistStatus(playlists: map<int, PlaylistRecord>, media: map<int, MediaRecord>) returns (response: StatusResponse)
      modifies this
      ensures response.target == StatusTarget(currentPlaylistId, currentMediaId, playlists, media)
      ensures var t := TakeCommand(old(pendingCommand), old(commandTimestamp));
              response.delivered == t.delivered && pendingCommand == t.pending && commandTimestamp == t.stamp
      ensures !TruthyStr(pendingCommand)
      ensures currentPlaylistId == old(currentPlaylistId) && currentMediaId == old(currentMediaId)
      ensures status == old(status) && lastCheckin == old(lastCheckin) && currentMedia == old(currentMedia)
    {
      var t := TakeCommand(pendingCommand, commandTimestamp);
      pendingCommand := t.pending;
      commandTimestamp := t.stamp;
      response := StatusResponse(StatusTarget(currentPlaylistId, currentMediaId, playlists, media), t.delivered);
    }

    /** `get_device_content`: the reply for the device's assignment; the device is not changed. */
    method ContentReplyFor(playlists: map<int, PlaylistRecord>, media: map<int, MediaRecord>, base: string) returns (reply: ContentReply)
      ensures reply == ContentFor(currentPlaylistId, currentMediaId, playlists, media, base)
    {
      if TruthyId(currentPlaylistId) {
        var id := currentPlaylistId.value;
        if id !in playlists || !playlists[id].isActive {
          return ContentReply(None, None);
        }
        var items := ContentItems(playlists[id], media, base);
        if items.None? {
          return ServerError;
        }
        reply := ContentReply(Some(PlaylistPayload(id, playlists[id], items.value)), None);
      } else if TruthyId(currentMediaId) {
        var id := currentMediaId.value;
        if id in media {
          reply := ContentReply(None, Some(MediaPayload(id, media[id], base)));
        } else {
          reply := ContentReply(None, None);
        }
      } else {
        reply := ContentReply(None, None);
      }
    }
  }
}
