// The server's replies as the agents read them, and what follows when both
// ends are put together: the status and content endpoints keep the updated
// agent in step with the catalogue, the fixed agent stops seeing edits once
// it holds a playlist, the legacy agent plays the durations the server chose,
// and the file type the server records is the one the agents' extension
// tests see.
module Protocol {
  import opened Common
  import Content
  import Cache
  import Routes
  import UpdatedAgent
  import FixedAgent
  import LegacyAgent

  /** A status response as client_agent_updated.py reads it: `command` is absent unless one was delivered. */
  function UpdatedStatus(r: Routes.StatusResponse): (s: UpdatedAgent.StatusReply)
    ensures s.StatusBody? && s.playlistId == r.target.playlistId && s.lastUpdated == r.target.lastUpdated
    ensures s.command.Val? <==> r.delivered.Some?
    ensures s.command.Val? ==> s.command.value == r.delivered.value.command
    ensures !s.command.Null?
  {
    UpdatedAgent.StatusBody(r.target.playlistId, r.target.lastUpdated,
      if r.delivered.Some? then Val(r.delivered.value.command) else Absent)
  }

  /** A status response as client_agent_fixed.py reads it. */
  function FixedStatus(r: Routes.StatusResponse): (s: FixedAgent.StatusReply)
    ensures s.StatusBody? && s.playlistId == r.target.playlistId && s.mediaId == r.target.mediaId
    ensures s.lastUpdated == r.target.lastUpdated
    ensures s.command.Val? <==> r.delivered.Some?
    ensures s.command.Val? ==> s.command.value == r.delivered.value.command
    ensures !s.command.Null?
  {
    FixedAgent.StatusBody(r.target.playlistId, r.target.mediaId, r.target.lastUpdated,
      if r.delivered.Some? then Val(r.delivered.value.command) else Absent)
  }

  /** A content reply as client_agent_fixed.py reads it: a server error fails `raise_for_status`. */
  function FixedContent(c: Routes.ContentReply): (r: FixedAgent.ContentReply)
    ensures c.ServerError? <==> r.ContentUnavailable?
    ensures c.ContentReply? ==> r == FixedAgent.ContentBody(c.playlist, c.media)
  {
    if c.ServerError? then FixedAgent.ContentUnavailable else FixedAgent.ContentBody(c.playlist, c.media)
  }

  /**
   * Once the updated agent holds the playlist the content endpoint sent, the
   * status endpoint's key for the same catalogue asks for no refetch.
   */
  lemma UpdatedInStepAfterFetch(playlistId: Option<int>, mediaId: Option<int>,
                                playlists: map<int, Routes.PlaylistRecord>, media: map<int, Routes.MediaRecord>, base: string)
    requires Routes.ContentFor(playlistId, mediaId, playlists, media, base).ContentReply?
    requires Routes.ContentFor(playlistId, mediaId, playlists, media, base).playlist.Some?
    ensures var s := Routes.StatusTarget(playlistId, mediaId, playlists, media);
            !UpdatedAgent.NeedsRefetch(Routes.ContentFor(playlistId, mediaId, playlists, media, base).playlist, s.playlistId, s.lastUpdated)
  {
    Routes.StatusMatchesContent(playlistId, mediaId, playlists, media, base);
  }

  /**
   * An edit of the assigned playlist that moves its update time makes the
   * updated agent, holding the playlist sent before the edit, refetch.
   */
  lemma UpdatedRefetchesAfterEdit(id: int, mediaId: Option<int>, playlists: map<int, Routes.PlaylistRecord>,
                                  media: map<int, Routes.MediaRecord>, base: string, edited: Routes.PlaylistRecord)
    requires Routes.ContentFor(Some(id), mediaId, playlists, media, base).ContentReply?
    requires Routes.ContentFor(Some(id), mediaId, playlists, media, base).playlist.Some?
    requires edited.isActive && edited.updatedAt != playlists[id].updatedAt
    ensures var s := Routes.StatusTarget(Some(id), mediaId, playlists[id := edited], media);
            UpdatedAgent.NeedsRefetch(Routes.ContentFor(Some(id), mediaId, playlists, media, base).playlist, s.playlistId, s.lastUpdated)
  {
    var held := Routes.ContentFor(Some(id), mediaId, playlists, media, base).playlist;
    assert held.value.lastUpdated == Some(playlists[id].updatedAt);
    assert Routes.StatusTarget(Some(id), mediaId, playlists[id := edited], media).lastUpdated == Some(edited.updatedAt);
  }

  /**
   * The fixed agent after installing a playlist from the content endpoint:
   * whatever the status endpoint later reports, even an edit that moves the
   * playlist's update time, the check as written fails, while the intended
   * comparison sees the edit.
   */
  lemma FixedBlindAfterPlaylistFetch(id: int, mediaId: Option<int>, playlists: map<int, Routes.PlaylistRecord>,
                                     media: map<int, Routes.MediaRecord>, base: string, edited: Routes.PlaylistRecord)
    requires Routes.ContentFor(Some(id), mediaId, playlists, media, base).ContentReply?
    requires Routes.ContentFor(Some(id), mediaId, playlists, media, base).playlist.Some?
    requires edited.isActive && edited.updatedAt != playlists[id].updatedAt
    ensures var installed := FixedAgent.Installed(FixedContent(Routes.ContentFor(Some(id), mediaId, playlists, media, base)));
            var s := Routes.StatusTarget(Some(id), mediaId, playlists[id := edited], media);
            installed.1 == FixedAgent.Cleared
            && FixedAgent.DetectChange(installed.0, installed.1, s.playlistId, s.mediaId, s.lastUpdated) == FixedAgent.CheckFailed
            && FixedAgent.DetectChangeIntended(installed.0, installed.1, s.playlistId, s.mediaId, s.lastUpdated) == FixedAgent.Changed
  {
    var held := Routes.ContentFor(Some(id), mediaId, playlists, media, base).playlist;
    assert held.value.lastUpdated == Some(playlists[id].updatedAt);
    var s := Routes.StatusTarget(Some(id), mediaId, playlists[id := edited], media);
    assert s.playlistId == Some(id) && s.lastUpdated == Some(edited.updatedAt);
  }

  /**
   * The legacy agent plays each server-built item for the duration the
   * server resolved (the override, or the playlist default), never its own
   * fallback, because the server always sends the `duration` key.
   */
  lemma LegacyPlaysServerDuration(item: Routes.ItemRecord, file: Routes.MediaRecord, p: Routes.PlaylistRecord,
                                  id: int, base: string, items: seq<Content.Item>)
    ensures var sent := Routes.ItemPayload(item, file, p.defaultDuration, base);
            LegacyAgent.Duration(sent, Routes.PlaylistPayload(id, p, items)) == Some(Routes.ItemDuration(item.duration, p.defaultDuration))
  {
  }

  // ------------------------------------------------------------- file types

  lemma LowerConcat(a: string, b: string)
    ensures Lower(a + b) == Lower(a) + Lower(b)
  {
    assert forall i :: 0 <= i < |a + b| ==> Lower(a + b)[i] == (Lower(a) + Lower(b))[i];
  }

  /** A suffix `"." + x` of a text that ends in `"." + ext`, neither with a dot, is that same suffix. */
  lemma DotSuffix(s: string, ext: string, x: string)
    requires EndsWith(s, "." + ext) && '.' !in ext && '.' !in x
    ensures EndsWith(s, "." + x) <==> x == ext
  {
    if EndsWith(s, "." + x) {
      var i := |s| - |ext| - 1;
      var j := |s| - |x| - 1;
      assert s[i] == ("." + ext)[0];
      assert s[j] == ("." + x)[0];
      assert s[i + 1..] == ext;
      assert s[j + 1..] == x;
      LastUnique(s, '.', i, j);
    }
  }

  /** A whitelisted extension has no dot or slash. */
  lemma WhitelistedShape(ext: string)
    requires Routes.Whitelisted(ext)
    ensures '.' !in ext && '/' !in ext
  {
  }

  /** The server records a whitelisted extension as an image exactly when client_agent_fixed.py lists it. */
  lemma FixedImageExtension(ext: string)
    requires Routes.Whitelisted(ext)
    ensures Routes.FileType(ext) == "image" <==> "." + ext in FixedAgent.ImageExtensions
  {
    var f := FixedAgent.ImageExtensions;
    if ext == "png" {
      assert f[2] == "." + ext;
    } else if ext == "jpg" {
      assert f[0] == "." + ext;
    } else if ext == "jpeg" {
      assert f[1] == "." + ext;
    } else if ext == "gif" {
      assert f[3] == "." + ext;
    } else {
      assert Routes.IsVideoExtension(ext);
      assert ext[|ext| - 1] in "4ivm";
      assert forall k :: 0 <= k < |f| ==> f[k][|f[k]| - 1] in "gfp";
      assert ("." + ext)[|ext|] == ext[|ext| - 1];
    }
  }

  /** The server records a whitelisted extension as an image exactly when client_agent_updated.py lists it. */
  lemma UpdatedImageExtension(ext: string)
    requires Routes.Whitelisted(ext)
    ensures Routes.FileType(ext) == "image" <==> "." + ext in UpdatedAgent.ImageExtensions
  {
    var u := UpdatedAgent.ImageExtensions;
    if ext == "png" {
      assert u[2] == "." + ext;
    } else if ext == "jpg" {
      assert u[0] == "." + ext;
    } else if ext == "jpeg" {
      assert u[1] == "." + ext;
    } else if ext == "gif" {
      assert u[4] == "." + ext;
    } else {
      assert Routes.IsVideoExtension(ext);
      assert ext[|ext| - 1] in "4ivm";
      assert forall k :: 0 <= k < |u| ==> u[k][|u[k]| - 1] in "gfp";
      assert ("." + ext)[|ext|] == ext[|ext| - 1];
    }
  }

  /**
   * The image test of client_agent_fixed.py on a name ending in a dot and a
   * whitelisted extension: true exactly for the extensions the server
   * records as images.
   */
  lemma FixedSeesServerType(name: string, ext: string)
    requires Routes.Whitelisted(ext) && EndsWith(Lower(name), "." + ext)
    ensures FixedAgent.IsImageName(name) <==> Routes.FileType(ext) == "image"
  {
    WhitelistedShape(ext);
    FixedImageExtension(ext);
    var exts := FixedAgent.ImageExtensions;
    forall k | 0 <= k < |exts|
      ensures EndsWith(Lower(name), exts[k]) <==> exts[k] == "." + ext
    {
      assert exts[k] == "." + exts[k][1..];
      DotSuffix(Lower(name), ext, exts[k][1..]);
    }
  }

  /** What splitext reads as the extension, once the last dot and the last slash are known. */
  lemma ExtensionAt(p: string, dot: nat, sep: nat)
    requires LastIndexOf(p, '.') == Some(dot) && LastIndexOf(p, '/') == Some(sep)
    requires sep + 1 < dot && p[sep + 1] != '.'
    ensures UpdatedAgent.Extension(p) == p[dot..]
  {
  }

  /** The pieces of `hex.ext` for a non-empty `hex` and an `ext` without dots and slashes. */
  lemma StoredNameShape(hex: string, ext: string)
    requires hex != [] && '.' !in hex && '/' !in hex
    requires '.' !in ext && '/' !in ext
    ensures var name := hex + "." + ext;
            name[|hex|] == '.' && name[|hex| + 1..] == ext && '/' !in name && name[0] == hex[0]
            && name[|hex|..] == "." + ext
  {
    var name := hex + "." + ext;
    assert forall m :: 0 <= m < |name| ==> name[m] == (if m < |hex| then hex[m] else if m == |hex| then '.' else ext[m - |hex| - 1]);
  }

  /** splitext of `dir/hex.ext`, for such `hex` and `ext`, is `.ext`. */
  lemma SplitextOfStoredName(dir: string, hex: string, ext: string)
    requires hex != [] && '.' !in hex && '/' !in hex
    requires '.' !in ext && '/' !in ext
    ensures UpdatedAgent.Extension(Cache.LocalPath(dir, hex + "." + ext)) == "." + ext
  {
    var name := hex + "." + ext;
    StoredNameShape(hex, ext);
    var p := dir + "/" + name;
    var dot := |dir| + 1 + |hex|;
    assert p[|dir| + 1..] == name;
    assert p[dot..] == name[|hex|..];
    assert p[dot + 1..] == ext;
    LastAt(p, '.', dot);
    LastAt(p, '/', |dir|);
    ExtensionAt(p, dot, |dir|);
  }

  /** The image test of client_agent_updated.py on the cached copy of a stored upload agrees with the recorded type. */
  lemma UpdatedSeesServerType(dir: string, hex: string, ext: string)
    requires Routes.Whitelisted(ext) && Lower(ext) == ext
    requires hex != [] && '.' !in hex && '/' !in hex
    ensures UpdatedAgent.IsImagePath(Cache.LocalPath(dir, hex + "." + ext)) <==> Routes.FileType(ext) == "image"
  {
    WhitelistedShape(ext);
    SplitextOfStoredName(dir, hex, ext);
    LowerConcat(".", ext);
    UpdatedImageExtension(ext);
  }

  /** Lower-casing `hex.ext` keeps an already lower-case `.ext` at its end. */
  lemma LowerKeepsExtension(hex: string, ext: string)
    requires Lower(ext) == ext
    ensures EndsWith(Lower(hex + "." + ext), "." + ext)
  {
    LowerConcat(hex, "." + ext);
    LowerConcat(".", ext);
  }

  /**
   * An upload the server stores: with a non-empty hex name part free of dots
   * and slashes and a sanitized name that kept a whitelisted extension, both
   * later agents take the stored file for an image exactly when the server
   * recorded it as one.
   */
  lemma AgentsAgreeOnUploadType(part: Option<string>, secured: string, hex: string, dir: string)
    requires Routes.UploadMedia(part, secured, hex).Stored?
    requires Routes.Whitelisted(Lower(Routes.Extension(secured).value))
    requires hex != [] && '.' !in hex && '/' !in hex
    ensures var r := Routes.UploadMedia(part, secured, hex);
            (FixedAgent.IsImageName(r.filename) <==> r.fileType == "image")
            && (UpdatedAgent.IsImagePath(Cache.LocalPath(dir, r.filename)) <==> r.fileType == "image")
  {
    var r := Routes.UploadMedia(part, secured, hex);
    var ext := Lower(Routes.Extension(secured).value);
    assert r.filename == hex + "." + ext && r.fileType == Routes.FileType(ext);
    Routes.LowerIdempotent(Routes.Extension(secured).value);
    LowerKeepsExtension(hex, ext);
    FixedSeesServerType(r.filename, ext);
    UpdatedSeesServerType(dir, hex, ext);
  }
}
