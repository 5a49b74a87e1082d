// client_agent_fixed.py: the revision that handles both playlist and
// single-media assignments, always plays through one VLC manifest, and
// supervises the VLC process with a watchdog.
module FixedAgent {
  import opened Common
  import opened Content
  import opened Effects
  import opened Cache
  import M3U

  /**
   * What the agent holds as `current_media`. The attribute is not created by
   * the constructor, so there are three states: never set (`hasattr` false),
   * set to None, or set to a media descriptor.
   */
  datatype MediaSlot = Unset | Cleared | Held(media: Media)

  /** The reply of GET /playlist-status as far as the agent reads it. */
  datatype StatusReply =
    | StatusUnavailable            // transport error or a status other than 200
    | StatusMalformed              // body not JSON, JSON null, or not an object
    | StatusBody(playlistId: Option<int>, mediaId: Option<int>, lastUpdated: Option<string>, command: Field<string>)

  /** The reply of GET /playlist. */
  datatype ContentReply =
    | ContentUnavailable
    | ContentMalformed
    | ContentBody(playlist: Option<Playlist>, media: Option<Media>)

  /** The outcome of the comparison in check_playlist_status. */
  datatype Decision = CheckFailed | Changed | Unchanged

  const ImageExtensions: seq<string> := [".jpg", ".jpeg", ".png", ".gif", ".bmp"]
  const StopTimeout: int := 3
  const ManifestName: string := "current_playlist.m3u"
  const DebugLogName: string := "vlc_debug.log"

  /**
   * The four-way test of lines 208-220, given what the client holds
   * (`current*`, and whether it holds a playlist / has a media attribute at
   * all) and what the server reports.
   */
  function Decide(curPlaylist: Option<int>, curStamp: Option<string>, curMedia: Option<int>, curMediaStamp: Option<string>,
                  holdsPlaylist: bool, hasMediaAttr: bool,
                  serverPlaylist: Option<int>, serverMedia: Option<int>, serverStamp: Option<string>): Decision
  {
    if TruthyId(serverPlaylist) && (curPlaylist != serverPlaylist || curStamp != serverStamp) then Changed
    else if TruthyId(serverMedia) && (curMedia != serverMedia || curMediaStamp != serverStamp) then Changed
    else if !TruthyId(serverPlaylist) && !TruthyId(serverMedia) && (TruthyId(curPlaylist) || TruthyId(curMedia)) then Changed
    else if !holdsPlaylist && !hasMediaAttr then Changed
    else Unchanged
  }

  function HeldId(held: Option<Playlist>): Option<int>
  {
    if held.Some? then Some(held.value.id) else None
  }

  function HeldStamp(held: Option<Playlist>): Option<string>
  {
    if held.Some? then held.value.lastUpdated else None
  }

  /**
   * check_playlist_status's comparison as written. When `current_media` is
   * None, `getattr(self, 'current_media', {}).get` raises at line 199 and the
   * handler at line 229 turns that into a failed check.
   */
  function DetectChange(held: Option<Playlist>, slot: MediaSlot,
                        serverPlaylist: Option<int>, serverMedia: Option<int>, serverStamp: Option<string>): (d: Decision)
    ensures d == CheckFailed <==> slot.Cleared?
    // a playlist id from the server that differs from the held one, or the same id with a new timestamp
    ensures !slot.Cleared? && TruthyId(serverPlaylist) && HeldId(held) != serverPlaylist ==> d == Changed
    ensures !slot.Cleared? && TruthyId(serverPlaylist) && held.Some? && serverStamp != held.value.lastUpdated ==> d == Changed
    // no playlist id, but a media id that differs from the held one or a new timestamp
    ensures !slot.Cleared? && !TruthyId(serverPlaylist) && TruthyId(serverMedia) && !slot.Held? ==> d == Changed
    ensures (slot.Held? && !TruthyId(serverPlaylist) && TruthyId(serverMedia)
             && (serverMedia != Some(slot.media.item.id) || serverStamp != slot.media.lastUpdated)) ==> d == Changed
    // the server reports nothing while the client holds something: cleared
    ensures (!slot.Cleared? && !TruthyId(serverPlaylist) && !TruthyId(serverMedia)
             && (TruthyId(HeldId(held)) || (slot.Held? && slot.media.item.id != 0))) ==> d == Changed
    // nothing held and no media attribute yet: initial fetch
    ensures held.None? && slot.Unset? ==> d == Changed
    // a held media that the server still reports with its id and timestamp, and nothing else, is no change
    ensures slot.Held? && held.None? ==>
              (d == Unchanged <==> !TruthyId(serverPlaylist)
                                   && (if TruthyId(serverMedia) then serverMedia == Some(slot.media.item.id) && serverStamp == slot.media.lastUpdated
                                       else slot.media.item.id == 0))
    // a playlist held without any media attribute, reported with the same key, is no change
    ensures (slot.Unset? && TruthyId(serverPlaylist) && !TruthyId(serverMedia) && held.Some? && serverPlaylist == Some(held.value.id)
             && serverStamp == held.value.lastUpdated) ==> d == Unchanged
  {
    if slot.Cleared? then CheckFailed
    else
      var curMedia := if slot.Held? then Some(slot.media.item.id) else None;
      var curMediaStamp := if slot.Held? then slot.media.lastUpdated else None;
      Decide(HeldId(held), HeldStamp(held), curMedia, curMediaStamp, held.Some?, slot != Unset,
             serverPlaylist, serverMedia, serverStamp)
  }

  /**
   * The comparison as lines 199 and 201 evidently intend it: a `current_media`
   * of None holds no media id and no timestamp.
   */
  function DetectChangeIntended(held: Option<Playlist>, slot: MediaSlot,
                                serverPlaylist: Option<int>, serverMedia: Option<int>, serverStamp: Option<string>): (d: Decision)
    ensures d != CheckFailed
    ensures TruthyId(serverPlaylist) && (HeldId(held) != serverPlaylist || HeldStamp(held) != serverStamp) ==> d == Changed
    ensures !TruthyId(serverPlaylist) && TruthyId(serverMedia) && !slot.Held? ==> d == Changed
    ensures d == Unchanged && TruthyId(serverPlaylist) ==> held.Some? && serverPlaylist == Some(held.value.id) && serverStamp == held.value.lastUpdated
  {
    var curMedia := if slot.Held? then Some(slot.media.item.id) else None;
    var curMediaStamp := if slot.Held? then slot.media.lastUpdated else None;
    Decide(HeldId(held), HeldStamp(held), curMedia, curMediaStamp, held.Some?, slot != Unset,
           serverPlaylist, serverMedia, serverStamp)
  }

  /**
   * Once a playlist has been fetched (`current_media` is then None), an
   * in-place edit of that playlist (same id 5, timestamp T1 -> T2) is not
   * detected by the code as written, while the intended comparison detects it.
   */
  lemma PlaylistEditMissedAfterFetch(p: Playlist)
    requires p.id == 5 && p.lastUpdated == Some("T1")
    ensures DetectChange(Some(p), Cleared, Some(5), None, Some("T2")) == CheckFailed
    ensures DetectChangeIntended(Some(p), Cleared, Some(5), None, Some("T2")) == Changed
  {
  }

  /** Whether fetch_content replaces the held assignment with what `reply` carries. */
  function ContentChanges(reply: ContentReply, held: Option<Playlist>, slot: MediaSlot): (r: bool)
    ensures !reply.ContentBody? ==> !r
    ensures reply.ContentBody? && reply.playlist.Some? ==> (r <==> held != reply.playlist)
    ensures reply.ContentBody? && reply.playlist.None? && reply.media.Some? ==> (r <==> slot != Held(reply.media.value))
    ensures reply.ContentBody? && reply.playlist.None? && reply.media.None? ==> (r <==> held.Some? || slot != Unset)
  {
    match reply
    case ContentBody(playlist, media) =>
      if playlist.Some? then playlist != held
      else if media.Some? then slot != Held(media.value)
      else held.Some? || slot != Unset
    case _ => false
  }

  /** The assignment fetch_content installs from a reply it accepts. */
  function Installed(reply: ContentReply): (r: (Option<Playlist>, MediaSlot))
    requires reply.ContentBody?
    ensures !(r.0.Some? && r.1.Held?)
    ensures reply.playlist.Some? ==> r.0 == reply.playlist && r.1 == Cleared
    ensures reply.playlist.None? ==> r.0 == None
    ensures reply.playlist.None? && reply.media.Some? ==> r.1 == Held(reply.media.value)
    ensures reply.playlist.None? && reply.media.None? ==> r.1 == Cleared
  {
    if reply.playlist.Some? then (reply.playlist, Cleared)
    else if reply.media.Some? then (None, Held(reply.media.value))
    else (None, Cleared)
  }

  /** What stop_current_media does to a process: terminate, wait 3 s, and kill and reap on timeout. */
  function StopEffects(running: bool, graceful: bool): (e: seq<Effect>)
    ensures running <==> e != []
    ensures running ==> |e| >= 2 && e[0] == Terminate && e[1] == WaitFor(StopTimeout)
    ensures Kill in e <==> running && !graceful
    ensures running && !graceful ==> e[|e| - 1] == WaitUntilExit
  {
    if !running then []
    else [Terminate, WaitFor(StopTimeout)] + (if graceful then [] else [Kill, WaitUntilExit])
  }

  /** The effects of execute_command after the player was stopped. */
  function CommandEffects(command: string, rebootError: Option<string>): (e: seq<Effect>)
    ensures command != "reboot" ==> e == []
    ensures command == "reboot" ==> |e| >= 1 && e[0] == RebootCall
    ensures command == "reboot" ==> (|e| == 2 <==> rebootError.Some?)
  {
    if command != "reboot" then []
    else [RebootCall] + (if rebootError.Some? then [SendLog("error", "Failed to execute reboot: " + rebootError.value)] else [])
  }

  /** The image test of line 445, on the lower-cased file name. */
  predicate IsImageName(name: string)
  {
    exists k :: 0 <= k < |ImageExtensions| && EndsWith(Lower(name), ImageExtensions[k])
  }

  /** `(Path(MEDIA_DIR) / name).absolute()`: the empty name is the media directory itself. */
  function ItemPath(dir: string, name: string): string
  {
    if name == "" then dir else LocalPath(dir, name)
  }

  /** Whether `Path(MEDIA_DIR) / name` exists: the media directory always does. */
  predicate ItemExists(name: string, files: map<string, CachedFile>)
  {
    name == "" || name in files
  }

  /** The lines one item contributes to the manifest: a duration hint for images, then its path. */
  function EntryLines(dir: string, name: string, files: map<string, CachedFile>): seq<string>
  {
    if !ItemExists(name, files) then []
    else (if IsImageName(name) then [M3U.ImageDuration] else []) + [ItemPath(dir, name)]
  }

  /**
   * The manifest lines after the header for `items`, and whether every item
   * had a `filename` (a missing one raises and abandons the manifest).
   */
  function ManifestBody(dir: string, items: seq<Item>, files: map<string, CachedFile>): (seq<string>, bool)
    decreases |items|
  {
    if items == [] then ([], true)
    else
      var before := ManifestBody(dir, items[..|items| - 1], files);
      var last := items[|items| - 1];
      if !before.1 || last.filename.None? then (before.0, false)
      else (before.0 + EntryLines(dir, last.filename.value, files), true)
  }

  /** The paths of the items whose file is in the cache, in item order. */
  function PresentPaths(dir: string, items: seq<Item>, files: map<string, CachedFile>): seq<string>
    decreases |items|
  {
    if items == [] then []
    else
      var last := items[|items| - 1];
      PresentPaths(dir, items[..|items| - 1], files)
        + (if last.filename.Some? && ItemExists(last.filename.value, files) then [ItemPath(dir, last.filename.value)] else [])
  }

  predicate AllNamed(items: seq<Item>)
  {
    forall k :: 0 <= k < |items| ==> items[k].filename.Some?
  }

  /** Every item has a file name and no name contains a newline. */
  predicate NamesWithoutNewlines(items: seq<Item>)
  {
    forall k :: 0 <= k < |items| ==> items[k].filename.Some? && '\n' !in items[k].filename.value
  }

  /**
   * The manifest's media lines are exactly the paths of the cached items, in
   * item order; missing files are omitted and duration hints are not media lines.
   */
  lemma {:induction false} ManifestEntries(dir: string, items: seq<Item>, files: map<string, CachedFile>)
    requires StartsWith(dir, "/")
    requires AllNamed(items)
    ensures ManifestBody(dir, items, files).1
    ensures M3U.Entries(ManifestBody(dir, items, files).0) == PresentPaths(dir, items, files)
    decreases |items|
  {
    if items != [] {
      var front := items[..|items| - 1];
      var last := items[|items| - 1];
      assert AllNamed(front) by {
        forall k | 0 <= k < |front| ensures front[k].filename.Some? { assert front[k] == items[k]; }
      }
      ManifestEntries(dir, front, files);
      assert last.filename.Some? by { assert last == items[|items| - 1]; }
      var name := last.filename.value;
      var before := ManifestBody(dir, front, files).0;
      M3U.EntriesAppend(before, EntryLines(dir, name, files));
      if ItemExists(name, files) {
        var path := ItemPath(dir, name);
        assert path[0] == '/';
        assert M3U.IsEntry(path);
        if IsImageName(name) {
          assert EntryLines(dir, name, files) == [M3U.ImageDuration] + [path];
          assert M3U.Entries([M3U.ImageDuration] + [path]) == [path] by {
            assert ([M3U.ImageDuration] + [path])[1..] == [path];
            M3U.EntriesSingle(path);
          }
        } else {
          M3U.EntriesSingle(path);
        }
      }
    }
  }

  /** No manifest line of a newline-free item list contains a newline. */
  lemma {:induction false} ManifestBodyNoNewlines(dir: string, items: seq<Item>, files: map<string, CachedFile>)
    requires '\n' !in dir
    requires NamesWithoutNewlines(items)
    ensures M3U.NoNewlines(ManifestBody(dir, items, files).0)
    decreases |items|
  {
    if items != [] {
      var front := items[..|items| - 1];
      assert NamesWithoutNewlines(front) by {
        forall k | 0 <= k < |front| ensures front[k].filename.Some? && '\n' !in front[k].filename.value {
          assert front[k] == items[k];
        }
      }
      ManifestBodyNoNewlines(dir, front, files);
      var last := items[|items| - 1];
      var name := last.filename.value;
      var before := ManifestBody(dir, front, files).0;
      var extra := EntryLines(dir, name, files);
      assert '\n' !in ItemPath(dir, name) by {
        if name != "" {
          assert ItemPath(dir, name) == dir + "/" + name;
          forall i | 0 <= i < |ItemPath(dir, name)| ensures ItemPath(dir, name)[i] != '\n' {
            if i < |dir| { assert ItemPath(dir, name)[i] == dir[i]; }
            else if i > |dir| { assert ItemPath(dir, name)[i] == name[i - |dir| - 1]; }
          }
        }
      }
      assert M3U.NoNewlines(extra);
      forall k | 0 <= k < |before + extra| ensures '\n' !in (before + extra)[k] {
        if k < |before| { assert (before + extra)[k] == before[k]; }
        else { assert (before + extra)[k] == extra[k - |before|]; }
      }
    }
  }

  /**
   * The count that decides whether VLC is launched: the manifest text read
   * back has as many media lines as there are cached items.
   */
  lemma ManifestCount(dir: string, items: seq<Item>, files: map<string, CachedFile>)
    requires StartsWith(dir, "/") && '\n' !in dir
    requires NamesWithoutNewlines(items)
    ensures M3U.MediaCount(M3U.Text([M3U.Header] + ManifestBody(dir, items, files).0)) == |PresentPaths(dir, items, files)|
  {
    var body := ManifestBody(dir, items, files).0;
    assert AllNamed(items);
    ManifestEntries(dir, items, files);
    ManifestBodyNoNewlines(dir, items, files);
    var lines := [M3U.Header] + body;
    assert M3U.NoNewlines(lines) by {
      forall k | 0 <= k < |lines| ensures '\n' !in lines[k] {
        if k > 0 { assert lines[k] == body[k - 1]; }
      }
    }
    M3U.CountOfText(lines);
    M3U.EntriesAppend([M3U.Header], body);
    M3U.EntriesSingle(M3U.Header);
  }

  /** The download skip rule of lines 334-339: present with the size the item announces. */
  predicate SkipsDownload(files: map<string, CachedFile>, name: string, item: Item)
  {
    name in files &&
    match item.fileSize
    case Absent => files[name].size == 0
    case Null => false
    case Val(size) => files[name].size == size
  }

  /** The media directory and effects while download_media works through `items`. */
  datatype Sweep = Sweep(files: map<string, CachedFile>, log: seq<Effect>, ok: bool)

  /** download_media from item `i` on; a missing `filename` raises and ends the sweep. */
  function DownloadFrom(s: Sweep, items: seq<Item>, fetches: seq<Fetch>, i: nat, now: int): Sweep
    decreases |items| - i
  {
    if i >= |items| || !s.ok then s
    else
      var item := items[i];
      if item.filename.None? then Sweep(s.files, s.log, false)
      else
        var name := item.filename.value;
        if SkipsDownload(s.files, name, item) then DownloadFrom(s, items, fetches, i + 1, now)
        else DownloadFrom(Sweep(AfterFetch(s.files, name, FetchAt(fetches, i), now), s.log + [Download(name)], true),
                          items, fetches, i + 1, now)
  }

  /** Files that no item names are never touched by a download sweep. */
  lemma {:induction false} DownloadKeepsUnnamed(s: Sweep, items: seq<Item>, fetches: seq<Fetch>, i: nat, now: int, n: string)
    requires n in s.files
    requires forall k :: 0 <= k < |items| ==> items[k].filename != Some(n)
    ensures n in DownloadFrom(s, items, fetches, i, now).files
    ensures DownloadFrom(s, items, fetches, i, now).files[n] == s.files[n]
    decreases |items| - i
  {
    if i < |items| && s.ok && items[i].filename.Some? {
      var name := items[i].filename.value;
      if !SkipsDownload(s.files, name, items[i]) {
        var s' := Sweep(AfterFetch(s.files, name, FetchAt(fetches, i), now), s.log + [Download(name)], true);
        DownloadKeepsUnnamed(s', items, fetches, i + 1, now, n);
      } else {
        DownloadKeepsUnnamed(s, items, fetches, i + 1, now, n);
      }
    }
  }

  /** When every item's file is present with its announced size, nothing is requested or written. */
  lemma {:induction false} DownloadSkipsComplete(s: Sweep, items: seq<Item>, fetches: seq<Fetch>, i: nat, now: int)
    requires s.ok
    requires forall k :: 0 <= k < |items| ==> items[k].filename.Some? && SkipsDownload(s.files, items[k].filename.value, items[k])
    ensures DownloadFrom(s, items, fetches, i, now) == s
    decreases |items| - i
  {
    if i < |items| {
      DownloadSkipsComplete(s, items, fetches, i + 1, now);
    }
  }

  function VlcArgv(manifestPath: string, debugLog: string): seq<string>
  {
    ["vlc", "--intf", "dummy", "--fullscreen", "--no-osd", "--loop", "--no-video-title-show",
     "--no-qt-privacy-ask", "--quiet", "--no-interact", manifestPath,
     "--extraintf", "logger", "--logfile", debugLog]
  }

  class FixedClient {
    var currentPlaylist: Option<Playlist>
    var currentMedia: MediaSlot
    var currentMediaIndex: nat
    var currentProcess: Option<Handle>
    /** The media directory MEDIA_DIR: file name to size and mtime. */
    var files: map<string, CachedFile>
    /** The text of MEDIA_DIR/current_playlist.m3u. */
    var manifest: string
    var effects: seq<Effect>
    const mediaDir: string

    /** Playlist and single-media assignments are exclusive. */
    ghost predicate Valid()
      reads this
    {
      !(currentPlaylist.Some? && currentMedia.Held?) && StartsWith(mediaDir, "/")
    }

    constructor (mediaDir: string, files: map<string, CachedFile>)
      requires StartsWith(mediaDir, "/")
      ensures Valid()
      ensures this.mediaDir == mediaDir && this.files == files
      ensures currentPlaylist == None && currentMedia == Unset && currentMediaIndex == 0
      ensures currentProcess == None && effects == [] && manifest == ""
    {
      this.mediaDir := mediaDir;
      this.files := files;
      currentPlaylist := None;
      currentMedia := Unset;
      currentMediaIndex := 0;
      currentProcess := None;
      manifest := "";
      effects := [];
    }

    /** stop_current_media; `graceful` says whether the process exits within the 3 s wait. */
    method StopCurrentMedia(graceful: bool)
      modifies this`currentProcess, this`effects
      ensures currentProcess == None
      ensures effects == old(effects) + StopEffects(old(currentProcess).Some?, graceful)
    {
      if currentProcess.Some? {
        effects := effects + [Terminate, WaitFor(StopTimeout)];
        if !graceful {
          effects := effects + [Kill, WaitUntilExit];
        }
        currentProcess := None;
      }
    }

    /** monitor_playback; `exited` is what `poll()` reports for the held process. */
    method MonitorPlayback(exited: bool) returns (restart: bool)
      modifies this`currentProcess
      ensures restart <==> old(currentProcess).Some? && exited
      ensures currentProcess == if restart then None else old(currentProcess)
    {
      restart := false;
      if currentProcess.Some? && exited {
        currentProcess := None;
        restart := true;
      }
    }

    /** execute_command: `reboot` stops the player and calls reboot; anything else is ignored. */
    method ExecuteCommand(command: string, graceful: bool, rebootError: Option<string>)
      modifies this`currentProcess, this`effects
      ensures command == "reboot" ==> currentProcess == None
      ensures command == "reboot" ==> effects == old(effects) + StopEffects(old(currentProcess).Some?, graceful) + CommandEffects(command, rebootError)
      ensures command != "reboot" ==> currentProcess == old(currentProcess) && effects == old(effects)
    {
      if command == "reboot" {
        StopCurrentMedia(graceful);
        effects := effects + CommandEffects(command, rebootError);
      }
    }

    /** fetch_content: replace the assignment when the server's differs; the index restarts at 0. */
    method FetchContent(reply: ContentReply, graceful: bool) returns (updated: bool)
      requires Valid()
      modifies this`currentPlaylist, this`currentMedia, this`currentMediaIndex, this`currentProcess, this`effects
      ensures Valid()
      ensures updated == ContentChanges(reply, old(currentPlaylist), old(currentMedia))
      ensures updated ==> (currentPlaylist, currentMedia) == Installed(reply) && currentMediaIndex == 0 && currentProcess == None
      ensures updated ==> effects == old(effects) + [ContentRequest] + StopEffects(old(currentProcess).Some?, graceful)
      ensures !updated ==> currentPlaylist == old(currentPlaylist) && currentMedia == old(currentMedia)
                           && currentMediaIndex == old(currentMediaIndex) && currentProcess == old(currentProcess)
                           && effects == old(effects) + [ContentRequest]
    {
      effects := effects + [ContentRequest];
      updated := false;
      if reply.ContentBody? {
        if reply.playlist.Some? {
          if reply.playlist != currentPlaylist {
            StopCurrentMedia(graceful);
            currentPlaylist := reply.playlist;
            currentMedia := Cleared;
            currentMediaIndex := 0;
            updated := true;
          }
        } else if reply.media.Some? {
          if currentMedia != Held(reply.media.value) {
            StopCurrentMedia(graceful);
            currentPlaylist := None;
            currentMedia := Held(reply.media.value);
            currentMediaIndex := 0;
            updated := true;
          }
        } else if currentPlaylist.Some? || currentMedia != Unset {
          StopCurrentMedia(graceful);
          currentPlaylist := None;
          currentMedia := Cleared;
          currentMediaIndex := 0;
          updated := true;
        }
      }
    }

    /**
     * check_playlist_status: a `command` key in the reply (even a null one)
     * is handed to execute_command and ends the check; otherwise a change
     * detected by the comparison as written, DetectChange, stops the player
     * before the content is fetched. A failed comparison (`current_media` is
     * None) returns false with nothing stopped or fetched.
     */
    method CheckPlaylistStatus(status: StatusReply, graceful: bool, rebootError: Option<string>, content: ContentReply)
      returns (r: bool)
      requires Valid()
      modifies this`currentPlaylist, this`currentMedia, this`currentMediaIndex, this`currentProcess, this`effects
      ensures Valid()
      ensures !status.StatusBody? ==> !r && effects == old(effects) && currentProcess == old(currentProcess)
                                      && currentPlaylist == old(currentPlaylist) && currentMedia == old(currentMedia)
                                      && currentMediaIndex == old(currentMediaIndex)
      ensures status.StatusBody? && !status.command.Absent? ==>
                r && currentPlaylist == old(currentPlaylist) && currentMedia == old(currentMedia)
                && currentMediaIndex == old(currentMediaIndex)
      ensures status.StatusBody? && status.command == Val("reboot") ==>
                currentProcess == None
                && effects == old(effects) + StopEffects(old(currentProcess).Some?, graceful) + CommandEffects("reboot", rebootError)
      ensures status.StatusBody? && !status.command.Absent? && status.command != Val("reboot") ==>
                currentProcess == old(currentProcess) && effects == old(effects)
      ensures status.StatusBody? && status.command.Absent? &&
              DetectChange(old(currentPlaylist), old(currentMedia), status.playlistId, status.mediaId, status.lastUpdated) != Changed ==>
                !r && effects == old(effects) && currentProcess == old(currentProcess)
                && currentPlaylist == old(currentPlaylist) && currentMedia == old(currentMedia)
                && currentMediaIndex == old(currentMediaIndex)
      ensures status.StatusBody? && status.command.Absent? &&
              DetectChange(old(currentPlaylist), old(currentMedia), status.playlistId, status.mediaId, status.lastUpdated) == Changed ==>
                r == ContentChanges(content, old(currentPlaylist), old(currentMedia))
                && effects == old(effects) + StopEffects(old(currentProcess).Some?, graceful) + [ContentRequest]
                && currentProcess == None
                && (r ==> (currentPlaylist, currentMedia) == Installed(content) && currentMediaIndex == 0)
                && (!r ==> currentPlaylist == old(currentPlaylist) && currentMedia == old(currentMedia)
                           && currentMediaIndex == old(currentMediaIndex))
    {
      r := false;
      if status.StatusBody? {
        if !status.command.Absent? {
          if status.command.Val? {
            ExecuteCommand(status.command.value, graceful, rebootError);
          }
          r := true;
        } else {
          var d := DetectChange(currentPlaylist, currentMedia, status.playlistId, status.mediaId, status.lastUpdated);
          if d == Changed {
            StopCurrentMedia(graceful);
            r := FetchContent(content, graceful);
          }
        }
      }
    }

    /** download_media over a list of items: skip present files of the announced size, fetch the rest. */
    method DownloadMedia(items: seq<Item>, fetches: seq<Fetch>, now: int) returns (completed: bool)
      modifies this`files, this`effects
      ensures Sweep(files, effects, completed) == DownloadFrom(Sweep(old(files), old(effects), true), items, fetches, 0, now)
    {
      var i := 0;
      completed := true;
      while i < |items|
        invariant 0 <= i <= |items|
        invariant completed
        invariant DownloadFrom(Sweep(files, effects, true), items, fetches, i, now)
                  == DownloadFrom(Sweep(old(files), old(effects), true), items, fetches, 0, now)
      {
        var item := items[i];
        if item.filename.None? {
          completed := false;
          return;
        }
        var name := item.filename.value;
        if !SkipsDownload(files, name, item) {
          effects := effects + [Download(name)];
          files := AfterFetch(files, name, FetchAt(fetches, i), now);
        }
        i := i + 1;
      }
    }

    /**
     * start_vlc_continuous_playlist: always stop the held process first, then
     * launch VLC on the manifest; `launchOk` is whether Popen succeeds.
     */
    method StartVlcContinuousPlaylist(graceful: bool, launchOk: bool) returns (ok: bool)
      requires Valid()
      modifies this`currentProcess, this`effects
      ensures ok == launchOk
      ensures var argv := VlcArgv(LocalPath(mediaDir, ManifestName), LocalPath(mediaDir, DebugLogName));
              effects == old(effects) + StopEffects(old(currentProcess).Some?, graceful) + (if launchOk then [Spawn(argv)] else [])
              && currentProcess == (if launchOk then Some(Handle(argv, false)) else None)
    {
      StopCurrentMedia(graceful);
      if launchOk {
        var argv := VlcArgv(LocalPath(mediaDir, ManifestName), LocalPath(mediaDir, DebugLogName));
        effects := effects + [Spawn(argv)];
        currentProcess := Some(Handle(argv, false));
        ok := true;
      } else {
        ok := false;
      }
    }

    /** The loop of lines 439-450 writing one manifest line group per item. */
    method WriteManifestBody(items: seq<Item>) returns (lines: seq<string>, named: bool)
      ensures (lines, named) == ManifestBody(mediaDir, items, files)
    {
      lines := [];
      var i := 0;
      while i < |items|
        invariant 0 <= i <= |items|
        invariant (lines, true) == ManifestBody(mediaDir, items[..i], files)
      {
        assert items[..i + 1][..i] == items[..i];
        if items[i].filename.None? {
          named := false;
          MissingNameAbandons(mediaDir, items, i, files);
          return;
        }
        lines := lines + EntryLines(mediaDir, items[i].filename.value, files);
        i := i + 1;
      }
      assert items[..i] == items;
      named := true;
    }

    /**
     * create_and_play_vlc_playlist: write `#EXTM3U` and the item lines, count
     * the media lines read back, and launch only when there is at least one.
     */
    method CreateAndPlayVlcPlaylist(items: seq<Item>, graceful: bool, launchOk: bool) returns (ok: bool)
      requires Valid()
      modifies this`manifest, this`currentProcess, this`effects
      ensures Valid()
      ensures !ManifestBody(mediaDir, items, files).1 ==> !ok && effects == old(effects) && currentProcess == old(currentProcess)
      // the file is truncated and written line by line, so an unnamed item leaves the lines before it
      ensures manifest == M3U.Text([M3U.Header] + ManifestBody(mediaDir, items, files).0)
      ensures ManifestBody(mediaDir, items, files).1 && M3U.MediaCount(manifest) == 0 ==>
                !ok && effects == old(effects) && currentProcess == old(currentProcess)
      ensures ManifestBody(mediaDir, items, files).1 && M3U.MediaCount(manifest) > 0 ==>
                ok == launchOk
                && effects == old(effects) + StopEffects(old(currentProcess).Some?, graceful)
                     + (if launchOk then [Spawn(VlcArgv(LocalPath(mediaDir, ManifestName), LocalPath(mediaDir, DebugLogName)))] else [])
                && currentProcess == (if launchOk then Some(Handle(VlcArgv(LocalPath(mediaDir, ManifestName), LocalPath(mediaDir, DebugLogName)), false)) else None)
      // with newline-free names, the player is launched only if some item's file is cached
      ensures '\n' !in mediaDir && NamesWithoutNewlines(items) && ok ==> |PresentPaths(mediaDir, items, files)| > 0
    {
      var body, named := WriteManifestBody(items);
      manifest := M3U.Text([M3U.Header] + body);
      if !named {
        ok := false;
        return;
      }
      var count := M3U.MediaCount(manifest);
      if '\n' !in mediaDir && NamesWithoutNewlines(items) {
        ManifestCount(mediaDir, items, files);
      }
      if count == 0 {
        ok := false;
        return;
      }
      ok := StartVlcContinuousPlaylist(graceful, launchOk);
    }
  }

  /** After the first item without a `filename`, the manifest keeps the lines written before it. */
  lemma {:induction false} MissingNameAbandons(dir: string, items: seq<Item>, j: nat, files: map<string, CachedFile>)
    requires j < |items| && items[j].filename.None?
    ensures ManifestBody(dir, items, files) == (ManifestBody(dir, items[..j], files).0, false)
    decreases |items|
  {
    var front := items[..|items| - 1];
    if j == |items| - 1 {
      assert front == items[..j];
    } else {
      MissingNameAbandons(dir, front, j, files);
      assert front[..j] == items[..j];
    }
  }
}
