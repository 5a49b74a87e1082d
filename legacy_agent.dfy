// client_agent.py: the first revision. It plays the playlist one item at a
// time with the first media player it finds, advancing an index, and evicts
// stale files from the media cache.
module LegacyAgent {
  import opened Common
  import opened Content
  import opened Effects
  import opened Cache

  /** PLAYER_COMMANDS's keys, in the order detect_media_player tries them. */
  const PlayerNames: seq<string> := ["omxplayer", "vlc", "ffplay"]
  const StopTimeout: int := 5
  /** Files modified within this many seconds are kept by the cleanup. */
  const EvictionAge: int := 86400
  /** The duration used when neither the item nor the playlist gives one. */
  const FallbackDuration: int := 10

  /** PLAYER_COMMANDS[player] followed by the media path. */
  function PlayerArgv(player: string, path: string): seq<string>
  {
    (if player == "omxplayer" then ["omxplayer", "-o", "hdmi", "--loop", "--no-osd"]
     else if player == "vlc" then ["vlc", "--fullscreen", "--no-osd", "--loop", "--intf", "dummy", "--no-video-title-show"]
     else ["ffplay", "-fs", "-loop", "0", "-loglevel", "quiet"]) + [path]
  }

  /**
   * detect_media_player: the first player whose `--version` probe runs;
   * `runs` is the set of players whose binary starts and answers in time.
   */
  method DetectMediaPlayer(runs: set<string>) returns (player: Option<string>)
    ensures player.Some? ==> exists k :: 0 <= k < |PlayerNames| && PlayerNames[k] == player.value
                                      && player.value in runs
                                      && forall j :: 0 <= j < k ==> PlayerNames[j] !in runs
    ensures player.None? <==> forall k :: 0 <= k < |PlayerNames| ==> PlayerNames[k] !in runs
  {
    var i := 0;
    while i < |PlayerNames|
      invariant 0 <= i <= |PlayerNames|
      invariant forall j :: 0 <= j < i ==> PlayerNames[j] !in runs
    {
      if PlayerNames[i] in runs {
        return Some(PlayerNames[i]);
      }
      i := i + 1;
    }
    return None;
  }

  /** `playlist.get('loop', True)` as a condition: missing means loop, null means stop. */
  predicate Loops(loop: Field<bool>)
  {
    loop.Absent? || (loop.Val? && loop.value)
  }

  /**
   * The position play_playlist plays from index `index` in a playlist of
   * `count` items: the index itself while inside, 0 after the end of a
   * looping playlist, and nothing after the end of one that does not loop.
   */
  function Position(index: nat, count: nat, loop: Field<bool>): (r: Option<nat>)
    ensures r.Some? ==> r.value < count || count == 0
    ensures index < count ==> r == Some(index)
    ensures index >= count ==> (r.Some? <==> Loops(loop)) && (r.Some? ==> r.value == 0)
  {
    if index < count then Some(index)
    else if Loops(loop) then Some(0)
    else None
  }

  /** The index after `t` plays from 0, every play advancing the index by one. */
  function IndexAfter(t: nat, count: nat, loop: Field<bool>): nat
  {
    if t == 0 then 0
    else
      var before := IndexAfter(t - 1, count, loop);
      match Position(before, count, loop)
      case Some(p) => p + 1
      case None => before
  }

  /** Until the end is reached, the t-th play is item t, whether or not the playlist loops. */
  lemma {:induction false} FirstPass(t: nat, count: nat, loop: Field<bool>)
    requires t <= count
    ensures IndexAfter(t, count, loop) == t
  {
    if t > 0 {
      FirstPass(t - 1, count, loop);
    }
  }

  /** In a looping playlist every play has a position, and the next index follows it. */
  lemma LoopStep(t: nat, count: nat, loop: Field<bool>)
    requires Loops(loop)
    ensures Position(IndexAfter(t, count, loop), count, loop).Some?
    ensures IndexAfter(t + 1, count, loop) == Position(IndexAfter(t, count, loop), count, loop).value + 1
  {
  }

  /**
   * A looping playlist is played round-robin: after the first play the index
   * repeats with period `count`, so the items come round in order for ever.
   */
  lemma {:induction false} RoundRobin(t: nat, count: nat, loop: Field<bool>)
    requires count > 0 && Loops(loop)
    ensures Position(IndexAfter(t + count, count, loop), count, loop) == Position(IndexAfter(t, count, loop), count, loop)
    ensures t >= 1 ==> IndexAfter(t + count, count, loop) == IndexAfter(t, count, loop)
  {
    FirstPass(count, count, loop);
    if t == 1 {
      FirstPass(1, count, loop);
      LoopStep(count, count, loop);
    } else if t > 1 {
      RoundRobin(t - 1, count, loop);
      LoopStep(t - 1 + count, count, loop);
      LoopStep(t - 1, count, loop);
    }
  }

  /** A playlist that does not loop plays each item once and then plays nothing, for ever. */
  lemma {:induction false} PlaysOnceWithoutLoop(t: nat, count: nat, loop: Field<bool>)
    requires !Loops(loop)
    ensures IndexAfter(t, count, loop) == if t <= count then t else count
    ensures t < count ==> Position(IndexAfter(t, count, loop), count, loop) == Some(t)
    ensures t >= count ==> Position(IndexAfter(t, count, loop), count, loop).None?
  {
    if t > 0 {
      PlaysOnceWithoutLoop(t - 1, count, loop);
    }
  }

  /**
   * `media_item.get('duration', playlist.get('default_duration', 10))`:
   * None stands for a JSON null.
   */
  function Duration(item: Item, playlist: Playlist): (d: Option<int>)
    ensures item.duration.Val? ==> d == Some(item.duration.value)
    ensures item.duration.Null? ==> d.None?
    ensures item.duration.Absent? && playlist.defaultDuration.Val? ==> d == Some(playlist.defaultDuration.value)
    ensures item.duration.Absent? && playlist.defaultDuration.Null? ==> d.None?
    ensures item.duration.Absent? && playlist.defaultDuration.Absent? ==> d == Some(FallbackDuration)
  {
    match item.duration
    case Val(v) => Some(v)
    case Null => None
    case Absent =>
      match playlist.defaultDuration
      case Val(v) => Some(v)
      case Null => None
      case Absent => Some(FallbackDuration)
  }

  /** play_media's `if duration:` — a bounded wait only for a non-zero duration. */
  function WaitBound(d: Option<int>): (w: Option<int>)
    ensures w.Some? <==> TruthyId(d)
    ensures w.Some? ==> w == d
  {
    if TruthyId(d) then d else None
  }

  /** stop_current_media: only a process that is still running is terminated (and killed after 5 s). */
  function StopEffects(held: Option<Handle>, graceful: bool): (e: seq<Effect>)
    ensures e != [] <==> held.Some? && !held.value.reaped
    ensures e != [] ==> |e| >= 2 && e[0] == Terminate && e[1] == WaitFor(StopTimeout)
    ensures Kill in e <==> held.Some? && !held.value.reaped && !graceful
  {
    if held.None? || held.value.reaped then []
    else [Terminate, WaitFor(StopTimeout)] + (if graceful then [] else [Kill, WaitUntilExit])
  }

  /** The handle after stop_current_media: kept, and no longer running. */
  function Stopped(held: Option<Handle>): Option<Handle>
  {
    if held.Some? then Some(Handle(held.value.argv, true)) else None
  }

  /**
   * The waits of play_media after the player started: with a bound, wait that
   * long and terminate the player unless it ended first; otherwise wait for
   * its exit.
   */
  function WaitEffects(bound: Option<int>, endsEarly: bool): (e: seq<Effect>)
    ensures (e != [] && e[|e| - 1] == WaitUntilExit) || (bound.Some? && endsEarly && e == [WaitFor(bound.value)])
    ensures bound.None? ==> e == [WaitUntilExit]
    // a bounded wait comes first; the player is terminated exactly when it outlives it
    ensures bound.Some? ==> e[0] == WaitFor(bound.value) && (|e| > 1 <==> !endsEarly) && (!endsEarly ==> e[1] == Terminate)
  {
    if bound.None? then [WaitUntilExit]
    else [WaitFor(bound.value)] + (if endsEarly then [] else [Terminate, WaitUntilExit])
  }

  /**
   * What play_media does to the world: nothing without a player; otherwise
   * stop the current player, then, when Popen succeeds, start the new one and
   * wait as WaitEffects says.
   */
  function PlayEffects(player: Option<string>, held: Option<Handle>, path: string, duration: Option<int>,
                       graceful: bool, launchOk: bool, endsEarly: bool): seq<Effect>
  {
    if player.None? then []
    else StopEffects(held, graceful)
         + (if launchOk then [Spawn(PlayerArgv(player.value, path))] + WaitEffects(WaitBound(duration), endsEarly) else [])
  }

  /** The player handle play_media leaves: the new, waited-for process, or the stopped old one. */
  function PlayedProcess(player: Option<string>, held: Option<Handle>, path: string, launchOk: bool): (h: Option<Handle>)
    ensures player.None? ==> h == held
    ensures h.Some? ==> h.value.reaped || h == held
  {
    if player.None? then held
    else if launchOk then Some(Handle(PlayerArgv(player.value, path), true))
    else Stopped(held)
  }

  /** The result of download_media: the KeyError of a missing `filename`, a path, or None. */
  datatype Resolved = NoFilename | LocalFile(path: string) | NotFetched

  /** One call of download_media, with the directory after it and the requests made. */
  datatype Lookup = Lookup(result: Resolved, files: map<string, CachedFile>, log: seq<Effect>)

  /**
   * download_media. The empty name joins to the directory itself, which
   * exists; a missing `url` raises inside the handler, before any request.
   */
  function Resolve(dir: string, files: map<string, CachedFile>, item: Item, fetch: Fetch, now: int): (r: Lookup)
    ensures item.filename.None? <==> r.result.NoFilename?
    ensures r.result.LocalFile? ==> r.result.path == LocalPath(dir, item.filename.value)
    ensures (item.filename.Some? && (item.filename.value == "" || item.filename.value in files)) ==>
              r == Lookup(LocalFile(LocalPath(dir, item.filename.value)), files, [])
    ensures (item.filename.Some? && item.filename.value != "" && item.filename.value !in files && item.url.Some?) ==>
              r.log == [Effects.Download(item.filename.value)]
              && r.files == AfterFetch(files, item.filename.value, fetch, now)
              && (r.result.LocalFile? <==> fetch.Fetched?)
    ensures r.log == [] ==> r.files == files
    ensures forall n :: n in files ==> n in r.files && r.files[n] == files[n]
  {
    if item.filename.None? then Lookup(NoFilename, files, [])
    else
      var name := item.filename.value;
      var path := LocalPath(dir, name);
      if name == "" || name in files then Lookup(LocalFile(path), files, [])
      else if item.url.None? then Lookup(NotFetched, files, [])
      else Lookup(if fetch.Fetched? then LocalFile(path) else NotFetched,
                    AfterFetch(files, name, fetch, now), [Effects.Download(name)])
  }

  /** A cached file is returned again by every later call, with no request. */
  lemma ResolveCachedStable(dir: string, files: map<string, CachedFile>, item: Item, f1: Fetch, f2: Fetch, t1: int, t2: int)
    requires Resolve(dir, files, item, f1, t1).result.LocalFile?
    ensures var r := Resolve(dir, files, item, f1, t1);
            Resolve(dir, r.files, item, f2, t2) == Lookup(r.result, r.files, [])
  {
  }

  /** The names cleanup_old_media keeps regardless of age, or None when an item has no `filename`. */
  function Referenced(playlist: Option<Playlist>): (r: Option<set<string>>)
    ensures r.None? <==> playlist.Some? && exists k :: 0 <= k < |playlist.value.items| && playlist.value.items[k].filename.None?
    ensures r.Some? ==> forall n :: n in r.value <==> playlist.Some? && exists k :: 0 <= k < |playlist.value.items| && playlist.value.items[k].filename == Some(n)
  {
    if playlist.None? then Some({})
    else if exists k :: 0 <= k < |playlist.value.items| && playlist.value.items[k].filename.None? then None
    else Some(set k | 0 <= k < |playlist.value.items| :: playlist.value.items[k].filename.value)
  }

  /** A file the cleanup removes: not referenced and last modified more than a day before `now`. */
  predicate Stale(files: map<string, CachedFile>, keep: set<string>, now: int, n: string)
    requires n in files
  {
    n !in keep && files[n].mtime < now - EvictionAge
  }

  /** The directory after a cleanup at `now` that keeps `keep`. */
  function Evicted(files: map<string, CachedFile>, keep: set<string>, now: int): (r: map<string, CachedFile>)
    ensures forall n :: n in r <==> n in files && !Stale(files, keep, now, n)
    ensures forall n :: n in r ==> r[n] == files[n]
  {
    map n | n in files && !Stale(files, keep, now, n) :: files[n]
  }

  /** Referenced files and files younger than a day survive every cleanup. */
  lemma EvictionKeeps(files: map<string, CachedFile>, keep: set<string>, now: int, n: string)
    requires n in files && (n in keep || files[n].mtime >= now - EvictionAge)
    ensures n in Evicted(files, keep, now) && Evicted(files, keep, now)[n] == files[n]
  {
  }

  /** A second cleanup at the same time removes nothing more. */
  lemma EvictionIdempotent(files: map<string, CachedFile>, keep: set<string>, now: int)
    ensures Evicted(Evicted(files, keep, now), keep, now) == Evicted(files, keep, now)
  {
    var once := Evicted(files, keep, now);
    assert forall n :: n in once ==> !Stale(once, keep, now, n);
  }

  /** A file fetched now by download_media is not evicted by a cleanup at the same time. */
  lemma FreshDownloadSurvives(dir: string, files: map<string, CachedFile>, item: Item, size: nat, now: int, keep: set<string>)
    requires item.filename.Some? && item.filename.value != "" && item.filename.value !in files && item.url.Some?
    ensures var r := Resolve(dir, files, item, Fetched(size), now);
            item.filename.value in Evicted(r.files, keep, now)
  {
  }

  /** The reply of GET /playlist. */
  datatype PlaylistReply = PlaylistUnavailable | PlaylistMalformed | PlaylistBody(playlist: Option<Playlist>)

  /** What one call of play_playlist did. */
  datatype Step =
    | Idle             // no playlist, or no items
    | Finished         // past the end of a playlist that does not loop
    | Raised           // the item has no `filename`: the KeyError leaves play_playlist
    | Played(ok: bool) // play_media was called and returned `ok`
    | Unavailable      // download_media returned None

  class LegacyClient {
    var currentPlaylist: Option<Playlist>
    var currentMediaIndex: nat
    var currentProcess: Option<Handle>
    /** The media directory MEDIA_DIR: file name to size and mtime. */
    var files: map<string, CachedFile>
    var effects: seq<Effect>
    const mediaDir: string
    /** detect_media_player's answer. */
    const mediaPlayer: Option<string>

    constructor (mediaDir: string, runs: set<string>, files: map<string, CachedFile>)
      ensures this.mediaDir == mediaDir && this.files == files
      ensures mediaPlayer.Some? ==> exists k :: 0 <= k < |PlayerNames| && PlayerNames[k] == mediaPlayer.value
                                            && mediaPlayer.value in runs
                                            && forall j :: 0 <= j < k ==> PlayerNames[j] !in runs
      ensures mediaPlayer.None? <==> forall k :: 0 <= k < |PlayerNames| ==> PlayerNames[k] !in runs
      ensures currentPlaylist == None && currentMediaIndex == 0 && currentProcess == None && effects == []
    {
      this.mediaDir := mediaDir;
      this.files := files;
      var player := DetectMediaPlayer(runs);
      mediaPlayer := player;
      currentPlaylist := None;
      currentMediaIndex := 0;
      currentProcess := None;
      effects := [];
    }

    /**
     * send_checkin: the `current_media` member of the heartbeat, the original
     * name of the item at the play index when that index is inside the playlist.
     */
    method SendCheckin() returns (currentMedia: Option<string>)
      ensures currentMedia == CurrentMediaName(currentPlaylist, currentMediaIndex)
    {
      currentMedia := None;
      if currentPlaylist.Some? && |currentPlaylist.value.items| > 0 {
        var items := currentPlaylist.value.items;
        if currentMediaIndex < |items| {
          currentMedia := Some(items[currentMediaIndex].originalFilename);
        }
      }
    }

    /** fetch_playlist: replace the playlist and restart the index when the server's differs. */
    method FetchPlaylist(reply: PlaylistReply) returns (updated: bool)
      modifies this`currentPlaylist, this`currentMediaIndex, this`effects
      ensures updated <==> reply.PlaylistBody? && reply.playlist != old(currentPlaylist)
      ensures updated ==> currentPlaylist == reply.playlist && currentMediaIndex == 0
      ensures !updated ==> currentPlaylist == old(currentPlaylist) && currentMediaIndex == old(currentMediaIndex)
      ensures effects == old(effects) + [ContentRequest]
    {
      effects := effects + [ContentRequest];
      updated := false;
      if reply.PlaylistBody? && reply.playlist != currentPlaylist {
        currentPlaylist := reply.playlist;
        currentMediaIndex := 0;
        updated := true;
      }
    }

    /** stop_current_media: terminate a running player, kill it when it outlives the 5 s wait. */
    method StopCurrentMedia(graceful: bool)
      modifies this`currentProcess, this`effects
      ensures currentProcess == Stopped(old(currentProcess))
      ensures effects == old(effects) + StopEffects(old(currentProcess), graceful)
    {
      if currentProcess.Some? && !currentProcess.value.reaped {
        effects := effects + [Terminate, WaitFor(StopTimeout)];
        if !graceful {
          effects := effects + [Kill, WaitUntilExit];
        }
      }
      if currentProcess.Some? {
        currentProcess := Some(Handle(currentProcess.value.argv, true));
      }
    }

    /** download_media for one item. */
    method DownloadMedia(item: Item, fetch: Fetch, now: int) returns (result: Resolved)
      modifies this`files, this`effects
      ensures var r := Resolve(mediaDir, old(files), item, fetch, now);
              result == r.result && files == r.files && effects == old(effects) + r.log
    {
      if item.filename.None? {
        return NoFilename;
      }
      var name := item.filename.value;
      var path := LocalPath(mediaDir, name);
      if name == "" || name in files {
        return LocalFile(path);
      }
      if item.url.None? {
        return NotFetched;
      }
      effects := effects + [Effects.Download(name)];
      files := AfterFetch(files, name, fetch, now);
      result := if fetch.Fetched? then LocalFile(path) else NotFetched;
    }

    /**
     * play_media: with a player, stop the current one, start the new one and
     * wait. `launchOk` is whether Popen succeeds, `endsEarly` whether the
     * player exits within the duration.
     */
    method PlayMedia(path: string, duration: Option<int>, graceful: bool, launchOk: bool, endsEarly: bool) returns (ok: bool)
      modifies this`currentProcess, this`effects
      ensures ok <==> mediaPlayer.Some? && launchOk
      ensures effects == old(effects) + PlayEffects(mediaPlayer, old(currentProcess), path, duration, graceful, launchOk, endsEarly)
      ensures currentProcess == PlayedProcess(mediaPlayer, old(currentProcess), path, launchOk)
    {
      if mediaPlayer.None? {
        return false;
      }
      var argv := PlayerArgv(mediaPlayer.value, path);
      StopCurrentMedia(graceful);
      if !launchOk {
        return false;
      }
      currentProcess := Some(Handle(argv, false));
      effects := effects + ([Spawn(argv)] + WaitEffects(WaitBound(duration), endsEarly));
      currentProcess := Some(Handle(argv, true));
      ok := true;
    }

    /**
     * play_playlist: wrap or stop at the end, resolve the item at the index,
     * play it, and advance the index by one whether or not it played.
     */
    method PlayPlaylist(fetch: Fetch, now: int, graceful: bool, launchOk: bool, endsEarly: bool) returns (step: Step)
      modifies this`currentMediaIndex, this`currentProcess, this`files, this`effects
      ensures (currentPlaylist.None? || currentPlaylist.value.items == []) ==>
                step == Idle && currentMediaIndex == old(currentMediaIndex) && files == old(files) && effects == old(effects)
                && currentProcess == old(currentProcess)
      ensures (currentPlaylist.Some? && currentPlaylist.value.items != []) ==>
                var items := currentPlaylist.value.items;
                var pos := Position(old(currentMediaIndex), |items|, currentPlaylist.value.loop);
                (pos.None? ==> step == Finished && currentMediaIndex == old(currentMediaIndex)
                               && files == old(files) && effects == old(effects) && currentProcess == old(currentProcess))
                && (pos.Some? ==>
                      var item := items[pos.value];
                      var r := Resolve(mediaDir, old(files), item, fetch, now);
                      files == r.files
                      && (r.result.NoFilename? ==>
                            step == Raised && currentMediaIndex == pos.value
                            && effects == old(effects) + r.log && currentProcess == old(currentProcess))
                      && (r.result.NotFetched? ==>
                            step == Unavailable && currentMediaIndex == pos.value + 1 && currentProcess == old(currentProcess)
                            && effects == old(effects) + r.log + [SendLog("error", "Failed to download: " + item.originalFilename)])
                      && (r.result.LocalFile? ==>
                            var played := mediaPlayer.Some? && launchOk;
                            step == Played(played) && currentMediaIndex == pos.value + 1
                            && effects == old(effects) + r.log
                                 + PlayEffects(mediaPlayer, old(currentProcess), r.result.path, Duration(item, currentPlaylist.value),
                                               graceful, launchOk, endsEarly)
                                 + (if played then [] else [SendLog("error", "Failed to play: " + item.originalFilename)])
                            && currentProcess == PlayedProcess(mediaPlayer, old(currentProcess), r.result.path, launchOk)))
    {
      if currentPlaylist.None? || currentPlaylist.value.items == [] {
        return Idle;
      }
      var playlist := currentPlaylist.value;
      var items := playlist.items;
      if currentMediaIndex >= |items| {
        if Loops(playlist.loop) {
          currentMediaIndex := 0;
        } else {
          return Finished;
        }
      }
      var item := items[currentMediaIndex];
      var result := DownloadMedia(item, fetch, now);
      match result
      case NoFilename =>
        step := Raised;
      case LocalFile(path) =>
        var ok := PlayMedia(path, Duration(item, playlist), graceful, launchOk, endsEarly);
        if !ok {
          effects := effects + [SendLog("error", "Failed to play: " + item.originalFilename)];
        }
        currentMediaIndex := currentMediaIndex + 1;
        step := Played(ok);
      case NotFetched =>
        effects := effects + [SendLog("error", "Failed to download: " + item.originalFilename)];
        currentMediaIndex := currentMediaIndex + 1;
        step := Unavailable;
    }

    /**
     * cleanup_old_media at time `now`: remove every file of the directory that
     * no current item names and that is more than a day old; an item without
     * a `filename` aborts the cleanup before anything is removed.
     */
    method CleanupOldMedia(now: int)
      modifies this`files
      ensures Referenced(currentPlaylist).None? ==> files == old(files)
      ensures Referenced(currentPlaylist).Some? ==> files == Evicted(old(files), Referenced(currentPlaylist).value, now)
    {
      var keep := Referenced(currentPlaylist);
      if keep.None? {
        return;
      }
      var listing := files.Keys;
      ghost var start := files;
      while listing != {}
        invariant listing <= start.Keys
        invariant forall n :: n in files <==> n in start && (n in listing || !Stale(start, keep.value, now, n))
        invariant forall n :: n in files ==> files[n] == start[n]
        decreases listing
      {
        var name :| name in listing;
        if name !in keep.value && files[name].mtime < now - EvictionAge {
          files := map n | n in files && n != name :: files[n];
        }
        listing := listing - {name};
      }
      assert files == Evicted(start, keep.value, now);
    }
  }
}
