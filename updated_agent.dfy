// client_agent_updated.py: the revision that reports the TeamViewer ID,
// plays stream items by URL, plays a single item directly and several items
// through a VLC manifest, and waits for the player to exit.
module UpdatedAgent {
  import opened Common
  import opened Content
  import opened Effects
  import opened Cache
  import M3U

  const StopTimeout: int := 5
  const ManifestName: string := "current_playlist.m3u"
  /** The text `teamviewer --info` prints before the ID, and the marker get_teamviewer_id looks for. */
  const TeamViewerLabel: string := "TeamViewer ID"
  const TeamViewerMarker: string := TeamViewerLabel + [':']
  /** The URL schemes download_media accepts for a stream item. */
  const StreamSchemes: seq<string> := ["http://", "https://", "rtmp://", "rtmps://", "rtsp://"]
  /**
   * The prefixes play_continuous_playlist writes into the manifest without
   * change; rtmps:// is missing (see RtmpsStreamMangled). StreamSchemes is
   * the list it evidently means (see StreamWrittenVerbatimIntended).
   */
  const VerbatimPrefixes: seq<string> := ["http://", "https://", "rtmp://", "rtsp://"]
  const ImageExtensions: seq<string> := [".jpg", ".jpeg", ".png", ".webp", ".gif", ".bmp"]
  /** PLAYER_COMMANDS['vlc']. */
  const VlcBase: seq<string> := ["vlc", "--fullscreen", "--no-osd", "--loop", "--no-video-title-show", "--qt-minimal-view", "--no-qt-privacy-ask"]
  /** The options appended for manifest playback. */
  const PlaylistOptions: seq<string> := ["--loop", "--image-duration", "10", "--playlist-autostart", "--no-random", "--intf", "dummy"]

  // ---------------------------------------------------------------- TeamViewer ID

  /** The outcome of `teamviewer --info`: it could not be run (missing, timeout), or its exit code and output. */
  datatype Probe = ProbeFailed | ProbeRan(returnCode: int, stdout: string)

  /** The text after the last ':' of a line, stripped. */
  function Candidate(line: string): string
  {
    var parts := Split(line, ':');
    Strip(parts[|parts| - 1])
  }

  /** A line mentioning the marker whose candidate is a non-empty digit string. */
  predicate Qualifies(line: string)
  {
    Contains(line, TeamViewerMarker) && IsDigits(Candidate(line))
  }

  /** The candidate of the first qualifying line. */
  function FirstId(lines: seq<string>): (r: Option<string>)
    ensures r.None? <==> forall k :: 0 <= k < |lines| ==> !Qualifies(lines[k])
    ensures r.Some? ==> IsDigits(r.value)
    ensures r.Some? ==> exists k :: 0 <= k < |lines| && Qualifies(lines[k]) && r.value == Candidate(lines[k])
                                    && forall j :: 0 <= j < k ==> !Qualifies(lines[j])
  {
    match FirstWhere(lines, Qualifies)
    case None => None
    case Some(k) => Some(Candidate(lines[k]))
  }

  /** get_teamviewer_id: only a successful run is parsed, line by line. */
  function TeamViewerId(probe: Probe): (r: Option<string>)
    ensures probe.ProbeFailed? || probe.returnCode != 0 ==> r.None?
    ensures probe.ProbeRan? && probe.returnCode == 0 ==> r == FirstId(Split(probe.stdout, '\n'))
    ensures r.Some? ==> IsDigits(r.value)
  {
    if probe.ProbeRan? && probe.returnCode == 0 then FirstId(Split(probe.stdout, '\n')) else None
  }

  /** A digit string has no separator, no newline, and no surrounding space. */
  lemma DigitsPlain(d: string)
    requires IsDigits(d)
    ensures ':' !in d && '\n' !in d
    ensures d != [] && !IsSpace(d[0]) && !IsSpace(d[|d| - 1])
  {
    assert '0' <= d[0] <= '9' && '0' <= d[|d| - 1] <= '9';
  }

  lemma StripPadded(d: string)
    requires d != [] && !IsSpace(d[0]) && !IsSpace(d[|d| - 1])
    ensures Strip(" " + d) == d
  {
    var s := " " + d;
    assert s[1..] == d;
    assert TrimLeft(s) == TrimLeft(d);
  }

  lemma LabelPlain()
    ensures ':' !in TeamViewerLabel && '\n' !in TeamViewerLabel
  {
  }

  /** `TeamViewer ID: <d>` splits on ':' into the label and " " + d. */
  lemma SplitInfoLine(d: string)
    requires ':' !in d
    ensures Split(TeamViewerMarker + " " + d, ':') == [TeamViewerLabel, " " + d]
  {
    LabelPlain();
    assert TeamViewerMarker + " " + d == TeamViewerLabel + [':'] + (" " + d);
    SplitFirst(TeamViewerLabel, ':', " " + d);
    assert ':' !in " " + d;
    assert IndexOf(" " + d, ':') == None;
  }

  /** Splitting on a character at the end of a first piece that does not contain it. */
  lemma SplitFirst(first: string, c: char, rest: string)
    requires c !in first
    ensures Split(first + [c] + rest, c) == [first] + Split(rest, c)
  {
    var s := first + [c] + rest;
    assert s[..|first|] == first;
    assert s[|first|] == c;
    assert IndexOf(s, c) == Some(|first|);
    assert s[|first| + 1..] == rest;
  }

  /** The line `TeamViewer ID: <digits>` qualifies and yields the digits. */
  lemma InfoLineQualifies(d: string)
    requires IsDigits(d)
    ensures Qualifies(TeamViewerMarker + " " + d) && Candidate(TeamViewerMarker + " " + d) == d
  {
    MarkerStartsLine(TeamViewerMarker + " " + d, " " + d);
    DigitsPlain(d);
    SplitInfoLine(d);
    StripPadded(d);
  }

  /** A line that starts with the marker contains it. */
  lemma MarkerStartsLine(line: string, rest: string)
    requires line == TeamViewerMarker + rest
    ensures Contains(line, TeamViewerMarker)
  {
    assert line[..|TeamViewerMarker|] == TeamViewerMarker;
  }

  /** An output whose first line is `TeamViewer ID: <digits>` reports those digits. */
  lemma InfoLineParsed(d: string, rest: string)
    requires IsDigits(d)
    ensures TeamViewerId(ProbeRan(0, TeamViewerMarker + " " + d + "\n" + rest)) == Some(d)
  {
    var line := TeamViewerMarker + " " + d;
    InfoLineQualifies(d);
    DigitsPlain(d);
    LabelPlain();
    assert line == TeamViewerLabel + [':', ' '] + d;
    assert '\n' !in line;
    SplitFirst(line, '\n', rest);
    assert line + "\n" + rest == line + ['\n'] + rest;
    var lines := [line] + Split(rest, '\n');
    assert lines[0] == line;
  }

  // ---------------------------------------------------------------- commands

  /** What execute_command makes of a command string. */
  datatype Command = Reboot | Restart | ForwardLog(message: string) | Ignored

  function ParseCommand(command: string): (c: Command)
    ensures c == Reboot <==> command == "reboot"
    ensures c == Restart <==> command == "restart"
    ensures c.ForwardLog? <==> StartsWith(command, "log:")
    ensures c.ForwardLog? ==> "log:" + c.message == command
  {
    if command == "reboot" then
      assert command[..4] == "rebo";
      Reboot
    else if command == "restart" then
      assert command[..4] == "rest";
      Restart
    else if StartsWith(command, "log:") then ForwardLog(command[4..])
    else Ignored
  }

  /** Every forwarded message is recovered from the command it came in. */
  lemma ForwardLogRoundTrip(message: string)
    ensures ParseCommand("log:" + message) == ForwardLog(message)
  {
    assert ("log:" + message)[..4] == "log:";
    assert ("log:" + message)[4..] == message;
  }

  /**
   * stop_current_media on the held process: terminate and wait 5 s; on
   * timeout kill it without waiting again. A process already reaped by
   * `wait()` ends the wait at once.
   */
  function StopEffects(held: Option<Handle>, graceful: bool): (e: seq<Effect>)
    ensures held.None? <==> e == []
    ensures held.Some? ==> |e| >= 2 && e[0] == Terminate && e[1] == WaitFor(StopTimeout)
  {
    if held.None? then []
    else [Terminate, WaitFor(StopTimeout)] + (if held.value.reaped || graceful then [] else [Kill])
  }

  /** Stop the player, start `argv` if Popen succeeds, and wait for its exit. */
  function LaunchEffects(held: Option<Handle>, graceful: bool, launchOk: bool, argv: seq<string>): (e: seq<Effect>)
    ensures |e| >= |StopEffects(held, graceful)|
    ensures e[..|StopEffects(held, graceful)|] == StopEffects(held, graceful)
  {
    StopEffects(held, graceful) + (if launchOk then [Spawn(argv), WaitUntilExit] else [])
  }

  /** The kill comes exactly when a running process outlives the wait; a stop never waits for exit. */
  lemma StopKillsExactly(held: Option<Handle>, graceful: bool)
    ensures Kill in StopEffects(held, graceful) <==> held.Some? && !held.value.reaped && !graceful
    ensures WaitUntilExit !in StopEffects(held, graceful)
  {
  }

  /** A launch spawns exactly when Popen succeeds, and then waits for the exit. */
  lemma LaunchSpawnsExactly(held: Option<Handle>, graceful: bool, launchOk: bool, argv: seq<string>)
    ensures Spawn(argv) in LaunchEffects(held, graceful, launchOk, argv) <==> launchOk
    ensures WaitUntilExit in LaunchEffects(held, graceful, launchOk, argv) <==> launchOk
  {
    StopKillsExactly(held, graceful);
  }

  // ---------------------------------------------------------------- check-in and status replies

  /** The reply of POST /checkin: `command` as the JSON object holds it. */
  datatype CheckinReply = CheckinUnavailable | CheckinMalformed | CheckinBody(command: Field<string>)

  /** The JSON body the agent sends with a check-in. */
  datatype CheckinPayload = CheckinPayload(currentMedia: Option<string>, teamviewerId: Option<string>)

  /** The reply of GET /playlist-status. */
  datatype StatusReply =
    | StatusUnavailable
    | StatusMalformed
    | StatusBody(playlistId: Option<int>, lastUpdated: Option<string>, command: Field<string>)

  /** The reply of GET /playlist. */
  datatype PlaylistReply = PlaylistUnavailable | PlaylistMalformed | PlaylistBody(playlist: Option<Playlist>)

  /** The refetch test of check_playlist_status: no playlist held, another id, or another timestamp. */
  predicate NeedsRefetch(held: Option<Playlist>, serverId: Option<int>, serverStamp: Option<string>)
  {
    held.None? || Some(held.value.id) != serverId || held.value.lastUpdated != serverStamp
  }

  /**
   * The status test agrees with the server's key: it asks for nothing exactly
   * when the held playlist has the reported id and timestamp, so an edit of
   * the held playlist (same id, new timestamp) is caught.
   */
  lemma RefetchExactlyOnNewKey(p: Playlist, serverId: Option<int>, serverStamp: Option<string>)
    ensures !NeedsRefetch(Some(p), serverId, serverStamp) <==> serverId == Some(p.id) && serverStamp == p.lastUpdated
    ensures NeedsRefetch(None, serverId, serverStamp)
  {
  }

  /** Whether fetch_playlist replaces the held playlist with the reply's. */
  predicate Replaces(held: Option<Playlist>, reply: PlaylistReply)
  {
    reply.PlaylistBody? && (held.None? || reply.playlist != held)
  }

  // ---------------------------------------------------------------- media resolution

  /** The stream URL of a stream item: `stream_url or url`, kept only with an accepted scheme. */
  function StreamSource(item: Item): (r: Option<string>)
    ensures r.Some? ==> StartsWithAny(r.value, StreamSchemes) && r.value != ""
    ensures r.Some? ==> r == (if TruthyStr(item.streamUrl) then item.streamUrl else item.url)
    ensures TruthyStr(item.streamUrl) ==> (r.Some? <==> StartsWithAny(item.streamUrl.value, StreamSchemes))
    ensures !TruthyStr(item.streamUrl) ==> (r.Some? <==> item.url.Some? && StartsWithAny(item.url.value, StreamSchemes))
  {
    var chosen := if TruthyStr(item.streamUrl) then item.streamUrl else item.url;
    if chosen.Some? && StartsWithAny(chosen.value, StreamSchemes) then chosen else None
  }

  /** `src` is a value download_media may return for `item`. */
  predicate SourceOf(dir: string, item: Item, src: string)
  {
    if item.isStream then StreamSource(item) == Some(src)
    else TruthyStr(item.filename) && src == LocalPath(dir, item.filename.value)
  }

  /** One call of download_media: what it returns, the directory after it, and the requests it made. */
  datatype Resolution = Resolution(source: Option<string>, files: map<string, CachedFile>, log: seq<Effect>)

  function Resolve(dir: string, files: map<string, CachedFile>, item: Item, fetch: Fetch, now: int): (r: Resolution)
    ensures r.source.Some? ==> SourceOf(dir, item, r.source.value)
    // a returned local path names a file that is in the directory
    ensures r.source.Some? && !item.isStream ==> item.filename.value in r.files
    // streams and cached files need no request
    ensures item.isStream ==> r == Resolution(StreamSource(item), files, [])
    ensures (!item.isStream && TruthyStr(item.filename) && item.filename.value in files) ==>
              r == Resolution(Some(LocalPath(dir, item.filename.value)), files, [])
    // without a file name or a URL nothing is requested and nothing returned
    ensures (!item.isStream && (!TruthyStr(item.filename) || (item.filename.value !in files && item.url.None?))) ==>
              r == Resolution(None, files, [])
    // otherwise exactly one download, which succeeds exactly when the transfer completes
    ensures (!item.isStream && TruthyStr(item.filename) && item.filename.value !in files && item.url.Some?) ==>
              r.log == [Download(item.filename.value)] && r.files == AfterFetch(files, item.filename.value, fetch, now)
              && (r.source.Some? <==> fetch.Fetched?)
    ensures forall n :: n in files ==> n in r.files && r.files[n] == files[n]
  {
    if item.isStream then Resolution(StreamSource(item), files, [])
    else if !TruthyStr(item.filename) then Resolution(None, files, [])
    else
      var name := item.filename.value;
      var path := LocalPath(dir, name);
      if name in files then Resolution(Some(path), files, [])
      else if item.url.None? then Resolution(None, files, [])
      else Resolution(if fetch.Fetched? then Some(path) else None, AfterFetch(files, name, fetch, now), [Download(name)])
  }

  /** Once an item has been resolved, resolving it again needs no request and gives the same source. */
  lemma ResolveIdempotent(dir: string, files: map<string, CachedFile>, item: Item, f1: Fetch, f2: Fetch, t1: int, t2: int)
    requires Resolve(dir, files, item, f1, t1).source.Some?
    ensures var r := Resolve(dir, files, item, f1, t1);
            Resolve(dir, r.files, item, f2, t2) == Resolution(r.source, r.files, [])
  {
  }

  /**
   * There is no size check: a transfer interrupted after the file was opened
   * leaves a partial file that every later call returns as the media.
   */
  lemma PartialFileServed(dir: string, files: map<string, CachedFile>, item: Item, written: nat, later: Fetch, t1: int, t2: int)
    requires !item.isStream && TruthyStr(item.filename) && item.filename.value !in files && item.url.Some?
    ensures var r := Resolve(dir, files, item, Interrupted(written), t1);
            r.source.None? && r.files[item.filename.value].size == written
            && Resolve(dir, r.files, item, later, t2) == Resolution(Some(LocalPath(dir, item.filename.value)), r.files, [])
  {
  }

  /** The state of the multi-item loop of play_current_playlist: directory, effects, and each item's result. */
  datatype Pass = Pass(files: map<string, CachedFile>, log: seq<Effect>, results: seq<Option<string>>)

  /** download_media on the items from `i` on, the i-th download ending with `fetches[i]`. */
  function ResolveFrom(s: Pass, dir: string, items: seq<Item>, fetches: seq<Fetch>, i: nat, now: int): Pass
    decreases |items| - i
  {
    if i >= |items| then s
    else
      var r := Resolve(dir, s.files, items[i], FetchAt(fetches, i), now);
      ResolveFrom(Pass(r.files, s.log + r.log, s.results + [r.source]), dir, items, fetches, i + 1, now)
  }

  /** The loop records one result per item, in item order, and each present result belongs to its item. */
  lemma {:induction false} ResolveFromShape(s: Pass, dir: string, items: seq<Item>, fetches: seq<Fetch>, i: nat, now: int)
    requires i <= |items|
    ensures var out := ResolveFrom(s, dir, items, fetches, i, now);
            |out.results| == |s.results| + |items| - i
            && out.results[..|s.results|] == s.results
            && (forall k :: i <= k < |items| ==>
                  var res := out.results[|s.results| + k - i];
                  res.Some? ==> SourceOf(dir, items[k], res.value))
    decreases |items| - i
  {
    if i < |items| {
      var r := Resolve(dir, s.files, items[i], FetchAt(fetches, i), now);
      var s' := Pass(r.files, s.log + r.log, s.results + [r.source]);
      ResolveFromShape(s', dir, items, fetches, i + 1, now);
      var out := ResolveFrom(s, dir, items, fetches, i, now);
      assert out == ResolveFrom(s', dir, items, fetches, i + 1, now);
      assert out.results[..|s.results|] == out.results[..|s'.results|][..|s.results|];
      assert out.results[|s.results|] == r.source by {
        assert out.results[..|s'.results|][|s.results|] == s'.results[|s.results|];
      }
    }
  }

  /**
   * The paths handed to the manifest: every one is the source of some item,
   * and they follow the item order.
   */
  lemma ResolvedPathsInOrder(files: map<string, CachedFile>, log: seq<Effect>, dir: string, items: seq<Item>, fetches: seq<Fetch>, now: int)
    ensures var results := ResolveFrom(Pass(files, log, []), dir, items, fetches, 0, now).results;
            var paths := Somes(results);
            |results| == |items| && |SomeIndices(results)| == |paths|
            && (forall m :: 0 <= m < |paths| ==> SomeIndices(results)[m] < |items| && SourceOf(dir, items[SomeIndices(results)[m]], paths[m]))
            && (forall m, n :: 0 <= m < n < |paths| ==> SomeIndices(results)[m] < SomeIndices(results)[n])
  {
    var results := ResolveFrom(Pass(files, log, []), dir, items, fetches, 0, now).results;
    ResolveFromShape(Pass(files, log, []), dir, items, fetches, 0, now);
    SomesInOrder(results);
    forall m | 0 <= m < |Somes(results)|
      ensures SomeIndices(results)[m] < |items| && SourceOf(dir, items[SomeIndices(results)[m]], Somes(results)[m])
    {
      var k := SomeIndices(results)[m];
      assert results[k] == Some(Somes(results)[m]);
    }
  }

  // ---------------------------------------------------------------- manifest

  /** os.path.abspath without normalisation: relative paths are resolved against `cwd`. */
  function AbsPath(cwd: string, p: string): string
  {
    if StartsWith(p, "/") then p else if p == "" then cwd else cwd + "/" + p
  }

  /** The text from the last dot, when no separator follows that dot, is a dot-led suffix without dots or separators after its head. */
  lemma DotSuffixShape(p: string, dot: nat, sep: Option<nat>)
    requires dot < |p| && p[dot] == '.' && '.' !in p[dot + 1..]
    requires sep.Some? ==> sep.value < dot && '/' !in p[sep.value + 1..]
    requires sep.None? ==> '/' !in p
    ensures p[dot..][0] == '.' && EndsWith(p, p[dot..]) && '.' !in p[dot..][1..] && '/' !in p[dot..]
  {
    assert p[dot..][1..] == p[dot + 1..];
    if sep.Some? {
      assert forall m :: 0 <= m < |p[dot..]| ==> p[dot..][m] == p[sep.value + 1..][dot - sep.value - 1 + m];
    } else {
      assert forall m :: 0 <= m < |p[dot..]| ==> p[dot..][m] == p[dot + m];
    }
  }

  /** os.path.splitext(p)[1] for POSIX paths: from the last dot of the last component, unless that component is only leading dots up to it. */
  function Extension(p: string): (e: string)
    ensures e == "" || (e[0] == '.' && EndsWith(p, e) && '.' !in e[1..] && '/' !in e)
  {
    match LastIndexOf(p, '.')
    case None => ""
    case Some(dot) =>
      var sep := LastIndexOf(p, '/');
      var start := if sep.None? then 0 else sep.value + 1;
      if start <= dot && exists i :: start <= i < dot && p[i] != '.' then
        DotSuffixShape(p, dot, sep);
        p[dot..]
      else ""
  }

  predicate IsImagePath(p: string)
  {
    Lower(Extension(p)) in ImageExtensions
  }

  /** The media line written for `p`: a URL with one of `verbatim`'s prefixes as it is, anything else as an absolute path. */
  function EntryFor(cwd: string, p: string, verbatim: seq<string>): string
  {
    if StartsWithAny(p, verbatim) then p else AbsPath(cwd, p)
  }

  /** The lines written for one media path. */
  function PathLines(cwd: string, p: string, verbatim: seq<string>): seq<string>
  {
    if StartsWithAny(p, verbatim) then [p]
    else (if IsImagePath(p) then [M3U.ImageDuration] else []) + [AbsPath(cwd, p)]
  }

  /** The manifest lines after `#EXTM3U` for `paths`. */
  function ManifestLines(cwd: string, paths: seq<string>, verbatim: seq<string>): seq<string>
    decreases |paths|
  {
    if paths == [] then []
    else ManifestLines(cwd, paths[..|paths| - 1], verbatim) + PathLines(cwd, paths[|paths| - 1], verbatim)
  }

  lemma ManifestLinesSnoc(cwd: string, paths: seq<string>, i: nat, verbatim: seq<string>)
    requires i < |paths|
    ensures ManifestLines(cwd, paths[..i + 1], verbatim) == ManifestLines(cwd, paths[..i], verbatim) + PathLines(cwd, paths[i], verbatim)
  {
    assert paths[..i + 1][..i] == paths[..i];
  }

  /** One turn of the manifest write loop: the lines so far, then those of the next path. */
  lemma ManifestStep(cwd: string, paths: seq<string>, i: nat, verbatim: seq<string>, lines: seq<string>)
    requires i < |paths|
    requires lines == [M3U.Header] + ManifestLines(cwd, paths[..i], verbatim)
    ensures lines + PathLines(cwd, paths[i], verbatim) == [M3U.Header] + ManifestLines(cwd, paths[..i + 1], verbatim)
  {
    ManifestLinesSnoc(cwd, paths, i, verbatim);
  }

  /** The media lines expected from `paths`, one per path. */
  function EntryList(cwd: string, paths: seq<string>, verbatim: seq<string>): (r: seq<string>)
    ensures |r| == |paths|
    ensures forall k :: 0 <= k < |paths| ==> r[k] == EntryFor(cwd, paths[k], verbatim)
    decreases |paths|
  {
    if paths == [] then []
    else EntryList(cwd, paths[..|paths| - 1], verbatim) + [EntryFor(cwd, paths[|paths| - 1], verbatim)]
  }

  /** Prefixes that can only start media lines: non-empty and not starting with '#'. */
  predicate EntryPrefixes(verbatim: seq<string>)
  {
    forall k :: 0 <= k < |verbatim| ==> verbatim[k] != "" && verbatim[k][0] != '#'
  }

  /** The lines written for one path hold exactly one media line, its entry. */
  lemma PathLinesEntries(cwd: string, p: string, verbatim: seq<string>)
    requires StartsWith(cwd, "/")
    requires EntryPrefixes(verbatim)
    ensures M3U.Entries(PathLines(cwd, p, verbatim)) == [EntryFor(cwd, p, verbatim)]
  {
    var line := EntryFor(cwd, p, verbatim);
    if StartsWithAny(p, verbatim) {
      var k :| 0 <= k < |verbatim| && StartsWith(p, verbatim[k]);
      assert p[0] == verbatim[k][0];
    } else {
      assert AbsPath(cwd, p)[0] == '/';
      if IsImagePath(p) {
        assert ([M3U.ImageDuration] + [line])[1..] == [line];
      }
    }
    M3U.EntriesSingle(line);
  }

  /**
   * Every media path becomes exactly one media line, in order; the image
   * duration hints are not media lines.
   */
  lemma {:induction false} ManifestEntries(cwd: string, paths: seq<string>, verbatim: seq<string>)
    requires StartsWith(cwd, "/")
    requires EntryPrefixes(verbatim)
    ensures M3U.Entries(ManifestLines(cwd, paths, verbatim)) == EntryList(cwd, paths, verbatim)
    decreases |paths|
  {
    if paths != [] {
      var front := paths[..|paths| - 1];
      var p := paths[|paths| - 1];
      ManifestEntries(cwd, front, verbatim);
      M3U.EntriesAppend(ManifestLines(cwd, front, verbatim), PathLines(cwd, p, verbatim));
      PathLinesEntries(cwd, p, verbatim);
    }
  }

  lemma AsWrittenPrefixes()
    ensures EntryPrefixes(VerbatimPrefixes) && EntryPrefixes(StreamSchemes)
  {
  }

  /** As written, an accepted rtmps:// stream is written to the manifest as a path under the working directory. */
  lemma RtmpsStreamMangled(cwd: string)
    requires StartsWith(cwd, "/")
    ensures var url := "rtmps://host/live";
            var item := Item(1, None, "live", "video", Null, Some(url), true, None, Absent);
            StreamSource(item) == Some(url)
            && ManifestLines(cwd, [url], VerbatimPrefixes) == [cwd + "/" + url]
            && EntryFor(cwd, url, VerbatimPrefixes) != url
  {
    var url := "rtmps://host/live";
    assert url[..8] == StreamSchemes[3];
    assert url[0] == 'r' && url[2] == 'm' && url[4] == 's';
    assert !StartsWithAny(url, VerbatimPrefixes) by {
      forall k | 0 <= k < |VerbatimPrefixes| ensures !StartsWith(url, VerbatimPrefixes[k]) {
        var q := VerbatimPrefixes[k];
        if k < 2 { assert url[..|q|][0] != q[0]; }
        else if k == 2 { assert url[..|q|][4] != q[4]; }
        else { assert url[..|q|][2] != q[2]; }
      }
    }
    assert '.' !in url;
    assert Extension(url) == "";
    assert !IsImagePath(url);
    assert url[0] != '/';
    assert AbsPath(cwd, url) == cwd + "/" + url;
    var one: seq<string> := [url];
    assert one[..0] == [];
    assert |cwd + "/" + url| > |url|;
  }

  /** With the stream schemes as the verbatim list, every stream an item resolves to is written as its URL. */
  lemma StreamWrittenVerbatimIntended(cwd: string, dir: string, item: Item, src: string)
    requires item.isStream && SourceOf(dir, item, src)
    ensures EntryFor(cwd, src, StreamSchemes) == src
    ensures PathLines(cwd, src, StreamSchemes) == [src]
  {
  }

  function SingleArgv(src: string): seq<string>
  {
    VlcBase + [src]
  }

  function PlaylistArgv(manifestPath: string): seq<string>
  {
    VlcBase + PlaylistOptions + [manifestPath]
  }

  // ---------------------------------------------------------------- the client

  class UpdatedClient {
    var currentPlaylist: Option<Playlist>
    var currentMediaIndex: nat
    var currentProcess: Option<Handle>
    /** The media directory MEDIA_DIR: file name to size and mtime. */
    var files: map<string, CachedFile>
    /** The text of MEDIA_DIR/current_playlist.m3u. */
    var manifest: string
    var effects: seq<Effect>
    /** `_teamviewer_id_checked` exists. */
    var teamviewerChecked: bool
    /** `_cached_teamviewer_id`. */
    var cachedTeamviewerId: Option<string>
    /** How many times `teamviewer --info` has been run. */
    var probes: nat
    const mediaDir: string
    /** The working directory os.path.abspath resolves against. */
    const cwd: string
    /** detect_media_player found VLC. */
    const vlcFound: bool

    /** The TeamViewer ID is probed at most once and what is cached is a digit string. */
    ghost predicate Valid()
      reads this
    {
      StartsWith(mediaDir, "/") && StartsWith(cwd, "/")
      && probes == (if teamviewerChecked then 1 else 0)
      && (cachedTeamviewerId.Some? ==> teamviewerChecked && IsDigits(cachedTeamviewerId.value))
    }

    /** __init__ up to the forced first fetch, which is a call of FetchPlaylist. */
    constructor (mediaDir: string, cwd: string, vlcFound: bool, files: map<string, CachedFile>)
      requires StartsWith(mediaDir, "/") && StartsWith(cwd, "/")
      ensures Valid()
      ensures this.mediaDir == mediaDir && this.cwd == cwd && this.vlcFound == vlcFound && this.files == files
      ensures currentPlaylist == None && currentMediaIndex == 0 && currentProcess == None
      ensures effects == [] && manifest == "" && !teamviewerChecked && probes == 0
    {
      this.mediaDir := mediaDir;
      this.cwd := cwd;
      this.vlcFound := vlcFound;
      this.files := files;
      currentPlaylist := None;
      currentMediaIndex := 0;
      currentProcess := None;
      manifest := "";
      effects := [];
      teamviewerChecked := false;
      cachedTeamviewerId := None;
      probes := 0;
    }

    /** stop_current_media; `graceful` says whether the process exits within the 5 s wait. */
    method StopCurrentMedia(graceful: bool)
      modifies this`currentProcess, this`effects
      ensures currentProcess == None
      ensures effects == old(effects) + StopEffects(old(currentProcess), graceful)
    {
      if currentProcess.Some? {
        effects := effects + [Terminate, WaitFor(StopTimeout)];
        if !currentProcess.value.reaped && !graceful {
          effects := effects + [Kill];
        }
        currentProcess := None;
      }
    }

    /** execute_command: reboot and restart stop the player first; `log:` forwards the rest to the server. */
    method ExecuteCommand(command: string, graceful: bool)
      modifies this`currentProcess, this`effects
      ensures ParseCommand(command) == Reboot ==>
                currentProcess == None && effects == old(effects) + StopEffects(old(currentProcess), graceful) + [RebootCall]
      ensures ParseCommand(command) == Restart ==>
                currentProcess == None && effects == old(effects) + StopEffects(old(currentProcess), graceful) + [ExecSelf]
      ensures ParseCommand(command).ForwardLog? ==>
                currentProcess == old(currentProcess) && effects == old(effects) + [SendLog("command", ParseCommand(command).message)]
      ensures ParseCommand(command) == Ignored ==> currentProcess == old(currentProcess) && effects == old(effects)
    {
      var c := ParseCommand(command);
      match c
      case Reboot =>
        StopCurrentMedia(graceful);
        effects := effects + [RebootCall];
      case Restart =>
        StopCurrentMedia(graceful);
        effects := effects + [ExecSelf];
      case ForwardLog(message) =>
        effects := effects + [SendLog("command", message)];
      case Ignored =>
    }

    /**
     * The probe of send_checkin: `teamviewer --info` runs on the first
     * check-in only and its answer is kept; the ID to send is the kept one
     * whenever it is truthy, which every found ID is.
     */
    method CacheTeamViewerId(probe: Probe) returns (id: Option<string>)
      requires Valid()
      modifies this`teamviewerChecked, this`cachedTeamviewerId, this`probes
      ensures Valid() && teamviewerChecked && probes == 1
      ensures cachedTeamviewerId == if old(teamviewerChecked) then old(cachedTeamviewerId) else TeamViewerId(probe)
      ensures id == cachedTeamviewerId
    {
      if !teamviewerChecked {
        cachedTeamviewerId := TeamViewerId(probe);
        probes := probes + 1;
        teamviewerChecked := true;
      }
      id := if TruthyStr(cachedTeamviewerId) then cachedTeamviewerId else None;
    }

    /**
     * The reply handling of send_checkin: a command is executed; the reply is
     * returned (`accepted`) unless the request failed or the command is null,
     * which raises inside execute_command.
     */
    method HandleCheckinReply(reply: CheckinReply, graceful: bool) returns (accepted: bool)
      modifies this`currentProcess, this`effects
      ensures accepted <==> reply.CheckinBody? && !reply.command.Null?
      ensures !(reply.CheckinBody? && reply.command.Val?) ==> currentProcess == old(currentProcess) && effects == old(effects)
      ensures reply.CheckinBody? && reply.command.Val? ==>
                var c := ParseCommand(reply.command.value);
                (c.ForwardLog? ==> currentProcess == old(currentProcess) && effects == old(effects) + [SendLog("command", c.message)])
                && (c == Reboot ==> currentProcess == None && effects == old(effects) + StopEffects(old(currentProcess), graceful) + [RebootCall])
                && (c == Restart ==> currentProcess == None && effects == old(effects) + StopEffects(old(currentProcess), graceful) + [ExecSelf])
                && (c == Ignored ==> currentProcess == old(currentProcess) && effects == old(effects))
    {
      accepted := false;
      if reply.CheckinBody? {
        if reply.command.Absent? {
          accepted := true;
        } else if reply.command.Val? {
          ExecuteCommand(reply.command.value, graceful);
          accepted := true;
        }
      }
    }

    /**
     * send_checkin: the TeamViewer ID is probed on the first check-in only and
     * sent whenever one was found; a command in the reply is executed.
     */
    method SendCheckin(probe: Probe, reply: CheckinReply, graceful: bool) returns (payload: CheckinPayload, accepted: bool)
      requires Valid()
      modifies this`teamviewerChecked, this`cachedTeamviewerId, this`probes, this`currentProcess, this`effects
      ensures Valid() && teamviewerChecked && probes == 1
      ensures cachedTeamviewerId == if old(teamviewerChecked) then old(cachedTeamviewerId) else TeamViewerId(probe)
      ensures payload == CheckinPayload(CurrentMediaName(currentPlaylist, currentMediaIndex), cachedTeamviewerId)
      ensures accepted <==> reply.CheckinBody? && !reply.command.Null?
      ensures !(reply.CheckinBody? && reply.command.Val?) ==> currentProcess == old(currentProcess) && effects == old(effects)
      ensures reply.CheckinBody? && reply.command.Val? ==>
                var c := ParseCommand(reply.command.value);
                (c.ForwardLog? ==> currentProcess == old(currentProcess) && effects == old(effects) + [SendLog("command", c.message)])
                && (c == Reboot ==> currentProcess == None && effects == old(effects) + StopEffects(old(currentProcess), graceful) + [RebootCall])
                && (c == Restart ==> currentProcess == None && effects == old(effects) + StopEffects(old(currentProcess), graceful) + [ExecSelf])
                && (c == Ignored ==> currentProcess == old(currentProcess) && effects == old(effects))
    {
      var media := CurrentMediaName(currentPlaylist, currentMediaIndex);
      var id := CacheTeamViewerId(probe);
      payload := CheckinPayload(media, id);
      accepted := HandleCheckinReply(reply, graceful);
    }

    /** fetch_playlist: replace the held playlist when the server's differs or none is held. */
    method FetchPlaylist(reply: PlaylistReply, graceful: bool) returns (updated: bool)
      modifies this`currentPlaylist, this`currentMediaIndex, this`currentProcess, this`effects
      ensures updated == Replaces(old(currentPlaylist), reply)
      ensures updated ==> currentPlaylist == reply.playlist && currentMediaIndex == 0 && currentProcess == None
                          && effects == old(effects) + [ContentRequest] + StopEffects(old(currentProcess), graceful)
      ensures !updated ==> currentPlaylist == old(currentPlaylist) && currentMediaIndex == old(currentMediaIndex)
                           && currentProcess == old(currentProcess) && effects == old(effects) + [ContentRequest]
    {
      effects := effects + [ContentRequest];
      updated := false;
      if reply.PlaylistBody? && (currentPlaylist.None? || reply.playlist != currentPlaylist) {
        StopCurrentMedia(graceful);
        currentPlaylist := reply.playlist;
        currentMediaIndex := 0;
        updated := true;
      }
    }

    /**
     * check_playlist_status: a command in the reply is executed and ends the
     * check (a null one raises and fails it); otherwise a new playlist key
     * stops the player and fetches the playlist.
     */
    method CheckPlaylistStatus(status: StatusReply, graceful: bool, content: PlaylistReply) returns (r: bool)
      modifies this`currentPlaylist, this`currentMediaIndex, this`currentProcess, this`effects
      ensures (!status.StatusBody? || status.command.Null?) ==>
                !r && effects == old(effects) && currentProcess == old(currentProcess) && currentPlaylist == old(currentPlaylist)
                && currentMediaIndex == old(currentMediaIndex)
      ensures status.StatusBody? && status.command.Val? ==>
                r && currentPlaylist == old(currentPlaylist) && currentMediaIndex == old(currentMediaIndex)
      ensures status.StatusBody? && status.command.Val? ==>
                var c := ParseCommand(status.command.value);
                (c.ForwardLog? ==> currentProcess == old(currentProcess) && effects == old(effects) + [SendLog("command", c.message)])
                && (c == Reboot ==> currentProcess == None && effects == old(effects) + StopEffects(old(currentProcess), graceful) + [RebootCall])
                && (c == Restart ==> currentProcess == None && effects == old(effects) + StopEffects(old(currentProcess), graceful) + [ExecSelf])
                && (c == Ignored ==> currentProcess == old(currentProcess) && effects == old(effects))
      ensures (status.StatusBody? && status.command.Absent? && !NeedsRefetch(old(currentPlaylist), status.playlistId, status.lastUpdated)) ==>
                !r && effects == old(effects) && currentProcess == old(currentProcess) && currentPlaylist == old(currentPlaylist)
                && currentMediaIndex == old(currentMediaIndex)
      ensures (status.StatusBody? && status.command.Absent? && NeedsRefetch(old(currentPlaylist), status.playlistId, status.lastUpdated)) ==>
                r == Replaces(old(currentPlaylist), content) && currentProcess == None
                && effects == old(effects) + StopEffects(old(currentProcess), graceful) + [ContentRequest]
                && currentPlaylist == (if r then content.playlist else old(currentPlaylist))
                && currentMediaIndex == (if r then 0 else old(currentMediaIndex))
    {
      r := false;
      if status.StatusBody? {
        match status.command
        case Val(c) =>
          ExecuteCommand(c, graceful);
          r := true;
        case Null =>
        case Absent =>
          if NeedsRefetch(currentPlaylist, status.playlistId, status.lastUpdated) {
            StopCurrentMedia(graceful);
            r := FetchPlaylist(content, graceful);
          }
      }
    }

    /** download_media for one item. */
    method DownloadMedia(item: Item, fetch: Fetch, now: int) returns (source: Option<string>)
      modifies this`files, this`effects
      ensures var r := Resolve(mediaDir, old(files), item, fetch, now);
              source == r.source && files == r.files && effects == old(effects) + r.log
    {
      if item.isStream {
        source := StreamSource(item);
        return;
      }
      if !TruthyStr(item.filename) {
        source := None;
        return;
      }
      var name := item.filename.value;
      var path := LocalPath(mediaDir, name);
      if name in files {
        source := Some(path);
        return;
      }
      if item.url.None? {
        source := None;
        return;
      }
      effects := effects + [Download(name)];
      files := AfterFetch(files, name, fetch, now);
      source := if fetch.Fetched? then Some(path) else None;
    }

    /** The loop of lines 401-405: resolve every item, keeping the sources that were found. */
    method ResolveItems(items: seq<Item>, fetches: seq<Fetch>, now: int) returns (paths: seq<string>)
      modifies this`files, this`effects
      ensures var out := ResolveFrom(Pass(old(files), old(effects), []), mediaDir, items, fetches, 0, now);
              files == out.files && effects == out.log && paths == Somes(out.results)
    {
      paths := [];
      ghost var results: seq<Option<string>> := [];
      var i := 0;
      while i < |items|
        invariant 0 <= i <= |items|
        invariant paths == Somes(results)
        invariant ResolveFrom(Pass(files, effects, results), mediaDir, items, fetches, i, now)
                  == ResolveFrom(Pass(old(files), old(effects), []), mediaDir, items, fetches, 0, now)
      {
        var src := DownloadMedia(items[i], FetchAt(fetches, i), now);
        assert (results + [src])[..|results|] == results;
        results := results + [src];
        if src.Some? {
          paths := paths + [src.value];
        }
        i := i + 1;
      }
    }

    /**
     * The write loop of play_continuous_playlist, with the prefixes written
     * verbatim as a parameter: the client passes VerbatimPrefixes, as written.
     */
    method WriteManifestLines(paths: seq<string>, verbatim: seq<string>) returns (lines: seq<string>)
      ensures lines == [M3U.Header] + ManifestLines(cwd, paths, verbatim)
    {
      lines := [M3U.Header];
      var i := 0;
      while i < |paths|
        invariant 0 <= i <= |paths|
        invariant lines == [M3U.Header] + ManifestLines(cwd, paths[..i], verbatim)
      {
        ManifestStep(cwd, paths, i, verbatim, lines);
        lines := lines + PathLines(cwd, paths[i], verbatim);
        i := i + 1;
      }
      assert paths[..i] == paths;
    }

    /**
     * play_continuous_playlist: write the manifest, then (VLC known) stop the
     * held process, start VLC on the manifest and wait for it.
     */
    method PlayContinuousPlaylist(paths: seq<string>, graceful: bool, launchOk: bool)
      modifies this`manifest, this`currentProcess, this`effects
      ensures manifest == M3U.Text([M3U.Header] + ManifestLines(cwd, paths, VerbatimPrefixes))
      ensures var argv := PlaylistArgv(LocalPath(mediaDir, ManifestName));
              if vlcFound then
                effects == old(effects) + LaunchEffects(old(currentProcess), graceful, launchOk, argv)
                && currentProcess == (if launchOk then Some(Handle(argv, true)) else None)
              else effects == old(effects) && currentProcess == old(currentProcess)
    {
      var lines := WriteManifestLines(paths, VerbatimPrefixes);
      manifest := M3U.Text(lines);
      if vlcFound {
        Launch(PlaylistArgv(LocalPath(mediaDir, ManifestName)), graceful, launchOk);
      }
    }

    /** Stop what plays, then start `argv` and wait for it when the launch succeeds. */
    method Launch(argv: seq<string>, graceful: bool, launchOk: bool)
      modifies this`currentProcess, this`effects
      ensures effects == old(effects) + LaunchEffects(old(currentProcess), graceful, launchOk, argv)
      ensures currentProcess == if launchOk then Some(Handle(argv, true)) else None
    {
      StopCurrentMedia(graceful);
      if launchOk {
        currentProcess := Some(Handle(argv, true));
        effects := effects + [Spawn(argv), WaitUntilExit];
      }
    }

    /** The single-item branch of play_current_playlist: the resolved source is handed to VLC directly. */
    method PlaySingleItem(item: Item, fetch: Fetch, now: int, graceful: bool, launchOk: bool)
      modifies this`files, this`currentProcess, this`effects
      ensures var r := Resolve(mediaDir, old(files), item, fetch, now);
              files == r.files
              && (r.source.Some? && vlcFound ==>
                    effects == old(effects) + r.log + LaunchEffects(old(currentProcess), graceful, launchOk, SingleArgv(r.source.value))
                    && currentProcess == (if launchOk then Some(Handle(SingleArgv(r.source.value), true)) else None))
              && (!(r.source.Some? && vlcFound) ==> effects == old(effects) + r.log && currentProcess == old(currentProcess))
    {
      var src := DownloadMedia(item, fetch, now);
      if src.Some? && vlcFound {
        Launch(SingleArgv(src.value), graceful, launchOk);
      }
    }

    /**
     * play_current_playlist: a single item is played directly by VLC; several
     * items are resolved in order and played through the manifest when any
     * source was found.
     */
    method PlayCurrentPlaylist(fetches: seq<Fetch>, now: int, graceful: bool, launchOk: bool)
      modifies this`files, this`manifest, this`currentProcess, this`effects
      ensures (currentPlaylist.None? || currentPlaylist.value.items == []) ==>
                files == old(files) && manifest == old(manifest) && effects == old(effects) && currentProcess == old(currentProcess)
      ensures (currentPlaylist.Some? && |currentPlaylist.value.items| == 1) ==>
                var r := Resolve(mediaDir, old(files), currentPlaylist.value.items[0], FetchAt(fetches, 0), now);
                files == r.files && manifest == old(manifest)
                && (r.source.Some? && vlcFound ==>
                      effects == old(effects) + r.log + LaunchEffects(old(currentProcess), graceful, launchOk, SingleArgv(r.source.value))
                      && currentProcess == (if launchOk then Some(Handle(SingleArgv(r.source.value), true)) else None))
                && (!(r.source.Some? && vlcFound) ==> effects == old(effects) + r.log && currentProcess == old(currentProcess))
      ensures (currentPlaylist.Some? && |currentPlaylist.value.items| > 1) ==>
                var out := ResolveFrom(Pass(old(files), old(effects), []), mediaDir, currentPlaylist.value.items, fetches, 0, now);
                var paths := Somes(out.results);
                var argv := PlaylistArgv(LocalPath(mediaDir, ManifestName));
                files == out.files
                && (paths == [] ==> manifest == old(manifest) && effects == out.log && currentProcess == old(currentProcess))
                && (paths != [] ==> manifest == M3U.Text([M3U.Header] + ManifestLines(cwd, paths, VerbatimPrefixes)))
                && (paths != [] && vlcFound ==>
                      effects == out.log + LaunchEffects(old(currentProcess), graceful, launchOk, argv)
                      && currentProcess == (if launchOk then Some(Handle(argv, true)) else None))
                && (paths != [] && !vlcFound ==> effects == out.log && currentProcess == old(currentProcess))
    {
      if currentPlaylist.None? || currentPlaylist.value.items == [] {
        return;
      }
      var items := currentPlaylist.value.items;
      if |items| == 1 {
        PlaySingleItem(items[0], FetchAt(fetches, 0), now, graceful, launchOk);
      } else {
        var paths := ResolveItems(items, fetches, now);
        if paths != [] {
          PlayContinuousPlaylist(paths, graceful, launchOk);
        }
      }
    }
  }
}
