# Signage: a Dafny model of the content-sync agents and the server rules they rely on

The signage system has a Flask server and a playback agent, one per display
device. The server keeps a catalogue of uploaded media files and playlists.
It assigns each device either one playlist or one media file, and it can
queue a command (such as `reboot`) for a device. The agent polls the server,
downloads files into a local cache and drives a media player process.

The agent exists in three revisions that diverged. Each is modelled as
written, in its own module, and the client classes run the code as written.
Two defects are listed under "## Findings": one in the fixed agent's status
check and one in the updated agent's manifest writer. For each, the model
has the definition as written, which the client class uses, a lemma that
shows the defect, and beside it the corrected definition with its
intended property proved.

- `FixedAgent` (client_agent_fixed.py):
  - handles playlist and single-media assignments and keeps them exclusive;
  - compares the server's key with what it holds;
  - downloads files unless they are cached with the announced size;
  - writes an M3U manifest and counts its media lines before launching VLC;
  - restarts VLC when a watchdog sees it exit.
- `UpdatedAgent` (client_agent_updated.py):
  - reports a TeamViewer ID, probed once and cached;
  - acts on commands in the check-in and status replies;
  - refetches on any change of playlist id or timestamp;
  - passes stream URLs through when their scheme is accepted;
  - plays one item directly and several items through a manifest.
- `LegacyAgent` (client_agent.py):
  - plays the playlist one item at a time, with the first media player it
    finds, and moves an index that either wraps or halts;
  - evicts cached files that no item names and that are more than a day old.

Three more modules complete the core:

- `Routes` (routes.py), the server side:
  - the upload whitelist and the naming and type rule;
  - device assignment;
  - consume-once delivery of a pending command;
  - the status and content payloads;
  - rebuilding a playlist's items from the edit form;
  - the delete guards.
- `Protocol` connects what the server sends with how each agent reads it:
  - the updated agent stays in step with the catalogue;
  - the fixed agent stops seeing edits once it holds a playlist;
  - the legacy agent plays the durations the server chose;
  - both newer agents' image tests agree with the type the server recorded.
- `Common`, `Content`, `Effects`, `Cache` and `M3U` are the shared pieces:
  - optional values, and JSON members as `dict.get` sees them (missing, null
    or a value);
  - the few string operations used;
  - the content descriptors;
  - an ordered log of the agents' external actions;
  - the cache directory as a map from file name to size and mtime;
  - M3U text.

The agents change their own fields step by step, so each agent is a class.
The class's methods have `modifies` clauses and state the new fields and the
effects they append, in terms of functions on the old state. The lemmas
about those functions carry the properties. The world outside the agent
appears only as parameters:

- an HTTP reply as a datatype of its possible shapes;
- a download as `Fetched`, `Refused` or `Interrupted`;
- whether the player exits within the stop timeout (`graceful`);
- whether `Popen` succeeds (`launchOk`);
- the current time as an integer.

The server's device row is a class. Its handlers are methods on it, and the
catalogue is passed in as maps.

## Model

| member | source | states |
|---|---|---|
| Common.Lower | routes.py:17 | `lower()` keeps the length and lower-cases each ASCII letter in place |
| Common.LastIndexOf | routes.py:17 | the position found holds the character and no later position does; None when the character does not occur |
| Common.Split | client_agent_updated.py:98 | `split` gives at least one piece, no piece contains the separator, and joining the pieces on the separator gives the text back |
| Common.SomesInOrder | client_agent_updated.py:401-405 | keeping only the successes of a list keeps them in their original order: the k-th kept value sits at the k-th successful position, those positions increase, and every success is kept |
| Content.CurrentMediaName | client_agent.py:78-82 | the reported `current_media` is the original name of the item at the index exactly when a playlist is held and the index is inside its items; otherwise None |
| Cache.AfterFetch | client_agent.py:158-166 | a refused request leaves the directory exactly as it was; a completed transfer leaves a file of the full size and an interrupted one a file of the bytes written, both with mtime now; no other file changes |
| M3U.CountOfText | client_agent_fixed.py:453-455 | the media count read back from the written text equals the number of media lines written |
| FixedAgent.DetectChange | client_agent_fixed.py:196-229 | as written, the check fails exactly when `current_media` is None. Otherwise: a new playlist id, or the same id with a new timestamp, is a change; with no playlist id, a new media id or media timestamp is a change; the server reporting nothing while the client holds something is a change; nothing held and no media attribute is a change. With a single media held and no playlist, the check reports no change exactly when the server sends no playlist id and either reports that media's id and timestamp or, with no media id, the held media's id is 0. A playlist held with no media attribute, reported with the same id and timestamp, is no change |
| FixedAgent.DetectChangeIntended | client_agent_fixed.py:196-220 | the comparison with a None `current_media` read as holding nothing: it never fails; a new playlist id or timestamp, or a media id while no media is held, is a change; "unchanged" with a playlist id means the held playlist has that id and timestamp |
| FixedAgent.PlaylistEditMissedAfterFetch | client_agent_fixed.py:199-229 | after a playlist fetch, an edit of that playlist (same id, new timestamp) makes the check as written fail, while the intended comparison reports a change |
| FixedAgent.ContentChanges | client_agent_fixed.py:246-297 | an unusable reply changes nothing; a playlist in the reply replaces exactly a different held playlist; a media reply (without playlist) replaces exactly when the held media differs from it; an empty reply replaces exactly when something is held or the media attribute exists |
| FixedAgent.Installed | client_agent_fixed.py:267-297 | a playlist installs that playlist and clears the media; a media clears the playlist and holds that media; an empty reply clears both, setting `current_media` to None; never both held |
| FixedAgent.StopEffects | client_agent_fixed.py:551-567 | a held process is terminated and waited on for 3 s; it is killed and reaped exactly when it outlives the wait; nothing happens without a process |
| FixedAgent.CommandEffects | client_agent_fixed.py:308-325 | only `reboot` acts: it calls reboot, and a failed call adds one error log |
| FixedAgent.ManifestEntries | client_agent_fixed.py:437-451 | the manifest's media lines are exactly the paths of the items whose file exists, in item order (an empty name joins to the media directory, which exists); missing files are left out and duration lines are not media lines |
| FixedAgent.ManifestBodyNoNewlines | client_agent_fixed.py:439-450 | with newline-free names, every manifest line is newline-free, so each lands on a line of its own |
| FixedAgent.ManifestCount | client_agent_fixed.py:437-459 | the count that decides the launch equals the number of items whose file is cached |
| FixedAgent.DownloadKeepsUnnamed | client_agent_fixed.py:327-363 | a download sweep never touches a cached file that no item names |
| FixedAgent.DownloadSkipsComplete | client_agent_fixed.py:334-339 | when every item's file is cached with its announced `file_size` (0 when the key is missing), the sweep requests and writes nothing |
| FixedAgent.MissingNameAbandons | client_agent_fixed.py:440-441 | an item without `filename` abandons the manifest, keeping only the lines written before it |
| FixedAgent.FixedClient.constructor | client_agent_fixed.py:38-45 | a new agent holds no playlist and no process, has index 0 and no `current_media` attribute |
| FixedAgent.FixedClient.StopCurrentMedia | client_agent_fixed.py:551-567 | the handle is None afterwards, reached by terminate, a 3 s wait and, on timeout, kill |
| FixedAgent.FixedClient.MonitorPlayback | client_agent_fixed.py:572-578 | returns true and clears the handle exactly when a handle exists and its process has exited; otherwise the handle is kept |
| FixedAgent.FixedClient.ExecuteCommand | client_agent_fixed.py:308-325 | `reboot` stops the player and then calls reboot; any other command changes nothing |
| FixedAgent.FixedClient.FetchContent | client_agent_fixed.py:234-306 | keeps the two assignments exclusive; replaces them exactly as ContentChanges says, stopping the player and restarting the index at 0; otherwise only the request is recorded and the state is unchanged |
| FixedAgent.FixedClient.CheckPlaylistStatus | client_agent_fixed.py:157-232 | an unusable reply returns false and changes nothing; a `command` key (even null) goes to execute_command and returns true without comparing content, only `reboot` stopping the player and rebooting; otherwise the comparison as written (DetectChange) decides: a change stops the player before the content is fetched and the result is the fetch's; no change, or a failed comparison once `current_media` is None, returns false with nothing stopped, fetched or changed |
| FixedAgent.FixedClient.DownloadMedia | client_agent_fixed.py:327-363 | the directory and effects are exactly those of the item-by-item sweep; a missing `filename` ends it |
| FixedAgent.FixedClient.StartVlcContinuousPlaylist | client_agent_fixed.py:468-549 | the held process is always stopped first; VLC is then started on the manifest, and the new handle is kept exactly when the launch succeeds |
| FixedAgent.FixedClient.WriteManifestBody | client_agent_fixed.py:439-450 | the loop writes exactly the manifest lines of the items, stopping at the first item without `filename` |
| FixedAgent.FixedClient.CreateAndPlayVlcPlaylist | client_agent_fixed.py:431-466 | the manifest text is the header and the item lines, cut off after the lines written before the first item without a `filename` (the method then fails with no launch); no media line means no launch and no effect; otherwise the player is stopped and VLC launched, the new VLC handle being held when Popen succeeds and none otherwise; a launch implies some item's file exists |
| UpdatedAgent.FirstId | client_agent_updated.py:98-102 | None exactly when no line qualifies; otherwise the digits of the first qualifying line (one that contains `TeamViewer ID:` and whose stripped text after the last `:` is a non-empty digit string) |
| UpdatedAgent.TeamViewerId | client_agent_updated.py:90-109 | a probe that could not run, or exited non-zero, gives None; a successful run gives FirstId of its output split into lines, so any ID found is a digit string |
| UpdatedAgent.InfoLineQualifies | client_agent_updated.py:99-101 | `TeamViewer ID: <digits>` qualifies and yields the digits |
| UpdatedAgent.InfoLineParsed | client_agent_updated.py:96-102 | an output starting with that line reports those digits |
| UpdatedAgent.ParseCommand | client_agent_updated.py:323-339 | `reboot` and `restart` exactly; the `log:` prefix exactly, carrying the text after it; everything else ignored |
| UpdatedAgent.ForwardLogRoundTrip | client_agent_updated.py:337-339 | a `log:` command forwards exactly the message it was built from |
| UpdatedAgent.StopEffects | client_agent_updated.py:308-321 | nothing happens without a held process; a held one is terminated and waited on for 5 s first |
| UpdatedAgent.StopKillsExactly | client_agent_updated.py:308-321 | the kill, with no second wait, comes exactly when the process is still running and outlives the wait |
| UpdatedAgent.LaunchEffects | client_agent_updated.py:381-395 | the stop always comes first |
| UpdatedAgent.LaunchSpawnsExactly | client_agent_updated.py:381-398 | a spawn, and the wait for the exit, follow exactly when the launch succeeds |
| UpdatedAgent.RefetchExactlyOnNewKey | client_agent_updated.py:218-224 | no refetch exactly when the held playlist has the reported id and timestamp; holding nothing always refetches |
| UpdatedAgent.StreamSource | client_agent_updated.py:271-278 | `stream_url or url` is returned unchanged exactly when it starts with http://, https://, rtmp://, rtmps:// or rtsp://; otherwise None |
| UpdatedAgent.Resolve | client_agent_updated.py:264-306 | streams and cached files need no request and leave the cache alone; no file name, or an uncached file without a URL, gives None without a request; otherwise one download is made, and a path is returned exactly when it completed; existing files never change |
| UpdatedAgent.ResolveIdempotent | client_agent_updated.py:288-289 | once an item has resolved, resolving it again makes no request and gives the same source |
| UpdatedAgent.PartialFileServed | client_agent_updated.py:288-306 | an interrupted transfer returns None but leaves the partial file, which every later call returns as the media |
| UpdatedAgent.ResolveFromShape | client_agent_updated.py:401-405 | the loop records one result per item, in order, and each present result is a source of its item |
| UpdatedAgent.ResolvedPathsInOrder | client_agent_updated.py:401-408 | the paths handed to the manifest are sources of the items, in item order, with the failures dropped |
| UpdatedAgent.Extension | client_agent_updated.py:426 | `splitext` gives "" or a suffix of the path that starts with its one dot and holds no slash |
| UpdatedAgent.EntryList | client_agent_updated.py:419-429 | one expected media line per path: the URL itself for a verbatim prefix, the absolute path otherwise |
| UpdatedAgent.PathLinesEntries | client_agent_updated.py:421-429 | the lines of one path hold exactly one media line (a duration line only before an image) |
| UpdatedAgent.ManifestEntries | client_agent_updated.py:419-429 | every media path becomes exactly one media line, in order |
| UpdatedAgent.AsWrittenPrefixes | client_agent_updated.py:273 | every accepted scheme and every verbatim prefix can only start a media line |
| UpdatedAgent.RtmpsStreamMangled | client_agent_updated.py:422-425 | as written, an rtmps:// stream that download_media accepts is written to the manifest as a path under the working directory |
| UpdatedAgent.StreamWrittenVerbatimIntended | client_agent_updated.py:422 | with the accepted schemes as the verbatim list, every resolved stream is written as its own URL |
| UpdatedAgent.UpdatedClient.constructor | client_agent_updated.py:38-48 | a new agent holds nothing, has index 0, and has not probed TeamViewer |
| UpdatedAgent.UpdatedClient.StopCurrentMedia | client_agent_updated.py:308-321 | the handle is None afterwards; the effects are terminate, a 5 s wait and, on timeout, kill |
| UpdatedAgent.UpdatedClient.ExecuteCommand | client_agent_updated.py:323-339 | reboot and restart stop the player and then reboot or re-exec; `log:` forwards its message; other commands change nothing |
| UpdatedAgent.UpdatedClient.CacheTeamViewerId | client_agent_updated.py:120-125 | the probe runs on the first check-in only; afterwards the cached ID is kept unchanged |
| UpdatedAgent.UpdatedClient.HandleCheckinReply | client_agent_updated.py:142-159 | a reply is returned unless the request failed or its command is null; a present command is executed: log, reboot, restart or ignored |
| UpdatedAgent.UpdatedClient.SendCheckin | client_agent_updated.py:111-159 | TeamViewer is probed on the first check-in only, and its result is cached; the payload carries the current media and the cached ID; a command in the reply is executed; a null command makes the check-in fail |
| UpdatedAgent.UpdatedClient.FetchPlaylist | client_agent_updated.py:233-262 | replaces the playlist when none is held or the server's differs, stopping the player first and resetting the index to 0; otherwise the state is unchanged |
| UpdatedAgent.UpdatedClient.CheckPlaylistStatus | client_agent_updated.py:187-231 | a command takes precedence and returns true without touching the playlist or index: reboot and restart stop the player and then reboot or re-exec, `log:` forwards its text, others change nothing; a null command fails the check; when NeedsRefetch holds, the player is stopped before the fetch, the result is the fetch's and a replacing fetch sets the index to 0; otherwise false with nothing changed |
| UpdatedAgent.UpdatedClient.DownloadMedia | client_agent_updated.py:264-306 | the result, the cache and the requests are exactly those of Resolve |
| UpdatedAgent.UpdatedClient.ResolveItems | client_agent_updated.py:399-405 | the paths are the present results of resolving every item in order |
| UpdatedAgent.UpdatedClient.WriteManifestLines | client_agent_updated.py:419-429 | the loop writes `#EXTM3U` and then the lines of each path, in order, paths starting with one of the given prefixes written verbatim |
| UpdatedAgent.UpdatedClient.PlayContinuousPlaylist | client_agent_updated.py:414-456 | the manifest text is written with the verbatim prefixes as written (no rtmps://, see Findings); with VLC found, the held process is stopped, VLC is started on the manifest and waited for |
| UpdatedAgent.UpdatedClient.Launch | client_agent_updated.py:385-398 | the held process is stopped, then the command is started and waited for when the launch succeeds |
| UpdatedAgent.UpdatedClient.PlaySingleItem | client_agent_updated.py:376-398 | the one item is resolved; a resolved source with VLC found is played directly with the base command |
| UpdatedAgent.UpdatedClient.PlayCurrentPlaylist | client_agent_updated.py:367-412 | no items: nothing happens; one item is played directly when it resolves; several are resolved in order, and the manifest, written with the verbatim prefixes as written, is played only when at least one resolved |
| LegacyAgent.DetectMediaPlayer | client_agent.py:61-73 | the first player, in omxplayer, vlc, ffplay order, whose probe runs; None exactly when none runs |
| LegacyAgent.Position | client_agent.py:240-246 | an index inside the playlist plays itself; past the end it wraps to 0 exactly when `loop` is missing or true |
| LegacyAgent.FirstPass | client_agent.py:240-263 | until the end is reached, the t-th play is item t |
| LegacyAgent.RoundRobin | client_agent.py:240-263 | a looping playlist comes round with period equal to its length, for ever |
| LegacyAgent.PlaysOnceWithoutLoop | client_agent.py:240-263 | a non-looping playlist plays every item once and then nothing |
| LegacyAgent.Duration | client_agent.py:252 | the item's `duration` when present, else the playlist's `default_duration` when present, else 10; a null stays null |
| LegacyAgent.WaitBound | client_agent.py:205-212 | a bounded wait exactly for a truthy duration |
| LegacyAgent.StopEffects | client_agent.py:220-230 | only a running process is stopped: terminate and a 5 s wait, then kill exactly when it outlives the wait |
| LegacyAgent.WaitEffects | client_agent.py:205-212 | without a bound the agent waits for the exit; with one it first waits that long, and the player is terminated, and its exit waited for, exactly when it did not end first |
| LegacyAgent.Resolve | client_agent.py:147-170 | no `filename` raises; a cached file, or the empty name, is returned without a request; an uncached file with a URL is downloaded once, and its path is returned exactly when the transfer completed; existing files never change |
| LegacyAgent.ResolveCachedStable | client_agent.py:152-153 | a returned file is returned again by every later call, with no request |
| LegacyAgent.Referenced | client_agent.py:267-269 | the kept names are exactly the items' filenames; an item without one aborts the cleanup |
| LegacyAgent.Evicted | client_agent.py:271-278 | a file is removed exactly when it is unreferenced and more than 86400 s old; the files kept are unchanged |
| LegacyAgent.EvictionKeeps | client_agent.py:271-276 | referenced files and files younger than a day survive the cleanup |
| LegacyAgent.EvictionIdempotent | client_agent.py:265-281 | a second cleanup at the same time removes nothing more |
| LegacyAgent.FreshDownloadSurvives | client_agent.py:161-163 | a file just downloaded is not evicted by a cleanup at the same time |
| LegacyAgent.LegacyClient.constructor | client_agent.py:34-41 | a new agent holds nothing, has index 0, and records the first player, in omxplayer, vlc, ffplay order, whose probe runs; none exactly when no probe runs |
| LegacyAgent.LegacyClient.SendCheckin | client_agent.py:75-82 | the reported current media is CurrentMediaName of the held playlist and index |
| LegacyAgent.LegacyClient.FetchPlaylist | client_agent.py:124-145 | replaces the playlist and resets the index to 0 exactly when the server's differs; otherwise nothing changes |
| LegacyAgent.LegacyClient.StopCurrentMedia | client_agent.py:220-230 | a running process is terminated and, on timeout, killed; the handle is kept but no longer running |
| LegacyAgent.LegacyClient.DownloadMedia | client_agent.py:147-170 | the result, the cache and the requests are exactly those of Resolve |
| LegacyAgent.LegacyClient.PlayMedia | client_agent.py:172-218 | fails without a player, doing nothing; otherwise it stops the current player and, when Popen succeeds, starts the new one and waits as WaitEffects says, holding the waited-for handle; true exactly when the launch succeeds |
| LegacyAgent.LegacyClient.PlayPlaylist | client_agent.py:232-263 | no items: idle; past the end, wrap or finish; a missing `filename` raises with the index on the item and nothing else changed; otherwise the index advances by exactly one after a successful play, a failed play or a failed download; a failed download or play is logged; a play has play_media's effects and leaves its handle |
| LegacyAgent.LegacyClient.CleanupOldMedia | client_agent.py:265-281 | the directory afterwards is exactly Evicted of the old one; an item without `filename` leaves it untouched |
| Routes.Extension | routes.py:17 | `rsplit('.', 1)[1]`: None exactly when there is no dot; otherwise the dot-free text after the last dot |
| Routes.ExtensionIsLastDot | routes.py:17 | any dot with no later dot is the one the split happens at |
| Routes.AllowedFile | routes.py:16-17 | true exactly when the name has a dot whose lower-cased, dot-free remainder is on the whitelist |
| Routes.FileType | routes.py:176 | `video` exactly for mp4, avi, mov, mkv and webm; `image` otherwise |
| Routes.UploadMedia | routes.py:157-192 | no file or an empty name is refused; a name off the whitelist is invalid; a sanitized name without a dot crashes; otherwise it stores hex + `.` + the lower-cased extension, with the sanitized original name and the type of that extension |
| Routes.StoredNameKeepsExtension | routes.py:169-176 | the stored name's extension is the lower-cased extension of the sanitized name; its type is the recorded type; it passes the whitelist exactly when that extension does |
| Routes.TakeCommand | routes.py:335-342 | a non-empty pending command is delivered with its timestamp and then cleared; otherwise nothing is delivered and nothing changes; either way nothing deliverable stays pending |
| Routes.StatusTarget | routes.py:367-390 | an active stored playlist gives (id, None, `updated_at`); otherwise a stored media file gives (None, id, `created_at`); otherwise all three are None; never both ids |
| Routes.ItemDuration | routes.py:422 | the item's duration when truthy, else the playlist default |
| Routes.ItemPayload | routes.py:416-424 | an item carries the media id, the stored file name, the resolved duration and the upload URL |
| Routes.ItemPayloads | routes.py:416-424 | one payload per playlist item, in order; None exactly when some item's media file is missing |
| Routes.PlaylistPayload | routes.py:407-414 | the descriptor carries the id, `loop`, `default_duration`, `updated_at` as `last_updated`, and the items |
| Routes.MediaPayload | routes.py:431-441 | an image gets a duration of 10, anything else null; `last_updated` is `created_at` |
| Routes.ContentFor | routes.py:395-447 | a missing or inactive playlist gives nothing; an active one gives its descriptor with the resolved items, or a server error exactly when some item's file is missing; with no playlist id, a stored media file gives its descriptor and anything else gives nothing; never both |
| Routes.StatusMatchesContent | routes.py:347-447 | the status and content endpoints agree on the id and `last_updated` of what they name, and both are empty together |
| Routes.ContentItems | routes.py:416-424 | the loop builds exactly ItemPayloads |
| Routes.CellAt | routes.py:273-282 | a blank id is skipped; a non-numeric id, or a missing or non-numeric duration, raises; otherwise a row at `order_index` i, with a blank duration stored as None |
| Routes.Cells | routes.py:273-282 | one optional row per submitted position |
| Routes.NewItems | routes.py:273-282 | None exactly when some position raises |
| Routes.NewItemsInOrder | routes.py:273-282 | every row's `order_index` is its position in the form, with that position's id and duration; the indexes increase; every non-blank id has its row, so blank ids are skipped without renumbering |
| Routes.BuildItems | routes.py:273-282 | the loop builds exactly NewItems |
| Routes.UpdatePlaylist | routes.py:255-289 | the settings are replaced, `updated_at` becomes now and the items are rebuilt; a form that raises commits nothing |
| Routes.DeleteMedia | routes.py:197-214 | refused exactly while some playlist item uses the file; otherwise the file leaves the catalogue and every item still resolves |
| Routes.DeletePlaylist | routes.py:291-305 | refused exactly while some device is assigned the playlist; otherwise it leaves the catalogue and every assignment still resolves |
| Routes.Device.constructor | routes.py:54-75 | a new device is offline, unassigned and has no pending command |
| Routes.Device.Assign | routes.py:77-119 | assigning a playlist needs an active stored playlist and clears the media; assigning media needs a stored file and clears the playlist; a blank id clears its own kind; any other type clears both; a refused form changes nothing; at most one assignment is set |
| Routes.Device.RequestReboot | routes.py:138-148 | `reboot` is left pending with its time, and the next response delivers it |
| Routes.Device.Checkin | routes.py:313-345 | the device is online at now with the reported media; the response names both assignments and delivers the pending command, which is cleared |
| Routes.Device.PlaylistStatus | routes.py:347-392 | the response is StatusTarget of the assignment and delivers the pending command, which is cleared; nothing else changes |
| Routes.Device.ContentReplyFor | routes.py:395-447 | the reply is ContentFor of the device's assignment |
| Protocol.UpdatedStatus | routes.py:352-390 | a status response as the updated agent reads it; a command is present exactly when one was delivered |
| Protocol.FixedStatus | routes.py:352-390 | a status response as the fixed agent reads it: the same ids and timestamp; a command present exactly when one was delivered, with the delivered text; never a null command |
| Protocol.FixedContent | routes.py:395-447 | a server error reaches the fixed agent as an unusable reply; any other reply reaches it unchanged |
| Protocol.UpdatedInStepAfterFetch | client_agent_updated.py:218-224 | holding the playlist the content endpoint sent, the updated agent's next status check refetches nothing |
| Protocol.UpdatedRefetchesAfterEdit | client_agent_updated.py:218-224 | an edit that moves the playlist's `updated_at` makes the updated agent refetch |
| Protocol.FixedBlindAfterPlaylistFetch | client_agent_fixed.py:199-229 | after installing a playlist, the fixed agent's check fails whatever the server reports, even after an edit, while the intended comparison sees the edit |
| Protocol.LegacyPlaysServerDuration | client_agent.py:252 | a server-built item always carries `duration`, so the legacy agent plays the server's resolved duration and never its own fallback |
| Protocol.FixedImageExtension | client_agent_fixed.py:445 | among the whitelisted extensions, the fixed agent's image list is exactly those the server records as images |
| Protocol.UpdatedImageExtension | client_agent_updated.py:427 | among the whitelisted extensions, the updated agent's image list is exactly those the server records as images |
| Protocol.FixedSeesServerType | client_agent_fixed.py:445 | the fixed agent's image test on a name ending in a whitelisted extension agrees with the server's type |
| Protocol.SplitextOfStoredName | client_agent_updated.py:426 | `splitext` of a cached stored upload is its dot and extension |
| Protocol.UpdatedSeesServerType | client_agent_updated.py:426-428 | the updated agent's image test on a cached stored upload agrees with the server's type |
| Protocol.AgentsAgreeOnUploadType | routes.py:169-176 | for every upload the server stores, both newer agents take the file for an image exactly when the server recorded it as one |

## Left out

- HTTP, subprocesses, the file system and the clock are parameters:
  - a reply is a datatype of its possible shapes;
  - a download `Fetch` is `Fetched`, `Refused` or `Interrupted`;
  - whether the player exits in time is `graceful`, and whether `Popen`
    succeeds is `launchOk`;
  - whether a player binary runs is a set;
  - the cache is a map from name to size and mtime;
  - "now" is an integer.
- Concurrency is left out: the rapid-check thread, the `Lock`, the stop
  event and the agents' `run` polling loops. Every operation is modelled as
  one sequential call.
- Logging, `time.sleep` and `datetime` strings are left out. Timestamps are
  opaque strings supplied by the caller.
- VLC and player flags, the display-environment probing and the debug log
  (client_agent_fixed.py:476-533) appear only as the argv lists they build.
- String operations cover ASCII only: `lower`, `isdigit` and `strip` on
  non-ASCII text are not modelled (`strip` removes the ASCII whitespace,
  including the separators \x1c to \x1f, but not \x85 or \xa0).
- EntryLines: a file name that starts with `/` makes `Path(MEDIA_DIR) / name`
  that absolute path in client_agent_fixed.py; the model joins it under the
  media directory. The server never stores such a name.
- DownloadFrom: an empty `filename` names the media directory itself in
  client_agent_fixed.py:331-363, whose size `stat` reports and which `open`
  cannot write; the model treats it as an ordinary file name. The server
  never stores an empty name.
- M3U.MediaCount: the re-read of client_agent_fixed.py:453 opens the
  manifest in text mode, which turns `\r` and `\r\n` into `\n`; the model
  splits on `\n` only, so it matches the source for names without `\r`.
- `os.path.abspath` resolves a relative path against the working directory
  without normalising `..`, `.` or doubled slashes.
- `secure_filename` and `uuid4().hex` are inputs of `Routes.UploadMedia`.
  Their outputs are taken as given, so the model does not know what
  sanitisation keeps.
- `url_for` is modelled as base URL + `/uploads/` + name, without URL
  quoting.
- `int()` on form fields is abstracted as `FormId` (blank, a number, or text
  `int()` rejects):
  - `update_playlist` parses `name` and `default_duration` itself, and a bad
    `default_duration` raising there is not modelled; `UpdatePlaylist` takes
    them already parsed.
  - `add_playlist`, `edit_playlist`, `delete_device`, the page handlers, the
    downloads of agent scripts, `device_log` and `devices_status` are not
    modelled. They are template rendering, file serving, or plain row
    writes and reads with no rule the agents depend on.
- Database sessions, rollback after a failed commit, `get_or_404` and
  `flash`/redirects are left out. A handler's refusal is a result value, a
  raise inside a handler is a `None` or a `ServerError`, and an unknown
  device (404) is not modelled.
- The `ip_address` that `device_checkin` records is not modelled.
- models.py:36 declares `assigned_media_id`, but routes.py reads and writes
  `current_media_id`. The model follows routes.py and gives `Routes.Device`
  a `currentMediaId` field. The mismatch itself, an attribute the ORM does
  not map, is not modelled.
- The agents are not fully compatible with the server:
  - client_agent_fixed.py:347 downloads from `/media/download/<filename>`,
    but routes.py serves uploads at `/uploads/<filename>` (line 216);
  - client_agent.py:117 posts logs to `/log`, but the server's route is
    `/logs`.
  The model keeps each download outcome a parameter, so it neither relies
  on these paths nor shows their failures.
- In client_agent_fixed.py, these are not modelled: `send_checkin`,
  `send_log`, `play_content`, `play_individual_media`, `play_playlist`,
  `run`, `cleanup` and `signal_handler`.
  - Its `send_checkin` reports the current media exactly as
    `Content.CurrentMediaName` states, and runs `execute_command`
    (`FixedClient.ExecuteCommand`) on a command.
  - The play routines only check that files exist and choose between
    `create_and_play_vlc_playlist` and the player: I/O plumbing around the
    modelled operations.
- In client_agent_updated.py, these are not modelled: `run`, `main`,
  `signal_handler`, `send_log` and `detect_media_player`. The agent's
  `detect_media_player` is reduced to the `vlcFound` flag, since only VLC
  has a command list there.
- In client_agent.py, `run`, `signal_handler` and `send_log` are not
  modelled. A `send_log` call appears as a `SendLog` effect. `send_checkin`'s
  HTTP reply is not used by the agent and is left out.
- `os.execv` (the `restart` command) is the effect `ExecSelf`. What follows
  it, a fresh agent process, is not modelled.
- FixedAgent.FixedClient.StopCurrentMedia: an exception other than the
  timeout while stopping is not modelled. The source logs it, and because
  `self.current_process = None` (client_agent_fixed.py:566) sits inside the
  `try`, the handle stays set; the model always clears it.
- LegacyAgent.LegacyClient.StopCurrentMedia: an exception other than the
  timeout from `terminate` or `wait` is not modelled. client_agent.py:229-230
  logs it and the process keeps running; the model always marks it stopped.
- FixedAgent.CommandEffects: `subprocess.run(['sudo', 'reboot'])` raising
  OSError (no `sudo` binary) is not modelled. Only CalledProcessError is
  caught at client_agent_fixed.py:321, so the error would escape
  `execute_command` and `check_playlist_status` would return False
  (client_agent_fixed.py:228-232) instead of True.
- UpdatedAgent.UpdatedClient.ExecuteCommand: `subprocess.run` raising
  OSError at client_agent_updated.py:330 is not modelled. Nothing catches it
  there, so `check_playlist_status` would return False
  (client_agent_updated.py:227-231) instead of True.
- Content.Item: `original_filename` is always present in the model, as the
  server always sends it. A missing key raises in the source:
  - at client_agent.py:259 and :262, before `current_media_index += 1`, so
    the same item would be retried for ever;
  - at client_agent.py:82, so no check-in is sent;
  - at client_agent_fixed.py:279, so nothing is installed;
  - at client_agent_updated.py:274, outside any `try`.
- Cache.LocalPath: `os.path.join(MEDIA_DIR, name)` with a name that starts
  with `/` gives that name itself (client_agent.py:150,
  client_agent_updated.py:286); the model always joins it under the media
  directory. The server never stores such a name.
- UpdatedAgent.UpdatedClient.StopCurrentMedia: an exception other than the
  timeout while stopping, which leaves the handle set in the source, is not
  modelled.
- LegacyAgent.LegacyClient.PlayMedia: an exception raised by `Popen` and
  caught inside `play_media` becomes `launchOk == false`. A failure of the
  bounded wait itself is not modelled.

## Findings

| source | as written | input that shows it | evidently intended | confidence | as-written member | corrected member |
|---|---|---|---|---|---|---|
| client_agent_fixed.py:199 | `getattr(self, 'current_media', {}).get('id')` raises AttributeError once `fetch_content` has set `current_media` to None, which it does on every playlist fetch. The handler at line 229 swallows it, so the status check always returns False | a playlist 5 held with `last_updated` T1 and `current_media` None; the server reports playlist 5 with T2 | a None `current_media` reads as holding no media, and the edit (same id, new timestamp) is detected as a change | not executed | FixedAgent.PlaylistEditMissedAfterFetch | FixedAgent.DetectChangeIntended |
| client_agent_updated.py:422 | `download_media` accepts `rtmps://` stream URLs (line 273), but the manifest writer's verbatim list omits `rtmps://`. Such a URL is written as `abspath` of it, a path under the working directory | a stream item with `url` `rtmps://host/live` in a playlist of two or more items | every accepted stream URL is written to the manifest as it is | not executed | UpdatedAgent.RtmpsStreamMangled | UpdatedAgent.StreamWrittenVerbatimIntended |
