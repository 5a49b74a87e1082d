// What the agents do to the world outside them, recorded in order, and the
// pieces of world state they observe: the player process handle, the media
// cache directory, the outcome of one file download, and the M3U file text.
module Effects {

  /** One externally visible action of an agent, in the order performed. */
  datatype Effect =
    | Terminate                    // SIGTERM to the player process
    | WaitFor(seconds: int)        // wait for the player's exit, at most `seconds`
    | WaitUntilExit                // wait for the player's exit without a bound
    | Kill                         // SIGKILL to the player process
    | Spawn(argv: seq<string>)     // a new player process started with this command line
    | ContentRequest               // GET /api/devices/<id>/playlist
    | Download(name: string)       // GET of one media file into the cache
    | RebootCall                   // `sudo reboot`
    | ExecSelf                     // os.execv of the agent itself
    | SendLog(kind: string, message: string)   // POST to the device log endpoint

  /**
   * A player process the agent started. `reaped` is true once the agent has
   * waited for its exit, so that `poll()` no longer reports it running.
   */
  datatype Handle = Handle(argv: seq<string>, reaped: bool)
}

module Cache {
  import opened Common

  /** A file in the media directory: its size in bytes and its mtime in seconds. */
  datatype CachedFile = CachedFile(size: nat, mtime: int)

  /**
   * How one download request ends. The agents write straight to the final
   * path, so an interrupted transfer leaves the bytes written so far behind.
   */
  datatype Fetch =
    | Fetched(size: nat)           // 2xx, body written completely
    | Refused                      // error status or transport error before the file was opened
    | Interrupted(written: nat)    // error while streaming into the already-opened file

  /** The outcome of the i-th download, a refusal when the environment gives none. */
  function FetchAt(fetches: seq<Fetch>, i: nat): Fetch
  {
    if i < |fetches| then fetches[i] else Refused
  }

  /** The media directory after one download of `name` ended with `f` at time `now`. */
  function AfterFetch(files: map<string, CachedFile>, name: string, f: Fetch, now: int): (r: map<string, CachedFile>)
    ensures r.Keys == if f.Refused? then files.Keys else files.Keys + {name}
    ensures forall n :: n in files && n != name ==> n in r && r[n] == files[n]
    ensures f.Fetched? ==> r[name] == CachedFile(f.size, now)
    ensures f.Interrupted? ==> r[name] == CachedFile(f.written, now)
    ensures f.Refused? ==> r == files
  {
    match f
    case Fetched(size) => files[name := CachedFile(size, now)]
    case Refused => files
    case Interrupted(written) => files[name := CachedFile(written, now)]
  }

  /** `os.path.join(MEDIA_DIR, filename)` for a plain file name. */
  function LocalPath(dir: string, name: string): string
  {
    dir + "/" + name
  }
}

module M3U {
  import opened Common

  const Header: string := "#EXTM3U"
  const ImageDuration: string := "#EXTVLCOPT:image-duration=10"

  /** The file text as the agents write it: every line followed by a newline. */
  function Text(lines: seq<string>): string
  {
    if lines == [] then "" else lines[0] + "\n" + Text(lines[1..])
  }

  /** A line that names media: non-empty and not a `#` directive. */
  predicate IsEntry(line: string)
  {
    line != "" && line[0] != '#'
  }

  /** The media lines among `lines`, in order. */
  function Entries(lines: seq<string>): seq<string>
  {
    if lines == [] then [] else (if IsEntry(lines[0]) then [lines[0]] else []) + Entries(lines[1..])
  }

  /** The count of client_agent_fixed.py: split the text read back on newlines, count entries. */
  function MediaCount(text: string): nat
  {
    |Entries(Split(text, '\n'))|
  }

  predicate NoNewlines(lines: seq<string>)
  {
    forall k :: 0 <= k < |lines| ==> '\n' !in lines[k]
  }

  lemma {:induction false} EntriesAppend(a: seq<string>, b: seq<string>)
    ensures Entries(a + b) == Entries(a) + Entries(b)
    decreases |a|
  {
    if a == [] {
      assert a + b == b;
    } else {
      assert (a + b)[1..] == a[1..] + b;
      EntriesAppend(a[1..], b);
    }
  }

  lemma EntriesSingle(line: string)
    ensures Entries([line]) == if IsEntry(line) then [line] else []
  {
    var one: seq<string> := [line];
    assert one[1..] == [];
  }

  lemma NoNewlinesTail(lines: seq<string>)
    requires lines != [] && NoNewlines(lines)
    ensures '\n' !in lines[0] && NoNewlines(lines[1..])
  {
    forall k | 0 <= k < |lines[1..]| ensures '\n' !in lines[1..][k] {
      assert lines[1..][k] == lines[k + 1];
    }
  }

  /** Splitting a line, a newline and a remainder yields the line first. */
  lemma SplitLine(l: string, rest: string)
    requires '\n' !in l
    ensures Split(l + "\n" + rest, '\n') == [l] + Split(rest, '\n')
  {
    var t := l + "\n" + rest;
    assert t[..|l|] == l;
    assert t[|l|] == '\n';
    assert t[|l| + 1..] == rest;
  }

  /** Reading back the written text and splitting on newlines gives the lines and one empty tail. */
  lemma {:induction false} SplitText(lines: seq<string>)
    requires NoNewlines(lines)
    ensures Split(Text(lines), '\n') == lines + [""]
    decreases |lines|
  {
    if lines == [] {
      assert IndexOf("", '\n') == None;
    } else {
      NoNewlinesTail(lines);
      var rest := Text(lines[1..]);
      SplitText(lines[1..]);
      assert Split(Text(lines), '\n') == [lines[0]] + (lines[1..] + [""]) by {
        assert Text(lines) == lines[0] + "\n" + rest;
        SplitLine(lines[0], rest);
      }
      assert lines == [lines[0]] + lines[1..];
    }
  }

  /** The count read back from the file equals the number of entry lines written. */
  lemma CountOfText(lines: seq<string>)
    requires NoNewlines(lines)
    ensures MediaCount(Text(lines)) == |Entries(lines)|
  {
    SplitText(lines);
    EntriesAppend(lines, [""]);
    assert Entries([""]) == [];
  }
}
