/** internal/services/youtube/ytdlp.go: the yt-dlp client. The yt-dlp
    run itself is an input: whether it exited cleanly, and what it wrote
    to standard output and standard error. JSON decoding of the output is
    an input as well. */
module Ytdlp {
  import opened Text
  import opened Domain

  /** How one yt-dlp run ended. */
  datatype Run = Run(ok: bool, stdout: string, stderr: string)

  /** One element of the `entries` array (absent fields decode as ""). */
  datatype Entry = Entry(id: string, title: string, uploader: string, channel: string)

  datatype Failure =
    | ProcessFailed(detail: string)   // "yt-dlp failed with: <trimmed stderr>"
    | InvalidJson
    | NoUrl(songId: string)
    | RequestFailed
    | BadStatus(code: int)
    | NoInitialData
    | NoResults

  datatype Result<T> = Ok(value: T) | Err(error: Failure)

  /** executeYTDLP's argument list: `--cookies <path>` in front exactly
      when a cookies path is configured. */
  function WithCookies(cookiesPath: string, args: seq<string>): (r: seq<string>)
    ensures cookiesPath == "" ==> r == args
    ensures cookiesPath != "" ==> |r| == |args| + 2 && r[..2] == ["--cookies", cookiesPath] && r[2..] == args
  {
    if cookiesPath != "" then ["--cookies", cookiesPath] + args else args
  }

  /** The outcome of executeYTDLP: stdout on success, the trimmed stderr
      as the failure otherwise. */
  function Execute(run: Run): (r: Result<string>)
    ensures r.Ok? <==> run.ok
    ensures r.Ok? ==> r.value == run.stdout
    ensures !run.ok ==> r == Err(ProcessFailed(TrimSpace(run.stderr)))
  {
    if run.ok then Ok(run.stdout) else Err(ProcessFailed(TrimSpace(run.stderr)))
  }

  /** The artist of an entry: its uploader, or its channel when the
      uploader is empty. */
  function ArtistOf(e: Entry): (r: string)
    ensures e.uploader != "" ==> r == e.uploader
    ensures e.uploader == "" ==> r == e.channel
  {
    if e.uploader == "" then e.channel else e.uploader
  }

  function ToSong(e: Entry): Song
  {
    Song(e.id, e.title, [ArtistOf(e)])
  }

  /** The songs of a search, entry by entry. */
  function Songs(entries: seq<Entry>): (r: seq<Song>)
    ensures |r| == |entries|
    ensures forall i :: 0 <= i < |entries| ==>
      r[i].id == entries[i].id && r[i].title == entries[i].title && r[i].artists == [ArtistOf(entries[i])]
  {
    if entries == [] then [] else Songs(entries[..|entries| - 1]) + [ToSong(entries[|entries| - 1])]
  }

  /** Search's mapping loop. */
  method SongsOf(entries: seq<Entry>) returns (songs: seq<Song>)
    ensures songs == Songs(entries)
  {
    songs := [];
    for i := 0 to |entries|
      invariant songs == Songs(entries[..i])
    {
      assert entries[..i + 1][..i] == entries[..i];
      songs := songs + [ToSong(entries[i])];
    }
    assert entries[..|entries|] == entries;
  }

  /** The arguments of a search: five results for the query. */
  function SearchArgs(cookiesPath: string, query: string): (r: seq<string>)
    ensures cookiesPath == "" ==> r == ["--dump-single-json", "--", "ytsearch5:" + query]
    ensures cookiesPath != "" ==> r == ["--cookies", cookiesPath, "--dump-single-json", "--", "ytsearch5:" + query]
  {
    WithCookies(cookiesPath, ["--dump-single-json", "--", "ytsearch5:" + query])
  }

  /** Search: `parsed` is json.Unmarshal of the run's output. */
  method Search(run: Run, parsed: Option<seq<Entry>>) returns (r: Result<seq<Song>>)
    ensures r.Err? <==> !run.ok || parsed.None?
    ensures !run.ok ==> r == Err(ProcessFailed(TrimSpace(run.stderr)))
    ensures run.ok && parsed.None? ==> r == Err(InvalidJson)
    ensures r.Ok? ==> r.value == Songs(parsed.value)
  {
    var output := Execute(run);
    if output.Err? {
      return Err(output.error);
    }
    if parsed.None? {
      return Err(InvalidJson);
    }
    var songs := SongsOf(parsed.value);
    return Ok(songs);
  }

  /** The arguments of a stream-URL lookup. */
  function StreamUrlArgs(cookiesPath: string, songId: string): (r: seq<string>)
    ensures cookiesPath == "" ==> r == ["-f", "bestaudio/best", "-g", "--", songId]
    ensures cookiesPath != "" ==> r == ["--cookies", cookiesPath, "-f", "bestaudio/best", "-g", "--", songId]
  {
    WithCookies(cookiesPath, ["-f", "bestaudio/best", "-g", "--", songId])
  }

  /** GetStreamURL's handling of yt-dlp's output: empty once trimmed is an
      error; otherwise the first line of the trimmed text. */
  function FirstUrl(output: string, songId: string): (r: Result<string>)
    ensures r.Err? <==> forall i :: 0 <= i < |output| ==> IsSpace(output[i])
    ensures r.Err? ==> r.error == NoUrl(songId)
    ensures r.Ok? ==> r.value != [] && '\n' !in r.value && HasPrefix(TrimSpace(output), r.value)
    ensures r.Ok? ==> r.value == TrimSpace(output) || HasPrefix(TrimSpace(output)[|r.value|..], "\n")
    ensures r.Ok? && '\n' !in TrimSpace(output) ==> r.value == TrimSpace(output)
  {
    var url := TrimSpace(output);
    if url == [] then Err(NoUrl(songId))
    else
      var first := Before(url, "\n");
      assert first == [] ==> HasPrefix(url, "\n") by {
        if first == [] {
          assert url[|first|..] == url;
        }
      }
      assert '\n' !in first by {
        forall j | 0 <= j < |first| ensures first[j] != '\n' {
          assert first[j] == '\n' ==> OccursAt(first, "\n", j);
        }
      }
      assert '\n' !in url ==> !Contains(url, "\n") by {
        if Contains(url, "\n") {
          var j :| 0 <= j <= |url| - 1 && OccursAt(url, "\n", j);
          assert url[j] == url[j..j + 1][0];
        }
      }
      Ok(first)
  }

  /** GetStreamURL */
  function GetStreamUrl(run: Run, songId: string): (r: Result<string>)
    ensures !run.ok ==> r == Err(ProcessFailed(TrimSpace(run.stderr)))
    ensures run.ok ==> r == FirstUrl(run.stdout, songId)
  {
    match Execute(run)
    case Err(e) => Err(e)
    case Ok(output) => FirstUrl(output, songId)
  }
}
