/** internal/services/youtube/youtube.go: the scraping client. The HTTP
    exchange and the yt-dlp run are inputs, and so is the jsonparser
    lookup of the embedded results, given as a function of the extracted
    text. */
module Youtube {
  import opened Text
  import opened Domain
  import opened Ytdlp

  /** The HTTP exchange of scrapeSearchResults. */
  datatype Response = Response(delivered: bool, status: int, readOk: bool, body: string)

  /** One element of the results array: `videoRenderer.videoId` when
      present, and the title and owner text (missing ones read as ""). */
  datatype Item = Item(videoId: Option<string>, title: string, uploader: string)

  /** One element of `sectionListRenderer.contents`: its
      `itemSectionRenderer.contents` array when present. */
  datatype Section = Section(items: Option<seq<Item>>)

  /** The lookup of `contents.twoColumnSearchResultsRenderer.primaryContents
      .sectionListRenderer.contents` in a JSON text. */
  type Lookup = string -> Option<seq<Section>>

  /** Search takes the yt-dlp path for anything that starts with "http". */
  predicate IsUrlQuery(query: string)
  {
    HasPrefix(query, "http")
  }

  /** getSongInfoFromURL: one song from yt-dlp's description of the URL,
      with the channel as artist when the uploader is empty. */
  function SongInfoFromUrl(run: Run, parsed: Option<Entry>): (r: Result<seq<Song>>)
    ensures r.Err? <==> !run.ok || parsed.None?
    ensures !run.ok ==> r == Err(ProcessFailed(TrimSpace(run.stderr)))
    ensures r.Ok? ==> |r.value| == 1 && r.value[0].id == parsed.value.id
                      && r.value[0].title == parsed.value.title
                      && r.value[0].artists == [ArtistOf(parsed.value)]
  {
    match Execute(run)
    case Err(e) => Err(e)
    case Ok(_) =>
      match parsed
      case None => Err(InvalidJson)
      case Some(entry) => Ok([ToSong(entry)])
  }

  /** The URL sent to yt-dlp is the query itself. */
  function UrlLookupArgs(cookiesPath: string, url: string): (r: seq<string>)
    ensures cookiesPath == "" ==> r == ["--dump-single-json", "--", url]
    ensures cookiesPath != "" ==> r == ["--cookies", cookiesPath, "--dump-single-json", "--", url]
  {
    WithCookies(cookiesPath, ["--dump-single-json", "--", url])
  }

  // ---------------------------------------------------------------------
  // Locating ytInitialData in the page

  const PrimaryMarker := "var ytInitialData = "
  const FallbackMarker := "window[\"ytInitialData\"] = "
  const ScriptEnd := ";</script>"

  /** `strings.Split(body, marker)[1]`: the text between the first and the
      second occurrence of the marker, when it occurs at all. */
  function SecondPiece(body: string, marker: string): (r: Option<string>)
    requires marker != []
    ensures r.Some? <==> Contains(body, marker)
    ensures r.Some? ==> !Contains(r.value, marker)
    ensures r.Some? ==> exists i :: OccursAt(body, marker, i) && HasPrefix(body[i + |marker|..], r.value)
                          && forall j :: 0 <= j < i ==> !OccursAt(body, marker, j)
  {
    match After(body, marker)
    case None => None
    case Some(rest) => Some(Before(rest, marker))
  }

  /** The JSON text of ytInitialData: after the primary marker, or after
      the fallback marker when the primary one is absent; cut at the next
      marker and then at the first `;</script>`. */
  function ExtractBlock(body: string): (r: Option<string>)
    ensures r.Some? <==> Contains(body, PrimaryMarker) || Contains(body, FallbackMarker)
    ensures r.Some? ==> !Contains(r.value, ScriptEnd)
    ensures Contains(body, PrimaryMarker) ==>
      r.Some? && HasPrefix(SecondPiece(body, PrimaryMarker).value, r.value)
    ensures !Contains(body, PrimaryMarker) && Contains(body, FallbackMarker) ==>
      r.Some? && HasPrefix(SecondPiece(body, FallbackMarker).value, r.value)
    ensures Contains(body, PrimaryMarker) ==>
      var piece := SecondPiece(body, PrimaryMarker).value;
      r.value == piece || HasPrefix(piece[|r.value|..], ScriptEnd)
    ensures !Contains(body, PrimaryMarker) && Contains(body, FallbackMarker) ==>
      var piece := SecondPiece(body, FallbackMarker).value;
      r.value == piece || HasPrefix(piece[|r.value|..], ScriptEnd)
  {
    var piece := if Contains(body, PrimaryMarker) then SecondPiece(body, PrimaryMarker)
                 else SecondPiece(body, FallbackMarker);
    match piece
    case None => None
    case Some(p) => Some(Before(p, ScriptEnd))
  }

  // ---------------------------------------------------------------------
  // Picking the results out of the JSON

  /** The item array of the last section that has one (every later match
      overwrites `resultsContents`). */
  function LastResults(sections: seq<Section>): (r: Option<seq<Item>>)
    ensures r.None? <==> forall i :: 0 <= i < |sections| ==> sections[i].items.None?
    ensures r.Some? ==> exists i :: 0 <= i < |sections| && sections[i].items == r
                          && forall j :: i < j < |sections| ==> sections[j].items.None?
  {
    if sections == [] then None
    else
      var last := sections[|sections| - 1];
      if last.items.Some? then last.items
      else
        var r := LastResults(sections[..|sections| - 1]);
        assert forall i :: 0 <= i < |sections| - 1 ==> sections[..|sections| - 1][i] == sections[i];
        r
  }

  /** The ArrayEach over the sections. */
  method FindResults(sections: seq<Section>) returns (results: Option<seq<Item>>)
    ensures results == LastResults(sections)
  {
    results := None;
    for i := 0 to |sections|
      invariant results == LastResults(sections[..i])
    {
      assert sections[..i + 1][..i] == sections[..i];
      if sections[i].items.Some? {
        results := sections[i].items;
      }
    }
    assert sections[..|sections|] == sections;
  }

  /** The song an item gives: one when it carries a videoId, none
      otherwise. */
  function VideoOf(item: Item): (r: seq<Song>)
    ensures item.videoId.None? <==> r == []
    ensures item.videoId.Some? ==> r == [Song(item.videoId.value, item.title, [item.uploader])]
  {
    match item.videoId
    case None => []
    case Some(id) => [Song(id, item.title, [item.uploader])]
  }

  /** The songs of the items that carry a videoId, in order, with the
      owner text as the only artist. */
  function Videos(items: seq<Item>): (r: seq<Song>)
    ensures |r| <= |items|
  {
    if items == [] then [] else VideoOf(items[0]) + Videos(items[1..])
  }

  /** Item by item, from the front: each item contributes its own song,
      if any, ahead of the songs of the items after it. */
  lemma {:induction false} VideosCons(item: Item, rest: seq<Item>)
    ensures Videos([item] + rest) == VideoOf(item) + Videos(rest)
  {
    assert ([item] + rest)[0] == item;
    assert ([item] + rest)[1..] == rest;
  }

  /** The songs of a concatenation are the songs of the parts, in order. */
  lemma {:induction false} VideosAppend(a: seq<Item>, b: seq<Item>)
    ensures Videos(a + b) == Videos(a) + Videos(b)
  {
    if a == [] {
      assert a + b == b;
    } else {
      assert (a + b)[0] == a[0];
      assert (a + b)[1..] == a[1..] + b;
      VideosAppend(a[1..], b);
    }
  }

  /** One more item at the back adds its own song, if any, at the back. */
  lemma VideosSnoc(items: seq<Item>, i: int)
    requires 0 <= i < |items|
    ensures Videos(items[..i + 1]) == Videos(items[..i]) + VideoOf(items[i])
  {
    assert items[..i + 1] == items[..i] + [items[i]];
    VideosAppend(items[..i], [items[i]]);
    assert [items[i]][1..] == [];
  }

  /** Every song comes from an item with that videoId, its title and its
      owner text. */
  lemma {:induction false} VideosFromItems(items: seq<Item>)
    ensures forall s :: s in Videos(items) ==>
      exists i :: 0 <= i < |items| && items[i].videoId == Some(s.id)
                  && s.title == items[i].title && s.artists == [items[i].uploader]
  {
    if items != [] {
      var rest := items[1..];
      VideosFromItems(rest);
      forall s | s in Videos(items)
        ensures exists i :: 0 <= i < |items| && items[i].videoId == Some(s.id)
                            && s.title == items[i].title && s.artists == [items[i].uploader]
      {
        if s in VideoOf(items[0]) {
          assert items[0].videoId == Some(s.id);
        } else {
          assert s in Videos(rest);
          var i :| 0 <= i < |rest| && rest[i].videoId == Some(s.id)
                   && s.title == rest[i].title && s.artists == [rest[i].uploader];
          assert rest[i] == items[i + 1];
        }
      }
    }
  }

  /** The positions of the items that carry a videoId. */
  function WithId(items: seq<Item>): set<int>
  {
    set i | 0 <= i < |items| && items[i].videoId.Some?
  }

  /** One more item at the back adds its position iff it has a videoId. */
  lemma WithIdSnoc(items: seq<Item>, n: int)
    requires 0 <= n && n + 1 == |items|
    ensures |WithId(items)| == |WithId(items[..n])| + |VideoOf(items[n])|
  {
    var before := WithId(items[..n]);
    assert before == set i | 0 <= i < n && items[i].videoId.Some?;
    if items[n].videoId.Some? {
      assert WithId(items) == before + {n};
    } else {
      assert WithId(items) == before;
    }
  }

  /** The number of songs is the number of items with a videoId. */
  lemma {:induction false} VideosCount(items: seq<Item>)
    ensures |Videos(items)| == |WithId(items)|
  {
    if items != [] {
      var n := |items| - 1;
      VideosCount(items[..n]);
      VideosSnoc(items, n);
      assert items[..n + 1] == items;
      WithIdSnoc(items, n);
    }
  }

  /** The first `limit` songs, none for a limit of zero or less. */
  function FirstN(songs: seq<Song>, limit: int): (r: seq<Song>)
    ensures |r| == if limit <= 0 then 0 else if |songs| <= limit then |songs| else limit
    ensures r == songs[..|r|]
  {
    if limit <= 0 then [] else Take(songs, limit)
  }

  /** The second ArrayEach: skip items without a videoId, stop adding once
      `limit` songs are collected. */
  method CollectSongs(items: seq<Item>, limit: int) returns (songs: seq<Song>)
    ensures songs == FirstN(Videos(items), limit)
  {
    songs := [];
    var count := 0;
    for i := 0 to |items|
      invariant count == |songs|
      invariant songs == FirstN(Videos(items[..i]), limit)
    {
      VideosSnoc(items, i);
      if count >= limit {
        assert songs == FirstN(Videos(items[..i + 1]), limit);
        continue;
      }
      var item := items[i];
      if item.videoId.None? {
        continue;
      }
      songs := songs + [Song(item.videoId.value, item.title, [item.uploader])];
      count := count + 1;
    }
    assert items[..|items|] == items;
  }

  /** The search-results URL (the query is URL-escaped). */
  function SearchUrl(escapedQuery: string): string
  {
    "https://www.youtube.com/results?search_query=" + escapedQuery
  }

  /** A page that was fetched with status 200 and read in full. */
  predicate PageRead(response: Response)
  {
    response.delivered && response.status == 200 && response.readOk
  }

  /** The results section of a page: the extracted block, looked up, and
      its last section with items. */
  function PageItems(body: string, lookup: Lookup): Option<seq<Item>>
  {
    match ExtractBlock(body)
    case None => None
    case Some(block) =>
      match lookup(block)
      case None => None
      case Some(sections) => LastResults(sections)
  }

  /** The outcome of scrapeSearchResults for a response: the first failing
      step names the error; a page whose block, lookup and results section
      are all found gives its first `limit` videos. */
  function ScrapeResult(response: Response, lookup: Lookup, limit: int): (r: Result<seq<Song>>)
    ensures !response.delivered ==> r == Err(RequestFailed)
    ensures response.delivered && response.status != 200 ==> r == Err(BadStatus(response.status))
    ensures response.delivered && response.status == 200 && !response.readOk ==> r == Err(RequestFailed)
    ensures PageRead(response) && ExtractBlock(response.body).None? ==> r == Err(NoInitialData)
    ensures PageRead(response) && ExtractBlock(response.body).Some? ==>
      var sections := lookup(ExtractBlock(response.body).value);
      && (sections.None? ==> r == Err(InvalidJson))
      && (sections.Some? && LastResults(sections.value).None? ==> r == Err(NoResults))
      && (sections.Some? && LastResults(sections.value).Some? ==>
            r == Ok(FirstN(Videos(LastResults(sections.value).value), limit)))
    ensures r.Ok? <==> PageRead(response) && PageItems(response.body, lookup).Some?
    ensures r.Ok? ==> r.value == FirstN(Videos(PageItems(response.body, lookup).value), limit)
  {
    if !response.delivered then Err(RequestFailed)
    else if response.status != 200 then Err(BadStatus(response.status))
    else if !response.readOk then Err(RequestFailed)
    else
      match ExtractBlock(response.body)
      case None => Err(NoInitialData)
      case Some(block) =>
        match lookup(block)
        case None => Err(InvalidJson)
        case Some(sections) =>
          match LastResults(sections)
          case None => Err(NoResults)
          case Some(items) => Ok(FirstN(Videos(items), limit))
  }

  /** The first `limit` videos of a results section: at most `limit`,
      none for a limit of zero or less, each a video of the section with
      its title and owner text. */
  lemma FirstVideosFromItems(items: seq<Item>, limit: int)
    ensures var r := FirstN(Videos(items), limit);
      (limit <= 0 ==> r == []) && (limit > 0 ==> |r| <= limit)
    ensures var r := FirstN(Videos(items), limit);
      forall k :: 0 <= k < |r| ==>
        exists i :: 0 <= i < |items| && items[i].videoId == Some(r[k].id)
                    && r[k].title == items[i].title && r[k].artists == [items[i].uploader]
  {
    var all := Videos(items);
    var r := FirstN(all, limit);
    VideosFromItems(items);
    forall k | 0 <= k < |r|
      ensures exists i :: 0 <= i < |items| && items[i].videoId == Some(r[k].id)
                          && r[k].title == items[i].title && r[k].artists == [items[i].uploader]
    {
      assert r[k] == all[k];
      assert all[k] in all;
    }
  }

  /** A scraped result holds at most `limit` songs, none for a limit of
      zero or less, and each one is a video of the results section, with
      the owner text as its artist. */
  lemma ScrapeResultBound(response: Response, lookup: Lookup, limit: int)
    ensures var r := ScrapeResult(response, lookup, limit);
      r.Ok? ==> (limit <= 0 ==> r.value == []) && (limit > 0 ==> |r.value| <= limit)
    ensures var r := ScrapeResult(response, lookup, limit);
      r.Ok? ==>
        var items := PageItems(response.body, lookup).value;
        forall k :: 0 <= k < |r.value| ==>
          exists i :: 0 <= i < |items| && items[i].videoId == Some(r.value[k].id)
                      && r.value[k].title == items[i].title && r.value[k].artists == [items[i].uploader]
  {
    if ScrapeResult(response, lookup, limit).Ok? {
      FirstVideosFromItems(PageItems(response.body, lookup).value, limit);
    }
  }

  /** scrapeSearchResults, from the response on. */
  method ScrapeSearchResults(response: Response, lookup: Lookup, limit: int) returns (r: Result<seq<Song>>)
    ensures r == ScrapeResult(response, lookup, limit)
  {
    if !response.delivered {
      return Err(RequestFailed);
    }
    if response.status != 200 {
      return Err(BadStatus(response.status));
    }
    if !response.readOk {
      return Err(RequestFailed);
    }
    var block := ExtractBlock(response.body);
    if block.None? {
      return Err(NoInitialData);
    }
    var sections := lookup(block.value);
    if sections.None? {
      return Err(InvalidJson);
    }
    var results := FindResults(sections.value);
    if results.None? {
      return Err(NoResults);
    }
    var songs := CollectSongs(results.value, limit);
    return Ok(songs);
  }

  /** Search: the URL path on an "http" prefix, the scrape path otherwise. */
  method Search(query: string, limit: int, run: Run, parsed: Option<Entry>,
                response: Response, lookup: Lookup) returns (r: Result<seq<Song>>)
    ensures IsUrlQuery(query) ==> r == SongInfoFromUrl(run, parsed)
    ensures IsUrlQuery(query) && r.Ok? ==> |r.value| == 1
    ensures !IsUrlQuery(query) ==> r == ScrapeResult(response, lookup, limit)
    ensures !IsUrlQuery(query) && r.Ok? ==> limit > 0 ==> |r.value| <= limit
    ensures !IsUrlQuery(query) && r.Ok? ==> limit <= 0 ==> r.value == []
  {
    if HasPrefix(query, "http") {
      return SongInfoFromUrl(run, parsed);
    }
    r := ScrapeSearchResults(response, lookup, limit);
    ScrapeResultBound(response, lookup, limit);
  }
}
