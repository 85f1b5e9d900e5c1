# yogo in Dafny

A model of the core of yogo, a terminal YouTube music player written in
Go. yogo searches YouTube, either by scraping the results page or
through yt-dlp. It plays audio with an mpv process that it drives over
mpv's JSON IPC socket. It keeps a play history in a bbolt key/value
bucket. Its Bubble Tea interface has a search pane, a history pane and a
player footer.

The model keeps the control logic and states what each piece promises:

- `mpv.dfy` (module `Mpv`): the mpv controller.
  - The reply-collection loop of `sendCommands` and the state aggregation of `getState_unsafe`.
  - The launch state machine of `startMpvProcess`, with its bounded socket probe.
  - The single-command operations and `Close`.
  - The process, the socket file and the connection are oracle values (`Link`, `Launch`). A ghost trace records what the controller does to them.
- `history_store.dfy` (module `HistoryStore`): the bbolt history store.
  - The bucket is a key-ordered sequence of (key, value) pairs.
  - A key is `time:songID`, with the time as a decimal number.
  - The module gives the suffix lookup, add, position update and the newest-first read with a limit.
- `ytdlp.dfy` (module `Ytdlp`) and `youtube.dfy` (module `Youtube`): the two search backends.
  - Argument lists, the cookies prefix, the entry-to-song mapping and the first-line stream URL.
  - Locating `ytInitialData` in the page and collecting at most `limit` videos.
- `player_view.dfy` (module `PlayerView`): the player footer's status machine, `formatDuration` on whole seconds, and the play/pause symbol.
- `utils.dfy` (module `Utils`): `truncate`.
- `tabs.dfy` (module `Tabs`): the tab index with Go's truncating remainder.
- `list_filter.dfy` (module `ListFilter`): the shared list-and-filter component.
  - The case-insensitive filter, marking for deletion and the delete request.
  - Item lookup, the search-enter guard, focus switching and the delegate's line cut.
- `history_view.dfy` (module `HistoryView`): the history pane, with `GetResumeAt`, loading and filtering.
- `app.dfy` (module `App`): the top-level model.
  - The play URL and the resume lookup.
  - Gating of playback keys and of ticks.
  - The save-on-quit condition and the footer rule.
- `text.dfy` (module `Text`) models the Go string functions used, on `seq<char>`; `domain.dfy` (module `Domain`) holds the shared records.

Where the code and its documentation disagree, the model follows the code:

- Before launching mpv, the code does not remove a stale socket file. Only `NewMpvPlayer` removes it.
- Replies to the untagged one-shot commands carry request id 0 and are never collected. So `Pause`, `Seek` and the other one-shot commands return an error only when dialling or writing fails, and never report mpv's `error` member.

## Model

| member | source | states |
|---|---|---|
| Mpv.SendCommands | internal/services/player/mpv.go:111-149 | equals the exchange spec; fails iff dialling or encoding fails; never returns more replies than commands; every reply returned arrived on the socket, decoded, is not an event and has a positive request id |
| Mpv.KeptMembers | internal/services/player/mpv.go:129-147 | a reply is collected iff it decoded with an empty event and a positive request id (malformed lines are skipped) |
| Mpv.KeptAppend | internal/services/player/mpv.go:129-147 | collection works line by line: the lines of a longer stream add to what a prefix collected |
| Mpv.UntaggedRepliesIgnored | internal/services/player/mpv.go:144-146 | replies with request id 0, which is what untagged commands get, are never collected |
| Mpv.AggregateReplies | internal/services/player/mpv.go:231-253 | the loop over the replies builds the state that the replies applied in order give, starting from the zero state |
| Mpv.AggregateByField | internal/services/player/mpv.go:231-253 | each field is set by the last successful reply with its request id and a value of the right type (1 sets IsPlaying to not-paused, 2 Position, 3 Duration, 4 Speed); unanswered fields keep their value |
| Mpv.LastAnswerIsMember | internal/services/player/mpv.go:235-252 | with distinct request ids, a field's value comes from the one successful reply with that id |
| Mpv.LastAnswerNone | internal/services/player/mpv.go:235-252 | with distinct request ids, a field is left alone iff no successful reply answers it |
| Mpv.SameAnswer | internal/services/player/mpv.go:231-253 | two reply batches holding the same replies answer each id alike |
| Mpv.AggregateIgnoresOrder | internal/services/player/mpv.go:231-253 | with distinct request ids, the resulting state does not depend on the order in which the replies arrived |
| Mpv.LaunchArgs | internal/services/player/mpv.go:71-86 | the argument list starts `--idle`, `--input-ipc-server=<path>`, `--no-video`, `--no-config` and has 5 elements, or 6 with save-position-on-quit |
| Mpv.LaunchArgsFlags | internal/services/player/mpv.go:78-86 | `--loop-file=yes` iff loop, `--loop-file=no` iff not loop, `--save-position-on-quit` iff that flag is set |
| Mpv.FirstReady | internal/services/player/mpv.go:97-103 | the first socket check within the 20-try budget that finds the file, with none before it |
| Mpv.StartOutcomes | internal/services/player/mpv.go:58-109 | start succeeds iff a live handle exists, or Start succeeds and a check within 20 finds the socket; failure leaves no handle, success leaves one; a timeout ends with a kill; a launch spawns one process only if Start succeeds; at most 20 checks |
| Mpv.RelaunchAfterExit | internal/services/player/mpv.go:62-68 | once the held process is known to have exited, a start spawns once if Start succeeds and yields a fresh handle iff a socket check finds the file |
| Mpv.StartTwiceSpawnsOnce | internal/services/player/mpv.go:62-68 | a second start on a live handle is a no-op that keeps the handle, so two starts spawn mpv once |
| Mpv.SingleOutcome | internal/services/player/mpv.go:151-213 | a one-command call fails iff dialling or encoding fails, whatever mpv answers |
| Mpv.MpvPlayer.constructor | internal/services/player/mpv.go:46-52 | the socket file is removed and no process is held |
| Mpv.MpvPlayer.StartMpvProcess | internal/services/player/mpv.go:58-109 | result, handle and trace are those of the start spec: a held handle is kept unless the launch reports an exit, in which case it is dropped and a launch follows (as written the exit is never reported; see Findings); the probe loop checks up to 20 times before killing |
| Mpv.MpvPlayer.WaitForSocket | internal/services/player/mpv.go:97-103 | the check loop reports ready iff a check within 20 finds the socket, and makes exactly the checks up to that one, or all 20 |
| Mpv.MpvPlayer.Play | internal/services/player/mpv.go:151-158 | a failed start is returned; otherwise `loadfile <url> replace` is sent and only a dial or write failure is reported |
| Mpv.MpvPlayer.Pause | internal/services/player/mpv.go:160-169 | without a handle: no error and nothing sent; with one: exactly `cycle pause` is sent |
| Mpv.MpvPlayer.Stop | internal/services/player/mpv.go:171-180 | without a handle: no error and nothing sent; with one: exactly `stop` is sent |
| Mpv.MpvPlayer.Seek | internal/services/player/mpv.go:182-191 | without a handle: no error and nothing sent; with one: exactly `seek <seconds> relative` |
| Mpv.MpvPlayer.ChangeSpeed | internal/services/player/mpv.go:193-202 | without a handle: no error and nothing sent; with one: exactly `add speed <delta>` |
| Mpv.MpvPlayer.ResetSpeed | internal/services/player/mpv.go:204-213 | without a handle: no error and nothing sent; with one: exactly `set_property speed 1.0` |
| Mpv.MpvPlayer.GetState | internal/services/player/mpv.go:215-261 | without a handle: the zero state and no error; otherwise the four tagged queries are sent and an exchange error, or the aggregated replies, come back |
| Mpv.MpvPlayer.Close | internal/services/player/mpv.go:263-273 | always succeeds; kills a held process and then removes the socket file; the handle is not cleared |
| Mpv.CloseThenPlay | internal/services/player/mpv.go:58-68 | as written (no exit ever reported), Play after Close keeps the killed handle, spawns nothing and only tries `loadfile`; with the socket gone it fails to connect |
| HistoryStore.KeyTextSplits | internal/services/storage/bbolt.go:39-41 | a key ends with `":" + songID`; for the colon-free decimal time that stands in for RFC3339Nano, the text after the first colon is the id (a real RFC3339Nano time has colons of its own, so there only the suffix part holds) |
| HistoryStore.KeyTextInjective | internal/services/storage/bbolt.go:39-41 | the key of a (time, id) pair determines both |
| HistoryStore.LessIrreflexive | internal/services/storage/bbolt.go:115 | bbolt's byte order on keys is irreflexive |
| HistoryStore.LessTransitive | internal/services/storage/bbolt.go:115 | bbolt's byte order on keys is transitive |
| HistoryStore.LessTotal | internal/services/storage/bbolt.go:115 | bbolt's byte order on keys is total |
| HistoryStore.PutMembers | internal/services/storage/bbolt.go:74 | after Put, the bucket holds the new pair and every other pair whose key differs |
| HistoryStore.PutSorted | internal/services/storage/bbolt.go:74 | Put keeps the bucket in key order |
| HistoryStore.PutLength | internal/services/storage/bbolt.go:74 | Put adds one pair unless the key was present, in which case the value is replaced |
| HistoryStore.DeleteMembers | internal/services/storage/bbolt.go:60 | Delete removes exactly the pair with that key |
| HistoryStore.DeleteSorted | internal/services/storage/bbolt.go:60 | Delete keeps the bucket in key order |
| HistoryStore.DeleteAbsent | internal/services/storage/bbolt.go:60 | deleting a missing key changes nothing |
| HistoryStore.DeleteLength | internal/services/storage/bbolt.go:60 | Delete shrinks the bucket by one iff the key was present |
| HistoryStore.FindOld | internal/services/storage/bbolt.go:43-53 | the first pair in key order whose key ends with `":" + songID`, or none iff no key does |
| HistoryStore.MatchesExactly | internal/services/storage/bbolt.go:45-48 | for colon-free ids, the suffix test matches exactly the entries of that id |
| HistoryStore.SuffixMatchesOtherSong | internal/services/storage/bbolt.go:45-48 | the suffix test also hits id `a:b` when asked for `b`, so adding `b` deletes `a:b`'s entry |
| HistoryStore.DecodedMembers | internal/services/storage/bbolt.go:115-122 | the decoded entries are exactly the values that decode; the others are skipped |
| HistoryStore.InsertPermutes | internal/services/storage/bbolt.go:129-131 | the sort's insertion step keeps the entries |
| HistoryStore.InsertOrdered | internal/services/storage/bbolt.go:129-131 | the sort's insertion step keeps newest-first order |
| HistoryStore.SortByRecency | internal/services/storage/bbolt.go:129-131 | the sorted entries are newest first and a permutation of the decoded ones |
| HistoryStore.FreshestFirst | internal/services/storage/bbolt.go:129-131 | an entry strictly newer than all others comes first |
| HistoryStore.HistoryKeepsNewest | internal/services/storage/bbolt.go:109-137 | the read returns min(count, limit) entries, newest first, each stored in the bucket, and none of the dropped entries is newer than a returned one |
| HistoryStore.RekeySpec | internal/services/storage/bbolt.go:59-74 | deleting the found key and putting a new pair for the id keeps the bucket well formed; exactly one pair remains for the id; other songs' pairs stay; the count grows only for a new id |
| HistoryStore.AddKeepsOneEntry | internal/services/storage/bbolt.go:55-76 | after an add, exactly one entry exists for the song, stored under `now:id` with ResumeAt 0 and PlayedAt now; other songs are untouched |
| HistoryStore.AddMovesToFront | internal/services/storage/bbolt_test.go:43-54 | re-adding a song at a later time puts it first in the history |
| HistoryStore.UpdateAbsentIsNoop | internal/services/storage/bbolt.go:82-85 | updating the position of a song with no entry succeeds and changes nothing |
| HistoryStore.UpdateCorruptFails | internal/services/storage/bbolt.go:87-90 | an entry that does not decode makes the update fail |
| HistoryStore.UpdateMovesEntry | internal/services/storage/bbolt.go:87-105 | a present entry is re-keyed at now with ResumeAt = position; one entry per song remains and the count is unchanged |
| HistoryStore.BboltStore.constructor | internal/services/storage/bbolt.go:21-37 | the store starts from the given bucket contents, whose keys are in bbolt's order |
| HistoryStore.BboltStore.FindOldKeyForSong | internal/services/storage/bbolt.go:43-53 | the cursor loop answers the first suffix match in key order |
| HistoryStore.BboltStore.AddToHistory | internal/services/storage/bbolt.go:55-76 | the bucket becomes the add spec of the old bucket; key order is kept, and a well-formed bucket stays well-formed for a colon-free id |
| HistoryStore.BboltStore.UpdateHistoryEntryPosition | internal/services/storage/bbolt.go:78-107 | succeeds iff the update spec does, storing its bucket; on failure the bucket is unchanged; key order is kept, and a well-formed bucket stays well-formed for a colon-free id |
| HistoryStore.BboltStore.GetHistory | internal/services/storage/bbolt.go:109-138 | the decode loop, sort and cut give the history spec: at most `limit` entries, newest first, each stored in the bucket |
| Ytdlp.WithCookies | internal/services/youtube/ytdlp.go:37-40 | `--cookies <path>` comes in front iff a cookies path is set; the arguments follow unchanged |
| Ytdlp.Execute | internal/services/youtube/ytdlp.go:42-58 | a clean run gives its stdout; a failed run gives the trimmed stderr as the error |
| Ytdlp.ArtistOf | internal/services/youtube/ytdlp.go:78-81 | the artist is the uploader, or the channel when the uploader is empty |
| Ytdlp.Songs | internal/services/youtube/ytdlp.go:76-87 | one song per entry, in order, with the entry's id and title and the single artist |
| Ytdlp.SongsOf | internal/services/youtube/ytdlp.go:76-87 | the mapping loop builds exactly those songs |
| Ytdlp.SearchArgs | internal/services/youtube/ytdlp.go:62-65 | the arguments are `--dump-single-json -- ytsearch5:<query>`, with the cookies prefix when set |
| Ytdlp.Search | internal/services/youtube/ytdlp.go:61-90 | an error iff the run fails or the output is not valid JSON; otherwise the mapped songs |
| Ytdlp.StreamUrlArgs | internal/services/youtube/ytdlp.go:95-96 | the arguments are `-f bestaudio/best -g -- <songID>`, with the cookies prefix when set |
| Ytdlp.FirstUrl | internal/services/youtube/ytdlp.go:101-108 | an error iff the output is all white space; otherwise the first line of the trimmed output: non-empty, without a newline, and followed by a newline or by the end of the text |
| Ytdlp.GetStreamUrl | internal/services/youtube/ytdlp.go:92-109 | a failed run is an error; otherwise the first-line rule applies (youtube.go:148-163 is the same operation, with the same arguments and rule) |
| Youtube.SongInfoFromUrl | internal/services/youtube/youtube.go:120-146 | an error iff the run fails or the JSON is invalid; otherwise exactly one song with the entry's id and title and uploader-or-channel as artist |
| Youtube.UrlLookupArgs | internal/services/youtube/youtube.go:121 | the URL lookup runs `--dump-single-json -- <url>`, with the cookies prefix of youtube.go:165-169 |
| Youtube.SecondPiece | internal/services/youtube/youtube.go:68-70 | present iff the marker occurs; the text after its first occurrence up to the next one |
| Youtube.ExtractBlock | internal/services/youtube/youtube.go:67-75 | present iff either marker occurs; taken after the primary marker when it occurs, else after the fallback; it holds no `;</script>` and ends at the first one or at the end of the piece |
| Youtube.LastResults | internal/services/youtube/youtube.go:83-93 | the item array of the last section that has one; none iff no section has one |
| Youtube.FindResults | internal/services/youtube/youtube.go:83-89 | the section loop answers that array |
| Youtube.VideoOf | internal/services/youtube/youtube.go:101-113 | an item without a videoId gives no song; one with a videoId gives exactly the song with that id, its title and its owner text as the one artist |
| Youtube.Videos | internal/services/youtube/youtube.go:97-115 | never more songs than items |
| Youtube.VideosFromItems | internal/services/youtube/youtube.go:101-113 | every song comes from an item with that videoId, carrying its title and the owner as single artist |
| Youtube.VideosAppend | internal/services/youtube/youtube.go:97-115 | the walk is in item order: the songs of a concatenation are the songs of the first part followed by those of the second |
| Youtube.VideosCons | internal/services/youtube/youtube.go:97-115 | the definition of Videos unfolded on a list with a head: the first item's song, if any, comes ahead of the rest's (the order over any split is VideosAppend's, the one-song-per-item count VideosCount's) |
| Youtube.VideosCount | internal/services/youtube/youtube.go:101-104 | the number of songs is the number of items with a videoId |
| Youtube.FirstN | internal/services/youtube/youtube.go:98-100 | the first `limit` songs, none for a limit of zero or less |
| Youtube.CollectSongs | internal/services/youtube/youtube.go:95-117 | the counting loop gives the first `limit` songs of the items that have a videoId |
| Youtube.FirstVideosFromItems | internal/services/youtube/youtube.go:95-117 | the first `limit` videos: at most `limit`, none for a limit of zero or less, each a video of the section |
| Youtube.ScrapeResult | internal/services/youtube/youtube.go:42-118 | a failed request or read is RequestFailed, a non-200 status BadStatus with that code, no marker NoInitialData, a failed lookup InvalidJson, no results section NoResults; success iff the page is read and the block, lookup and section are found, and then it is the first `limit` videos of that section |
| Youtube.ScrapeResultBound | internal/services/youtube/youtube.go:95-117 | a scraped result holds at most `limit` songs, none for a limit of zero or less, each a video of the page's results section |
| Youtube.ScrapeSearchResults | internal/services/youtube/youtube.go:42-118 | the method's result is the scrape outcome of the response |
| Youtube.Search | internal/services/youtube/youtube.go:34-40 | a query starting with "http" takes the URL path, which gives one song; any other query gives the scrape outcome, bounded by the limit |
| PlayerView.StatusAfter | internal/ui/player.go:62-69 | a playing snapshot gives playing (and only it does); a stopped one turns playing into paused and leaves idle, loading, error and paused alone |
| PlayerView.PlayPauseSymbol | internal/ui/player.go:98-101 | one character, exactly "Ⅱ" while playing and "▶" otherwise |
| PlayerView.SymbolShowsState | internal/ui/player.go:98-101 | the symbol tells playing and not playing apart |
| PlayerView.FormatDuration | internal/ui/player.go:82-95 | "00:00" for zero or less; "MM:SS" below an hour; "h:MM:SS" from an hour on |
| PlayerView.ClockParts | internal/ui/player.go:86-89 | the hours, minutes and seconds shown add up to the input |
| PlayerView.FormatDurationRoundTrip | internal/ui/player.go:86-94 | the clock text of every positive duration reads back to it, with minute and second fields below 60 and an hour field of at least 1 without a leading zero |
| PlayerView.ClockFields | internal/ui/player.go:86-89 | fields h, MM, SS with MM and SS below 60 are the quotient and remainders formatDuration takes: h = n/3600, MM = (n/60)%60, SS = n%60 |
| PlayerView.ClockTextUnique | internal/ui/player.go:82-95 | every text that reads back as n under those rules is exactly the clock text of n, so "01:30" and not "00:90" is the text for 90 seconds |
| PlayerView.PlayerModel.constructor | internal/ui/player.go:34-43 | a new panel is idle with the zero state |
| PlayerView.PlayerModel.SetContent | internal/ui/player.go:49-57 | status, song and error are set; the state is reset to zero unless the new status is playing or paused |
| PlayerView.PlayerModel.UpdateState | internal/ui/player.go:62-69 | the snapshot is stored and the status moves as StatusAfter says |
| Utils.Truncate | internal/ui/utils.go:3-11 | "..." for a length of 3 or less; a longer line is cut to length-3 characters plus "..." and has exactly `length` characters; a line that fits is unchanged |
| Utils.TruncateIdempotent | internal/ui/utils.go:3-11 | truncating twice to the same length is truncating once |
| Tabs.GoRem | internal/ui/tabs.go:36 | Go's remainder: its sign follows the dividend, it is below the divisor in size, and it forms the division identity with the truncated quotient |
| Tabs.NextIndex | internal/ui/tabs.go:35-37 | from a valid index, one step forward with wrap-around to 0 |
| Tabs.PrevIndex | internal/ui/tabs.go:39-44 | from a valid index, one step back with wrap-around to the last tab |
| Tabs.PrevUndoesNext | internal/ui/tabs.go:35-44 | for a valid index, Prev after Next and Next after Prev restore it |
| Tabs.NextFromNegative | internal/ui/tabs.go:36 | from any negative index, Next lands in (-count, 0] and never in 1..count-1; it is 0 exactly when count divides active + 1 |
| Tabs.TabModel.constructor | internal/ui/tabs.go:28-33 | tabs "Search" and "History", the first one active |
| Tabs.TabModel.Next | internal/ui/tabs.go:35-37 | the index moves as NextIndex says, keeps a valid index valid, and leaves the tabs alone |
| Tabs.TabModel.Prev | internal/ui/tabs.go:39-44 | the index moves as PrevIndex says, keeps a valid index valid, and leaves the tabs alone |
| ListFilter.Keep | internal/ui/shared.go:237-243 | an item is kept iff its lowercased value contains the lowercased term |
| ListFilter.KeepSplits | internal/ui/shared.go:238-242 | filtering keeps the original order: the filter of a concatenation is the concatenation of the filters |
| ListFilter.EmptyTermKeepsAll | internal/ui/shared.go:235-236 | the empty-term shortcut gives what the general filter would |
| ListFilter.KeepIdempotent | internal/ui/shared.go:237-243 | filtering the shown list again with the same term changes nothing |
| ListFilter.FilterBy | internal/ui/shared.go:233-243 | the filter loop shows the full list for an empty term and the in-order matches otherwise |
| ListFilter.Toggle | internal/ui/shared.go:258-262 | the selected id's membership flips and no other id's changes |
| ListFilter.ToggleTwice | internal/ui/shared.go:254-265 | toggling twice restores the marked set |
| ListFilter.MarkedIds | internal/ui/shared.go:269-272 | the delete request lists every marked id exactly once |
| ListFilter.FirstWithId | internal/ui/shared.go:149-156 | the first item of the full list with that id, none iff no item has it |
| ListFilter.RenderLine | internal/ui/shared.go:69-85 | "x " before marked items; with a positive width a line longer than the room is cut to room-3 characters plus "..."; none where Go's slice bound would be negative |
| ListFilter.RenderIsTruncate | internal/ui/shared.go:80-85 | with room for more than the ellipsis, the cut is `truncate` of utils.go |
| ListFilter.SearchItems | internal/ui/shared.go:165-168 | one search item per song, in order |
| ListFilter.HistoryItems | internal/ui/shared.go:177-180 | one history item per entry, in order |
| ListFilter.ListAndFilterModel.constructor | internal/ui/shared.go:89-122 | focus on the input, nothing loading, nothing marked, empty lists |
| ListFilter.ListAndFilterModel.Init | internal/ui/shared.go:124-131 | loading starts, the marks are cleared and the empty query is fetched |
| ListFilter.ListAndFilterModel.OnSearchResults | internal/ui/shared.go:163-170 | loading stops and the songs are shown; the full list is not touched |
| ListFilter.ListAndFilterModel.OnHistoryLoaded | internal/ui/shared.go:175-183 | loading stops and the entries become the full and the shown list |
| ListFilter.ListAndFilterModel.OnError | internal/ui/shared.go:171-187 | loading stops and the error is stored |
| ListFilter.ListAndFilterModel.GetItem | internal/ui/shared.go:149-156 | the linear search answers the first item with the id, or none |
| ListFilter.ListAndFilterModel.HandleKey | internal/ui/shared.go:190-279 | while loading only the spinner moves; esc asks for global focus; tab flips the focus; search-enter with an empty input returns no command (the text input's own command is dropped), otherwise it sets loading, clears the error, empties the results, focuses the list and fetches; other panes filter as typed; enter plays the selection; x toggles its mark on history; d asks to delete the marked ids when there are any; every other key in the list (arrows, enter with nothing selected, x off history or with nothing selected, d with no marks) returns the list widget's command |
| HistoryView.ResumeAt | internal/ui/history.go:90-99 | 0 when no entry is for the song |
| HistoryView.ResumeAtFirstMatch | internal/ui/history.go:90-99 | when some entry is for the song, the answer is the ResumeAt of the first such entry |
| HistoryView.ResumeAtSkips | internal/ui/history.go:91-97 | entries for other songs in front do not change the answer |
| HistoryView.ResumeAtOfFirst | internal/ui/history.go:93-95 | an entry at the head answers for its song |
| HistoryView.HistoryModel.constructor | internal/ui/history.go:62-88 | focus on the input, nothing loading, empty lists |
| HistoryView.HistoryModel.Init | internal/ui/history.go:109-112 | loading starts (the spinner tick and the history load are the returned commands) |
| HistoryView.HistoryModel.GetResumeAt | internal/ui/history.go:90-99 | the search loop answers ResumeAt of the full history |
| HistoryView.HistoryModel.OnLoaded | internal/ui/history.go:135-143 | loading stops and the entries, in order, become the full and the shown list |
| HistoryView.HistoryModel.OnError | internal/ui/history.go:144-147 | loading stops and the error is stored |
| HistoryView.HistoryModel.HandleKey | internal/ui/history.go:150-202 | while loading nothing but the spinner changes; esc asks for global focus; tab flips the focus; in the input the shown list is the filter of the full history; in the list, enter plays the selected entry's song |
| App.PlayUrl | internal/ui/app.go:106-109 | the watch URL of the id, extended only for a positive resume position |
| App.PlayUrlRoundTrip | internal/ui/app.go:106-109 | the URL carries `&t=<n>s` exactly when resumeAt > 0, and n reads back as resumeAt |
| App.ResumeFor | internal/ui/app.go:99-104 | 0 unless SavePositionOnQuit is set and the history holds an item for the song |
| App.ResumeForAgrees | internal/ui/app.go:99-104 | on a list of history items the lookup agrees with GetResumeAt of history.go |
| App.KeyCall | internal/ui/app.go:139-177 | a player call happens iff focus is global, status is playing or paused and the key is space, right, left, ], [ or \; space pauses, right/left seek +5/-5, ]/[ change speed by ±0.25, \ resets it |
| App.SaveOnQuit | internal/ui/app.go:48-56 | a position is saved iff the flag is set, the player is active, GetState answers and the position is positive; the saved seconds are the whole part of it |
| App.FooterShowsPlayer | internal/ui/app.go:224-227 | the footer shows the player iff the status is not idle and focus is not on a component |
| App.StatusAfterIdempotent | internal/ui/app.go:135-137 | handing the same state message to the player a second time (app.go:191) changes nothing more |
| App.AppModel.constructor | internal/ui/app.go:33-46 | global focus, the search view, an idle player |
| App.AppModel.OnChangeFocus | internal/ui/app.go:78-93 | the focus is set; component focus puts the active pane on its input; global focus puts both panes on their inputs |
| App.AppModel.PlaySong | internal/ui/app.go:95-118 | focus goes global, the player loads the song, Play gets PlayUrl with the resume lookup, a Play failure gives PlayErrorMsg and success SongNowPlayingMsg, the song is added to history, and the footer then shows the player |
| App.AppModel.OnSongNowPlaying | internal/ui/app.go:120-121 | the player plays the song with no error and keeps its state |
| App.AppModel.OnPlayError | internal/ui/app.go:123-124 | the player shows the error with an empty song and the zero state |
| App.AppModel.OnTick | internal/ui/app.go:126-133 | GetState is asked iff the player is active; its answer becomes a state message; a new tick is always scheduled last |
| App.AppModel.OnStateUpdate | internal/ui/app.go:135-137 | after both applications the player holds the snapshot and the status of one StatusAfter step |
| App.AppModel.PlaybackKey | internal/ui/app.go:139-177 | the player call is the one KeyCall allows |
| App.AppModel.ShowSearch | internal/ui/app.go:144-146 | the search view becomes active and component focus is asked for |
| App.AppModel.ShowHistory | internal/ui/app.go:147-151 | the history view becomes active and reloads, and component focus is asked for |
| App.AppModel.Quit | internal/ui/app.go:48-56 | GetState is asked iff the flag is set and the player is active; what is saved is SaveOnQuit |

## Left out

- Concurrency: the mutex of mpv.go, `Play` calling `sendCommands` outside the lock, and the `go AddToHistory` of app.go are modelled as sequential calls.
- Process spawning, `os.Stat`, `os.Remove`, sleeping, the unix-socket dial and the read deadline are oracle inputs. So are the HTTP exchange of youtube.go and the yt-dlp runs. The ghost trace records the effects.
- `encoding/json` and `jsonparser` are not modelled. Decoded records, entry lists and the section lookup are inputs. A history value is either a stored entry or one that fails to decode. The JSON round trip is taken as lossless.
- bbolt transactions and their I/O errors are not modelled. The store's `Close`, opening the database and creating the bucket are left out too.
- RFC3339Nano formatting is replaced by a decimal timestamp. The key order therefore follows those digits, not the formatted time. The history read sorts by PlayedAt, so its result does not depend on this.
- HistoryStore.SortByRecency: Go's `sort.Slice` is not stable. The model sorts deterministically, and the order of entries with equal PlayedAt is not stated.
- HistoryStore.AddKeepsOneEntry: the one-entry-per-song invariant is stated for ids without a colon. For other ids the suffix lookup can hit another song's key; SuffixMatchesOtherSong shows this.
- HistoryStore.BboltStore.GetHistory: Go panics on a negative limit, so the model requires a limit of at least 0.
- Tabs.TabModel.Next: Go panics on a remainder by zero, so the model requires a non-empty tab list.
- ListFilter.RenderLine: where Go's slice bound is negative, the Go code panics; the model answers none.
- Floating point: the speed text and progress percent of player.go are not modelled. The float-to-duration conversion of `formatDuration` is replaced by whole seconds. Speed deltas and positions are reals.
- `strings.ToLower` is ASCII lowercasing here. Go's `len` counts bytes and the model counts characters.
- Error texts are abstracted to error variants. Wrapped messages are not modelled.
- `url.QueryEscape` and `http.NewRequest` failures are not modelled. The request headers are not modelled.
- Rendering is out: lipgloss styles, all `View` functions, widths, the spinner, the text input and the list widget. The key handlers receive the input's value and the list's selection.
- The history pane's own delegate `Render` (history.go:28-47) is not modelled. It repeats the cut of shared.go without the mark prefix.
- app.go forwards every message to the active pane when a component has focus (app.go:180-189). The model covers the panes' key handling on its own, not this forwarding.
- `WindowSizeMsg` and the window size are not modelled.
- internal/ui/search.go is an older duplicate of shared.go and is not part of this model.
- messages.go, ports, the logger, viper configuration and the main programs are not part of this model.
- The files are at mixed revisions. app.go keeps its history pane as a list-and-filter component, and the model follows that. The playback flags `Loop` and `SavePositionOnQuit` are two booleans.
- The list items' `ID()` and `ToSong()` are assumed. shared.go:24-28 requires them of every item, but neither item type in these files declares them: history.go:17-21 has `SongID` and `ResumeAt`, and search.go:16-18 has only `FilterValue`. As the files stand, the `item.(listItem)` assertions of shared.go:57, 151, 251 and 256 fail, so lookup, the mark prefix, enter and x would do nothing. The model takes `ID()` to be the song id and `ToSong()` to be the song. This concerns ListFilter.FirstWithId, ListFilter.RenderLine, ListFilter.ListAndFilterModel.GetItem and ListFilter.ListAndFilterModel.HandleKey.
- App.AppModel.OnStateUpdate: assumes the ports and ui state messages are the same message. app.go:130-136 builds and matches `ports.PlayerStateUpdateMsg`, while player.go:62 matches the ui package's own `playerStateUpdateMsg` (messages.go:29). As the files stand the player panel would never take the snapshot or change its status on a tick.
- `isProcessRunning` (mpv.go:54-56) is the predicate `Mpv.MpvPlayer.IsProcessRunning`, a held handle; it has no contract of its own and is used by the controller's methods.

## Findings

| source | as written | input that shows it | evidently intended | confidence | as-written member | corrected member |
|---|---|---|---|---|---|---|
| internal/services/player/mpv.go:62-68 | the exit test reads `p.cmd.ProcessState`, which only `Wait` or `Run` set; neither is called on the mpv command, so a held handle is always taken as live | `Close` (which keeps the handle), then `Play`: no new mpv is started, and `loadfile` goes to the removed socket, so Play fails to connect | a process that has exited is dropped and mpv is launched again | not executed; read from the text | Mpv.CloseThenPlay | Mpv.RelaunchAfterExit |
