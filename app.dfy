/** internal/ui/app.go: the top-level model. The player and storage
    services are reached through their results: whether Play succeeded,
    what GetState answered, and which calls the model asks of them. */
module App {
  import opened Text
  import opened Domain
  import opened PlayerView
  import LF = ListFilter
  import HistoryView

  datatype FocusState = GlobalFocus | ComponentFocus
  datatype ActiveView = SearchView | HistoryView_

  /** A request to the player service. */
  datatype PlayerCall = PauseCall | SeekCall(seconds: int) | SpeedCall(delta: real) | ResetSpeedCall

  /** What an Update hands back to the runtime or to the storage service. */
  datatype Effect =
    | SongNowPlaying(song: Song)
    | PlayError
    | StateUpdate(state: PlayerState)
    | NextTick
    | AddToHistory(entry: HistoryEntry)
    | ChangeFocus(focus: FocusState)
    | FetchHistory

  /** Playback controls apply while something is playing or paused. */
  predicate Active(status: PlayerStatus)
  {
    status == Playing || status == Paused
  }

  // ---------------------------------------------------------------------
  // The play URL

  const WatchPrefix := "https://www.youtube.com/watch?v="

  /** The URL handed to Play: the watch URL of the id, with "&t=<n>s"
      when there is a positive resume position. */
  function PlayUrl(id: string, resumeAt: int): (r: string)
    ensures HasPrefix(r, WatchPrefix + id)
    ensures resumeAt <= 0 ==> r == WatchPrefix + id
    ensures resumeAt > 0 ==> |r| > |WatchPrefix + id| + 4
  {
    var url := WatchPrefix + id;
    if resumeAt > 0 then url + "&t=" + Decimal(resumeAt) + "s" else url
  }

  /** Reading the resume position back from a play URL for a known id. */
  function ResumeOfUrl(url: string, id: string): Option<nat>
  {
    var base := WatchPrefix + id;
    if !HasPrefix(url, base) then None
    else
      var rest := url[|base|..];
      if rest == "" then Some(0)
      else if |rest| >= 5 && rest[..3] == "&t=" && rest[|rest| - 1] == 's'
              && AllDigits(rest[3..|rest| - 1]) then
        Some(DecimalValue(rest[3..|rest| - 1]))
      else None
  }

  /** The URL carries exactly the positive part of the resume position. */
  lemma PlayUrlRoundTrip(id: string, resumeAt: int)
    ensures ResumeOfUrl(PlayUrl(id, resumeAt), id) == Some(if resumeAt > 0 then resumeAt else 0)
  {
    var base := WatchPrefix + id;
    var url := PlayUrl(id, resumeAt);
    if resumeAt > 0 {
      var d := Decimal(resumeAt);
      var rest := "&t=" + d + "s";
      assert url == base + rest;
      assert url[|base|..] == rest;
      assert rest[3..|rest| - 1] == d;
      DecimalRoundTrip(resumeAt);
    } else {
      assert url[|base|..] == "";
    }
  }

  /** The resume position looked up for a song: the history item's, and
      only when positions are saved. */
  function ResumeFor(saveOn: bool, items: seq<LF.ListItem>, id: string): (r: int)
    ensures !saveOn ==> r == 0
    ensures saveOn && LF.FirstWithId(items, id).None? ==> r == 0
  {
    if !saveOn then 0
    else
      match LF.FirstWithId(items, id)
      case Some(HistoryItem(e)) => e.resumeAt
      case _ => 0
  }

  /** Over a list of history items the lookup agrees with GetResumeAt of
      the history pane. */
  lemma {:induction false} ResumeForAgrees(entries: seq<HistoryEntry>, id: string)
    ensures ResumeFor(true, LF.HistoryItems(entries), id) == HistoryView.ResumeAt(entries, id)
  {
    if entries != [] {
      var items := LF.HistoryItems(entries);
      assert items[1..] == LF.HistoryItems(entries[1..]);
      assert LF.ItemId(items[0]) == entries[0].song.id;
      ResumeForAgrees(entries[1..], id);
    }
  }

  // ---------------------------------------------------------------------
  // Gating rules

  /** The player call a global key asks for, if the player is active. */
  function KeyCall(focus: FocusState, status: PlayerStatus, key: string): (r: Option<PlayerCall>)
    ensures r.Some? <==> focus == GlobalFocus && Active(status)
                         && key in [" ", "right", "left", "]", "[", "\\"]
    ensures r.Some? ==>
      && (key == " " ==> r.value == PauseCall)
      && (key == "right" ==> r.value == SeekCall(5))
      && (key == "left" ==> r.value == SeekCall(-5))
      && (key == "]" ==> r.value == SpeedCall(0.25))
      && (key == "[" ==> r.value == SpeedCall(-0.25))
      && (key == "\\" ==> r.value == ResetSpeedCall)
  {
    if focus != GlobalFocus || !Active(status) then None
    else if key == " " then Some(PauseCall)
    else if key == "right" then Some(SeekCall(5))
    else if key == "left" then Some(SeekCall(-5))
    else if key == "]" then Some(SpeedCall(0.25))
    else if key == "[" then Some(SpeedCall(-0.25))
    else if key == "\\" then Some(ResetSpeedCall)
    else None
  }

  /** The position stored on quit: the song and the whole seconds of a
      positive position, when saving is on, the player is active and
      GetState answered. Go's int() conversion truncates toward zero. */
  function SaveOnQuit(saveOn: bool, status: PlayerStatus, songId: string,
                      answer: Option<PlayerState>): (r: Option<(string, int)>)
    ensures r.Some? <==> saveOn && Active(status) && answer.Some? && answer.value.position > 0.0
    ensures r.Some? ==> r.value.0 == songId && r.value.1 >= 0
                        && r.value.1 as real <= answer.value.position < r.value.1 as real + 1.0
  {
    if saveOn && Active(status) then
      match answer
      case Some(state) => if state.position > 0.0 then Some((songId, state.position.Floor)) else None
      case None => None
    else None
  }

  /** The footer shows the player unless it is idle or a component has
      the focus. */
  function FooterShowsPlayer(status: PlayerStatus, focus: FocusState): (r: bool)
    ensures r <==> status != Idle && focus != ComponentFocus
  {
    var show := status != Idle;
    if focus == ComponentFocus then false else show
  }

  /** A second application of the same state message changes nothing:
      app.go hands PlayerStateUpdateMsg to the player twice. */
  lemma StatusAfterIdempotent(status: PlayerStatus, isPlaying: bool)
    ensures StatusAfter(StatusAfter(status, isPlaying), isPlaying) == StatusAfter(status, isPlaying)
  {
  }

  // ---------------------------------------------------------------------
  // The model

  class AppModel {
    var focus: FocusState
    var activeView: ActiveView
    const config: Config
    const search: LF.ListAndFilterModel
    const history: LF.ListAndFilterModel
    const player: PlayerModel

    predicate Valid()
      reads this
    {
      search != history && search.title == "search" && history.title == "history"
    }

    /** InitialModel */
    constructor (cfg: Config)
      ensures Valid() && config == cfg && focus == GlobalFocus && activeView == SearchView
      ensures fresh(search) && fresh(history) && fresh(player) && player.status == Idle
    {
      focus := GlobalFocus;
      activeView := SearchView;
      config := cfg;
      search := new LF.ListAndFilterModel("search");
      history := new LF.ListAndFilterModel("history");
      player := new PlayerModel();
    }

    /** ChangeFocusMsg: the active component takes the input focus, or
        both components return to their input when the focus goes back. */
    method OnChangeFocus(f: FocusState)
      requires Valid()
      modifies this`focus, search`focus, history`focus
      ensures focus == f
      ensures f == GlobalFocus ==> search.focus == LF.InputFocus && history.focus == LF.InputFocus
      ensures f == ComponentFocus && activeView == SearchView ==>
        search.focus == LF.InputFocus && history.focus == old(history.focus)
      ensures f == ComponentFocus && activeView != SearchView ==>
        history.focus == LF.InputFocus && search.focus == old(search.focus)
    {
      focus := f;
      if f == ComponentFocus {
        if activeView == SearchView {
          search.focus := LF.InputFocus;
        } else {
          history.focus := LF.InputFocus;
        }
      } else {
        search.focus := LF.InputFocus;
        history.focus := LF.InputFocus;
      }
    }

    /** PlaySongMsg: focus back to global, the player loading the song,
        Play on the song's URL, and an AddToHistory for it. */
    method PlaySong(song: Song, playOk: bool) returns (url: string, effects: seq<Effect>)
      modifies this`focus, player
      ensures focus == GlobalFocus
      ensures player.status == Loading && player.song == song && player.err == None && player.state == ZeroState
      ensures url == PlayUrl(song.id, ResumeFor(config.playback.savePositionOnQuit, history.fullList, song.id))
      ensures effects == [if playOk then SongNowPlaying(song) else PlayError, AddToHistory(HistoryEntry(song, 0, 0))]
      ensures FooterShowsPlayer(player.status, focus)
    {
      focus := GlobalFocus;
      player.SetContent(Loading, song, None);
      var resumeAt := 0;
      if config.playback.savePositionOnQuit {
        var item := history.GetItem(song.id);
        if item.Some? && item.value.HistoryItem? {
          resumeAt := item.value.entry.resumeAt;
        }
      }
      url := WatchPrefix + song.id;
      if resumeAt > 0 {
        url := url + "&t=" + Decimal(resumeAt) + "s";
      }
      var first := if playOk then SongNowPlaying(song) else PlayError;
      effects := [first, AddToHistory(HistoryEntry(song, 0, 0))];
    }

    /** SongNowPlayingMsg */
    method OnSongNowPlaying(song: Song)
      modifies player
      ensures player.status == Playing && player.song == song && player.err == None
      ensures player.state == old(player.state)
    {
      player.SetContent(Playing, song, None);
    }

    /** PlayErrorMsg: the error replaces the song. */
    method OnPlayError(e: string)
      modifies player
      ensures player.status == Error && player.song == Song("", "", []) && player.err == Some(e)
      ensures player.state == ZeroState
    {
      player.SetContent(Error, Song("", "", []), Some(e));
    }

    /** TickMsg: GetState is asked only while the player is active; its
        answer, when there is one, becomes a state message; a new tick is
        always scheduled. */
    method OnTick(answer: Option<PlayerState>) returns (queried: bool, effects: seq<Effect>)
      ensures queried <==> Active(player.status)
      ensures |effects| == (if queried && answer.Some? then 2 else 1)
      ensures effects[|effects| - 1] == NextTick
      ensures |effects| == 2 ==> effects[0] == StateUpdate(answer.value)
    {
      effects := [];
      queried := false;
      if player.status == Playing || player.status == Paused {
        queried := true;
        if answer.Some? {
          effects := effects + [StateUpdate(answer.value)];
        }
      }
      effects := effects + [NextTick];
    }

    /** PlayerStateUpdateMsg, handled by the player twice in one Update. */
    method OnStateUpdate(state: PlayerState)
      modifies player
      ensures player.state == state
      ensures player.status == StatusAfter(old(player.status), state.isPlaying)
    {
      player.UpdateState(state);
      player.UpdateState(state);
      StatusAfterIdempotent(old(player.status), state.isPlaying);
    }

    /** The playback keys under global focus. */
    method PlaybackKey(key: string) returns (call: Option<PlayerCall>)
      ensures call == KeyCall(focus, player.status, key)
    {
      call := None;
      if focus == GlobalFocus {
        var active := player.status == Playing || player.status == Paused;
        if key == " " && active {
          call := Some(PauseCall);
        } else if key == "right" && active {
          call := Some(SeekCall(5));
        } else if key == "left" && active {
          call := Some(SeekCall(-5));
        } else if key == "]" && active {
          call := Some(SpeedCall(0.25));
        } else if key == "[" && active {
          call := Some(SpeedCall(-0.25));
        } else if key == "\\" && active {
          call := Some(ResetSpeedCall);
        }
      }
    }

    /** "s": show the search pane and hand it the focus. */
    method ShowSearch() returns (effects: seq<Effect>)
      requires focus == GlobalFocus
      modifies this`activeView
      ensures activeView == SearchView && effects == [ChangeFocus(ComponentFocus)]
    {
      activeView := SearchView;
      effects := [ChangeFocus(ComponentFocus)];
    }

    /** "h": show the history pane, reload it and hand it the focus. */
    method ShowHistory() returns (effects: seq<Effect>)
      requires focus == GlobalFocus && Valid()
      modifies this`activeView, history`isLoading, history`marked
      ensures activeView == HistoryView_ && history.isLoading && history.marked == {}
      ensures effects == [FetchHistory, ChangeFocus(ComponentFocus)]
    {
      activeView := HistoryView_;
      var _ := history.Init();
      effects := [FetchHistory, ChangeFocus(ComponentFocus)];
    }

    /** savePositionAndQuit: whether GetState is asked, and what is stored. */
    method Quit(answer: Option<PlayerState>) returns (queried: bool, saved: Option<(string, int)>)
      ensures queried <==> config.playback.savePositionOnQuit && Active(player.status)
      ensures saved == SaveOnQuit(config.playback.savePositionOnQuit, player.status, player.song.id, answer)
    {
      queried := false;
      saved := None;
      if config.playback.savePositionOnQuit && (player.status == Playing || player.status == Paused) {
        queried := true;
        if answer.Some? && answer.value.position > 0.0 {
          saved := Some((player.song.id, answer.value.position.Floor));
        }
      }
    }
  }
}
