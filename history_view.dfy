/** internal/ui/history.go: the history pane. Its list holds history
    entries; the filter is the one of the list-and-filter component, on
    the entries' titles. */
module HistoryView {
  import opened Text
  import opened Domain
  import opened ListFilter

  /** historyItem.FilterValue */
  function EntryTitle(e: HistoryEntry): string
  {
    e.song.title
  }

  /** GetResumeAt's answer: the resume position of the first entry for the
      song, 0 when there is none. */
  function ResumeAt(entries: seq<HistoryEntry>, songId: string): (r: int)
    ensures (forall i :: 0 <= i < |entries| ==> entries[i].song.id != songId) ==> r == 0
  {
    if entries == [] then 0
    else if entries[0].song.id == songId then entries[0].resumeAt
    else ResumeAt(entries[1..], songId)
  }

  /** When some entry is for the song, the answer is the resume position
      of the first such entry. */
  lemma {:induction false} ResumeAtFirstMatch(entries: seq<HistoryEntry>, songId: string)
    requires exists i :: 0 <= i < |entries| && entries[i].song.id == songId
    ensures exists i :: 0 <= i < |entries| && entries[i].song.id == songId
                        && ResumeAt(entries, songId) == entries[i].resumeAt
                        && forall j :: 0 <= j < i ==> entries[j].song.id != songId
  {
    if entries[0].song.id != songId {
      var k :| 0 <= k < |entries| && entries[k].song.id == songId;
      assert entries[1..][k - 1].song.id == songId;
      ResumeAtFirstMatch(entries[1..], songId);
      var i :| 0 <= i < |entries[1..]| && entries[1..][i].song.id == songId
               && ResumeAt(entries[1..], songId) == entries[1..][i].resumeAt
               && forall j :: 0 <= j < i ==> entries[1..][j].song.id != songId;
      assert entries[i + 1] == entries[1..][i];
      assert forall j :: 1 <= j < i + 1 ==> entries[j] == entries[1..][j - 1];
    }
  }

  /** The resume position of an entry that heads the list is the one found. */
  lemma {:induction false} ResumeAtOfFirst(e: HistoryEntry, rest: seq<HistoryEntry>)
    ensures ResumeAt([e] + rest, e.song.id) == e.resumeAt
  {
  }

  /** Entries for other songs in front do not change the answer. */
  lemma {:induction false} ResumeAtSkips(front: seq<HistoryEntry>, rest: seq<HistoryEntry>, songId: string)
    requires forall i :: 0 <= i < |front| ==> front[i].song.id != songId
    ensures ResumeAt(front + rest, songId) == ResumeAt(rest, songId)
  {
    if front == [] {
      assert front + rest == rest;
    } else {
      assert (front + rest)[0] == front[0];
      assert (front + rest)[1..] == front[1..] + rest;
      ResumeAtSkips(front[1..], rest, songId);
    }
  }

  class HistoryModel {
    var focus: Focus
    var isLoading: bool
    var err: Option<string>
    var input: string
    var fullHistory: seq<HistoryEntry>
    var shown: seq<HistoryEntry>

    /** NewHistoryModel */
    constructor ()
      ensures focus == InputFocus && !isLoading && err == None
      ensures input == "" && fullHistory == [] && shown == []
    {
      focus := InputFocus;
      isLoading := false;
      err := None;
      input := "";
      fullHistory := [];
      shown := [];
    }

    /** Init: start loading; the spinner and the history load follow. */
    method Init()
      modifies this`isLoading
      ensures isLoading
    {
      isLoading := true;
    }

    /** GetResumeAt: a linear search with an early return. */
    method GetResumeAt(songId: string) returns (r: int)
      ensures r == ResumeAt(fullHistory, songId)
    {
      var i := 0;
      while i < |fullHistory|
        invariant 0 <= i <= |fullHistory|
        invariant forall j :: 0 <= j < i ==> fullHistory[j].song.id != songId
        decreases |fullHistory| - i
      {
        if fullHistory[i].song.id == songId {
          assert fullHistory == fullHistory[..i] + ([fullHistory[i]] + fullHistory[i + 1..]);
          ResumeAtSkips(fullHistory[..i], [fullHistory[i]] + fullHistory[i + 1..], songId);
          ResumeAtOfFirst(fullHistory[i], fullHistory[i + 1..]);
          return fullHistory[i].resumeAt;
        }
        i := i + 1;
      }
      assert fullHistory == fullHistory + [];
      ResumeAtSkips(fullHistory, [], songId);
      return 0;
    }

    /** HistoryLoadedMsg: the entries, in order, become the full and the
        shown list. */
    method OnLoaded(entries: seq<HistoryEntry>)
      modifies this`isLoading, this`fullHistory, this`shown
      ensures !isLoading && fullHistory == entries && shown == entries
    {
      isLoading := false;
      fullHistory := entries;
      shown := entries;
    }

    /** HistoryErrorMsg */
    method OnError(e: string)
      modifies this`isLoading, this`err
      ensures !isLoading && err == Some(e)
    {
      isLoading := false;
      err := Some(e);
    }

    /** A key press; `typed` is the input's value once the text input has
        seen the key, `selected` the list's selected entry. */
    method HandleKey(key: string, typed: string, selected: Option<HistoryEntry>) returns (cmd: Cmd)
      modifies this`focus, this`input, this`shown
      ensures old(isLoading) ==> cmd == SpinnerTick && unchanged(this)
      ensures !old(isLoading) && key == "esc" ==> cmd == FocusGlobal && unchanged(this)
      ensures !old(isLoading) && key == "tab" ==>
        cmd == NoCmd && focus == Other(old(focus)) && input == old(input) && shown == old(shown)
      ensures !old(isLoading) && key != "esc" && key != "tab" && old(focus) == InputFocus ==>
        cmd == Widget && focus == old(focus) && input == typed
        && shown == Filtered(fullHistory, EntryTitle, typed)
      ensures !old(isLoading) && key != "esc" && key != "tab" && old(focus) == ListFocus ==>
        focus == old(focus) && input == old(input) && shown == old(shown)
        && cmd == (if key == "enter" && selected.Some? then PlaySong(selected.value.song) else Widget)
    {
      if isLoading {
        return SpinnerTick;
      }
      if key == "esc" {
        return FocusGlobal;
      }
      if key == "tab" {
        focus := Other(focus);
        return NoCmd;
      }
      if focus == InputFocus {
        input := typed;
        shown := FilterBy(fullHistory, EntryTitle, input);
        return Widget;
      }
      if key == "enter" && selected.Some? {
        return PlaySong(selected.value.song);
      }
      return Widget;
    }
  }
}
