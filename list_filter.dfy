/** internal/ui/shared.go: the list-and-filter component used for the
    search and the history panes. The text input, the list widget and the
    spinner are abstracted: the key handler receives the input's value
    after the key was typed and the list's selected item. */
module ListFilter {
  import opened Text
  import opened Domain
  import Utils

  /** A list entry: a search result or a history record. */
  datatype ListItem = SearchItem(song: Song) | HistoryItem(entry: HistoryEntry)

  function ItemSong(item: ListItem): Song
  {
    match item
    case SearchItem(s) => s
    case HistoryItem(e) => e.song
  }

  /** listItem.ID(): the song's id. */
  function ItemId(item: ListItem): string
  {
    ItemSong(item).id
  }

  /** FilterValue(): the song's title. */
  function FilterValue(item: ListItem): string
  {
    ItemSong(item).title
  }

  // ---------------------------------------------------------------------
  // Filtering

  /** Case-insensitive substring match. */
  predicate MatchesTerm(value: string, term: string)
  {
    Contains(Lower(value), Lower(term))
  }

  /** The items whose value matches the term, in their original order. */
  function Keep<T(!new)>(items: seq<T>, value: T -> string, term: string): (r: seq<T>)
    ensures |r| <= |items|
    ensures forall x :: x in r <==> x in items && MatchesTerm(value(x), term)
  {
    if items == [] then []
    else
      var init := items[..|items| - 1];
      var last := items[|items| - 1];
      assert items == init + [last];
      Keep(init, value, term) + (if MatchesTerm(value(last), term) then [last] else [])
  }

  /** What the list shows for a filter term: everything for the empty
      term, the matching items otherwise. */
  function Filtered<T(!new)>(items: seq<T>, value: T -> string, term: string): seq<T>
  {
    if term == "" then items else Keep(items, value, term)
  }

  /** Filtering keeps the relative order: filtering a concatenation is
      the concatenation of the filtered parts. */
  lemma {:induction false} KeepSplits<T(!new)>(a: seq<T>, b: seq<T>, value: T -> string, term: string)
    ensures Keep(a + b, value, term) == Keep(a, value, term) + Keep(b, value, term)
  {
    if b == [] {
      assert a + b == a;
    } else {
      var init := b[..|b| - 1];
      var last := b[|b| - 1];
      assert (a + b)[..|a + b| - 1] == a + init;
      assert (a + b)[|a + b| - 1] == last;
      KeepSplits(a, init, value, term);
      var tail := if MatchesTerm(value(last), term) then [last] else [];
      assert Keep(a + b, value, term) == Keep(a + init, value, term) + tail;
      assert Keep(b, value, term) == Keep(init, value, term) + tail;
    }
  }

  /** The empty term matches every value, so the shortcut for it agrees
      with the general filter. */
  lemma {:induction false} EmptyTermKeepsAll<T(!new)>(items: seq<T>, value: T -> string)
    ensures Keep(items, value, "") == items
  {
    if items != [] {
      EmptyTermKeepsAll(items[..|items| - 1], value);
      assert OccursAt(Lower(value(items[|items| - 1])), [], 0);
      assert items == items[..|items| - 1] + [items[|items| - 1]];
    }
  }

  /** Filtering the filtered list again with the same term changes nothing. */
  lemma {:induction false} KeepIdempotent<T(!new)>(items: seq<T>, value: T -> string, term: string)
    ensures Keep(Keep(items, value, term), value, term) == Keep(items, value, term)
  {
    if items != [] {
      var init := items[..|items| - 1];
      var last := items[|items| - 1];
      KeepIdempotent(init, value, term);
      var tail := if MatchesTerm(value(last), term) then [last] else [];
      KeepSplits(Keep(init, value, term), tail, value, term);
      if tail != [] {
        assert tail[..0] == [];
      }
    }
  }

  /** The filter loop of Update (shared by both list models). */
  method FilterBy<T(!new)>(items: seq<T>, value: T -> string, term: string) returns (shown: seq<T>)
    ensures shown == Filtered(items, value, term)
  {
    if term == "" {
      return items;
    }
    shown := [];
    for i := 0 to |items|
      invariant shown == Keep(items[..i], value, term)
    {
      assert items[..i + 1][..i] == items[..i];
      if MatchesTerm(value(items[i]), term) {
        shown := shown + [items[i]];
      }
    }
    assert items[..|items|] == items;
  }

  // ---------------------------------------------------------------------
  // Marking for deletion

  /** The 'x' key: an id joins the marked set, or leaves it when present. */
  function Toggle(marked: set<string>, id: string): (r: set<string>)
    ensures id in r <==> id !in marked
    ensures forall x :: x != id ==> (x in r <==> x in marked)
  {
    if id in marked then marked - {id} else marked + {id}
  }

  /** Toggling twice restores the set. */
  lemma ToggleTwice(marked: set<string>, id: string)
    ensures Toggle(Toggle(marked, id), id) == marked
  {
  }

  /** The 'd' key's id list: every marked id exactly once (in the map's
      iteration order, which Go leaves unspecified). */
  method MarkedIds(marked: set<string>) returns (ids: seq<string>)
    ensures |ids| == |marked|
    ensures forall x :: x in ids <==> x in marked
    ensures forall i, j :: 0 <= i < j < |ids| ==> ids[i] != ids[j]
  {
    ids := [];
    var rest := marked;
    while rest != {}
      invariant rest <= marked
      invariant forall x :: x in marked <==> x in rest || x in ids
      invariant forall x :: x in ids ==> x !in rest
      invariant forall i, j :: 0 <= i < j < |ids| ==> ids[i] != ids[j]
      invariant |ids| + |rest| == |marked|
      decreases |rest|
    {
      var x :| x in rest;
      ids := ids + [x];
      rest := rest - {x};
    }
  }

  // ---------------------------------------------------------------------
  // Lookup and rendering

  /** The first item with the given id, if any. */
  function FirstWithId(items: seq<ListItem>, id: string): (r: Option<ListItem>)
    ensures r.None? <==> forall i :: 0 <= i < |items| ==> ItemId(items[i]) != id
    ensures r.Some? ==> exists i :: 0 <= i < |items| && items[i] == r.value && ItemId(r.value) == id
                          && forall j :: 0 <= j < i ==> ItemId(items[j]) != id
  {
    if items == [] then None
    else if ItemId(items[0]) == id then Some(items[0])
    else
      var r := FirstWithId(items[1..], id);
      assert forall j :: 1 <= j < |items| ==> items[j] == items[1..][j - 1];
      if r.Some? then
        var i :| 0 <= i < |items[1..]| && items[1..][i] == r.value && ItemId(r.value) == id
                 && forall j :: 0 <= j < i ==> ItemId(items[1..][j]) != id;
        assert items[i + 1] == r.value;
        r
      else r
  }

  /** The delegate's line: "x " before marked items, cut with "..." when
      the list has a width and the line is longer than the room left
      beside the pointer. None when Go's slice bound would be negative
      (a room of fewer than three characters), where the Go code panics. */
  function RenderLine(item: ListItem, marked: set<string>, width: int, pointerWidth: int): (r: Option<string>)
    ensures var line := (if ItemId(item) in marked then "x " else "") + FilterValue(item);
      var room := width - pointerWidth;
      && (r.None? <==> width > 0 && |line| > room && room < 3)
      && (r.Some? && (width <= 0 || |line| <= room) ==> r.value == line)
      && (r.Some? && width > 0 && |line| > room ==> |r.value| == room && r.value == line[..room - 3] + "...")
  {
    var line := (if ItemId(item) in marked then "x " else "") + FilterValue(item);
    if width > 0 then
      var room := width - pointerWidth;
      if |line| > room then
        if room < 3 then None else Some(line[..room - 3] + "...")
      else Some(line)
    else Some(line)
  }

  /** With room for at least the ellipsis, the cut is `truncate` of utils.go. */
  lemma RenderIsTruncate(item: ListItem, marked: set<string>, width: int, pointerWidth: int)
    requires width > 0 && width - pointerWidth > 3
    ensures var line := (if ItemId(item) in marked then "x " else "") + FilterValue(item);
      RenderLine(item, marked, width, pointerWidth) == Some(Utils.Truncate(line, width - pointerWidth))
  {
  }

  // ---------------------------------------------------------------------
  // The component

  datatype Focus = InputFocus | ListFocus

  /** What an Update asks the program to do next. */
  datatype Cmd =
    | NoCmd
    | SpinnerTick                        // the spinner consumed the message
    | FocusGlobal                        // ChangeFocusMsg{GlobalFocus}
    | Fetch(query: string)               // dataSource.Fetch
    | PlaySong(song: Song)               // PlaySongMsg
    | DeleteFromHistory(ids: seq<string>)
    | Widget                             // the text input's or the list's own command

  function Other(f: Focus): Focus
  {
    if f == InputFocus then ListFocus else InputFocus
  }

  function SearchItems(songs: seq<Song>): (r: seq<ListItem>)
    ensures |r| == |songs| && forall i :: 0 <= i < |songs| ==> r[i] == SearchItem(songs[i])
  {
    if songs == [] then [] else [SearchItem(songs[0])] + SearchItems(songs[1..])
  }

  function HistoryItems(entries: seq<HistoryEntry>): (r: seq<ListItem>)
    ensures |r| == |entries| && forall i :: 0 <= i < |entries| ==> r[i] == HistoryItem(entries[i])
  {
    if entries == [] then [] else [HistoryItem(entries[0])] + HistoryItems(entries[1..])
  }

  class ListAndFilterModel {
    const title: string
    var focus: Focus
    var isLoading: bool
    var err: Option<string>
    var input: string
    var fullList: seq<ListItem>
    var shown: seq<ListItem>
    var marked: set<string>

    /** NewListAndFilterModel */
    constructor (title: string)
      ensures this.title == title && focus == InputFocus && !isLoading && err == None
      ensures input == "" && fullList == [] && shown == [] && marked == {}
    {
      this.title := title;
      focus := InputFocus;
      isLoading := false;
      err := None;
      input := "";
      fullList := [];
      shown := [];
      marked := {};
    }

    /** Init: start loading and forget the marks. */
    method Init() returns (query: string)
      modifies this`isLoading, this`marked
      ensures isLoading && marked == {} && query == ""
    {
      isLoading := true;
      marked := {};
      query := "";
    }

    method OnSearchResults(songs: seq<Song>)
      modifies this`isLoading, this`shown
      ensures !isLoading && shown == SearchItems(songs)
    {
      isLoading := false;
      shown := SearchItems(songs);
    }

    method OnHistoryLoaded(entries: seq<HistoryEntry>)
      modifies this`isLoading, this`fullList, this`shown
      ensures !isLoading && fullList == HistoryItems(entries) && shown == fullList
    {
      isLoading := false;
      fullList := HistoryItems(entries);
      shown := fullList;
    }

    /** SearchErrorMsg and HistoryErrorMsg. */
    method OnError(e: string)
      modifies this`isLoading, this`err
      ensures !isLoading && err == Some(e)
    {
      isLoading := false;
      err := Some(e);
    }

    /** GetItem: a linear search of the full list. */
    method GetItem(id: string) returns (r: Option<ListItem>)
      ensures r == FirstWithId(fullList, id)
    {
      var i := 0;
      while i < |fullList|
        invariant 0 <= i <= |fullList|
        invariant FirstWithId(fullList[i..], id) == FirstWithId(fullList, id)
        decreases |fullList| - i
      {
        assert fullList[i..][1..] == fullList[i + 1..];
        if ItemId(fullList[i]) == id {
          return Some(fullList[i]);
        }
        i := i + 1;
      }
      return None;
    }

    /** A key press. `typed` is the input's value once the text input has
        seen the key; `selected` is the list's selected item. */
    method HandleKey(key: string, typed: string, selected: Option<ListItem>) returns (cmd: Cmd)
      modifies this`focus, this`isLoading, this`err, this`input, this`shown, this`marked
      ensures old(isLoading) ==> cmd == SpinnerTick && unchanged(this)
      ensures !old(isLoading) && key == "esc" ==> cmd == FocusGlobal && unchanged(this)
      ensures !old(isLoading) && key == "tab" ==>
        cmd == NoCmd && focus == Other(old(focus))
        && isLoading == old(isLoading) && err == old(err) && input == old(input)
        && shown == old(shown) && marked == old(marked)
      // the search pane's input
      ensures !old(isLoading) && key != "esc" && key != "tab" && old(focus) == InputFocus && title == "search" ==>
        input == typed && marked == old(marked)
        && (key == "enter" && typed != "" ==>
              cmd == Fetch(typed) && isLoading && err == None && shown == [] && focus == ListFocus)
        && (key == "enter" && typed == "" ==> cmd == NoCmd)
        && (key != "enter" ==> cmd == Widget)
        && (key != "enter" || typed == "" ==>
              isLoading == old(isLoading) && err == old(err)
              && shown == old(shown) && focus == old(focus))
      // the history pane's input: filter as you type
      ensures !old(isLoading) && key != "esc" && key != "tab" && old(focus) == InputFocus && title != "search" ==>
        cmd == Widget && input == typed && shown == Filtered(fullList, FilterValue, typed)
        && focus == old(focus) && isLoading == old(isLoading) && err == old(err) && marked == old(marked)
      // the list
      ensures !old(isLoading) && key != "esc" && key != "tab" && old(focus) == ListFocus ==>
        focus == old(focus) && isLoading == old(isLoading) && err == old(err)
        && input == old(input) && shown == old(shown)
        && (key == "enter" && selected.Some? ==> cmd == PlaySong(ItemSong(selected.value)))
        && (key == "x" && title == "history" && selected.Some? ==>
              marked == Toggle(old(marked), ItemId(selected.value)) && cmd == Widget)
        && (key != "x" || title != "history" || selected.None? ==> marked == old(marked))
        && (key == "d" && title == "history" && |old(marked)| > 0 ==>
              cmd.DeleteFromHistory? && |cmd.ids| == |marked|
              && forall x :: x in cmd.ids <==> x in marked)
        && (key == "d" && (title != "history" || |old(marked)| == 0) ==> cmd == Widget)
        // every other key goes to the list widget
        && ((!(key == "enter" && selected.Some?)
             && !(key == "x" && title == "history" && selected.Some?)
             && !(key == "d" && title == "history" && |old(marked)| > 0))
            ==> cmd == Widget)
    {
      if isLoading {
        return SpinnerTick;
      }
      if key == "esc" {
        return FocusGlobal;
      }
      if key == "tab" {
        focus := Other(focus);
        return NoCmd;
      }
      if focus == InputFocus {
        input := typed;
        if title == "search" {
          if key == "enter" {
            if isLoading || input == "" {
              return NoCmd;
            }
            isLoading := true;
            err := None;
            shown := [];
            focus := ListFocus;
            return Fetch(input);
          }
          return Widget;
        }
        shown := FilterBy(fullList, FilterValue, input);
        return Widget;
      }
      if key == "enter" && selected.Some? {
        return PlaySong(ItemSong(selected.value));
      }
      if key == "x" && title == "history" && selected.Some? {
        marked := Toggle(marked, ItemId(selected.value));
        return Widget;
      }
      if key == "d" && title == "history" && |marked| > 0 {
        var ids := MarkedIds(marked);
        return DeleteFromHistory(ids);
      }
      return Widget;
    }
  }
}
