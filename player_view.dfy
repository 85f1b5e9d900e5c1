/** internal/ui/player.go: the player panel's status, its state
    snapshot, the clock text and the play/pause symbol. */
module PlayerView {
  import opened Text
  import opened Domain

  datatype PlayerStatus = Idle | Loading | Playing | Paused | Error

  /** The status after a state update: a playing snapshot forces Playing;
      a stopped one turns Playing into Paused and leaves the rest alone. */
  function StatusAfter(status: PlayerStatus, isPlaying: bool): (r: PlayerStatus)
    ensures r == Playing <==> isPlaying
    ensures !isPlaying && status == Playing ==> r == Paused
    ensures !isPlaying && status != Playing ==> r == status
  {
    if isPlaying then Playing
    else if status == Playing then Paused
    else status
  }

  /** The symbol in the panel title. */
  function PlayPauseSymbol(isPlaying: bool): (r: string)
    ensures |r| == 1
    ensures r == (if isPlaying then "\U{2161}" else "\U{25B6}")
  {
    if isPlaying then "\U{2161}" else "\U{25B6}"
  }

  /** The symbol tells the two states apart. */
  lemma SymbolShowsState(a: bool, b: bool)
    ensures PlayPauseSymbol(a) == PlayPauseSymbol(b) <==> a == b
  {
    if a != b {
      assert PlayPauseSymbol(a)[0] != PlayPauseSymbol(b)[0];
    }
  }

  // ---------------------------------------------------------------------
  // formatDuration, on whole seconds

  /** formatDuration: "00:00" when there is nothing to show; otherwise
      "h:MM:SS" with at least one hour and "MM:SS" below an hour. */
  function FormatDuration(seconds: int): (r: string)
    ensures seconds <= 0 ==> r == "00:00"
    ensures 0 < seconds < 3600 ==> |r| == 5 && r[2] == ':'
    ensures seconds >= 3600 ==> |r| >= 7 && r[|r| - 3] == ':' && r[|r| - 6] == ':'
  {
    if seconds <= 0 then "00:00"
    else
      var h := seconds / 3600;
      var m := (seconds / 60) % 60;
      var s := seconds % 60;
      if h > 0 then Decimal(h) + ":" + Pad2(m) + ":" + Pad2(s)
      else Pad2(m) + ":" + Pad2(s)
  }

  predicate AllDigits(s: string)
  {
    forall i :: 0 <= i < |s| ==> IsDigit(s[i])
  }

  /** Reading a clock text back: "MM:SS", or "h:MM:SS" with an hour
      field of at least 1 and no leading zero, to seconds; minute and
      second fields must be below 60. */
  function ClockSeconds(r: string): Option<nat>
  {
    if |r| == 5 && r[2] == ':' && AllDigits(r[..2]) && AllDigits(r[3..])
       && DecimalValue(r[..2]) < 60 && DecimalValue(r[3..]) < 60 then
      Some(60 * DecimalValue(r[..2]) + DecimalValue(r[3..]))
    else if |r| >= 7 && r[|r| - 3] == ':' && r[|r| - 6] == ':' && r[0] != '0'
            && AllDigits(r[..|r| - 6]) && AllDigits(r[|r| - 5..|r| - 3]) && AllDigits(r[|r| - 2..])
            && DecimalValue(r[|r| - 5..|r| - 3]) < 60 && DecimalValue(r[|r| - 2..]) < 60 then
      Some(3600 * DecimalValue(r[..|r| - 6]) + 60 * DecimalValue(r[|r| - 5..|r| - 3])
           + DecimalValue(r[|r| - 2..]))
    else None
  }

  /** The hours, minutes and seconds shown add up to the input. */
  lemma ClockParts(seconds: nat)
    ensures (seconds / 3600) * 3600 + ((seconds / 60) % 60) * 60 + seconds % 60 == seconds
  {
    var q := seconds / 60;
    assert seconds == q * 60 + seconds % 60;
    assert q == (q / 60) * 60 + q % 60;
    assert q / 60 == seconds / 3600;
  }

  /** Every positive duration can be read back from its clock text. */
  lemma FormatDurationRoundTrip(seconds: int)
    requires seconds > 0
    ensures ClockSeconds(FormatDuration(seconds)) == Some(seconds)
  {
    var h := seconds / 3600;
    var m := (seconds / 60) % 60;
    var s := seconds % 60;
    ClockParts(seconds);
    var mm, ss := Pad2(m), Pad2(s);
    var r := FormatDuration(seconds);
    if h > 0 {
      var d := Decimal(h);
      assert r == d + ":" + mm + ":" + ss;
      assert r[..|r| - 6] == d && r[|r| - 5..|r| - 3] == mm && r[|r| - 2..] == ss;
      DecimalRoundTrip(h);
    } else {
      assert r == mm + ":" + ss;
      assert r[..2] == mm && r[3..] == ss;
    }
  }

  /** The fields of h:MM:SS with MM and SS below 60 are the quotient
      and remainders that formatDuration takes. */
  lemma ClockFields(h: nat, m: nat, s: nat)
    requires m < 60 && s < 60
    ensures var n := 3600 * h + 60 * m + s;
      n / 3600 == h && (n / 60) % 60 == m && n % 60 == s
  {
    var n := 3600 * h + 60 * m + s;
    assert n == (60 * h + m) * 60 + s;
    assert n / 60 == 60 * h + m;
    assert n == h * 3600 + (60 * m + s) && 60 * m + s < 3600;
  }

  /** The clock text is the only one that reads back as its value: every
      text that ClockSeconds accepts is what formatDuration prints. */
  lemma ClockTextUnique(t: string, n: nat)
    requires ClockSeconds(t) == Some(n)
    ensures FormatDuration(n) == t
  {
    if |t| == 5 && t[2] == ':' && AllDigits(t[..2]) && AllDigits(t[3..])
       && DecimalValue(t[..2]) < 60 && DecimalValue(t[3..]) < 60 {
      var m, s := DecimalValue(t[..2]), DecimalValue(t[3..]);
      ClockFields(0, m, s);
      Pad2OfValue(t[..2]);
      Pad2OfValue(t[3..]);
      assert t == t[..2] + ":" + t[3..];
      if n == 0 {
        assert t[..2] == Pad2(0) && t[3..] == Pad2(0);
      }
    } else {
      var hs, ms, ss := t[..|t| - 6], t[|t| - 5..|t| - 3], t[|t| - 2..];
      var h, m, s := DecimalValue(hs), DecimalValue(ms), DecimalValue(ss);
      assert hs[0] == t[0];
      DecimalPositive(hs);
      DecimalOfValue(hs);
      ClockFields(h, m, s);
      Pad2OfValue(ms);
      Pad2OfValue(ss);
      assert t == hs + ":" + ms + ":" + ss;
    }
  }

  // ---------------------------------------------------------------------
  // The panel

  /** PlayerModel: status, song, error text and the latest snapshot
      (width and the progress bar are rendering only). */
  class PlayerModel {
    var status: PlayerStatus
    var song: Song
    var err: Option<string>
    var state: PlayerState

    /** NewPlayerModel */
    constructor ()
      ensures status == Idle && state == ZeroState && err == None
    {
      status := Idle;
      song := Song("", "", []);
      err := None;
      state := ZeroState;
    }

    /** SetContent: a status other than playing or paused also clears the
        snapshot. */
    method SetContent(newStatus: PlayerStatus, newSong: Song, newErr: Option<string>)
      modifies this
      ensures status == newStatus && song == newSong && err == newErr
      ensures state == if newStatus == Playing || newStatus == Paused then old(state) else ZeroState
    {
      status := newStatus;
      song := newSong;
      err := newErr;
      if newStatus != Playing && newStatus != Paused {
        state := ZeroState;
      }
    }

    /** Update on a state message: store the snapshot and move the status. */
    method UpdateState(snapshot: PlayerState)
      modifies this`state, this`status
      ensures state == snapshot && status == StatusAfter(old(status), snapshot.isPlaying)
    {
      state := snapshot;
      if state.isPlaying {
        status := Playing;
      } else if status == Playing {
        status := Paused;
      }
    }
  }
}
