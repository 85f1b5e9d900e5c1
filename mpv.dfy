/** The mpv controller of internal/services/player/mpv.go: it launches mpv
    in idle mode, waits for its JSON IPC socket, sends commands over a
    short-lived connection and collects the replies.

    The operating system is not modelled. Each call receives what the
    world does as plain values: whether dialling and writing succeed and
    the lines that arrive before the read deadline (`Link`), and whether
    the process starts and which socket probes find the file (`Launch`).
    The ghost `effects` trace records what the controller does to the
    world: processes spawned, socket checks, kills, socket removals and
    command batches sent. */
module Mpv {
  import opened Text
  import opened Domain

  const SocketCheckRetries: nat := 20
  const ReqIdPause := 1
  const ReqIdPos := 2
  const ReqIdDur := 3
  const ReqIdSpeed := 4

  /** One token of an mpv command; floats are modelled as reals. */
  datatype Token = Str(s: string) | Int(i: int) | Float(f: real)

  /** An outbound command; `requestId` 0 means the field is omitted. */
  datatype MpvCommand = MpvCommand(command: seq<Token>, requestId: int)

  /** The `data` member of a reply, by its decoded JSON type. */
  datatype Data = Null | Bool(b: bool) | Number(x: real) | Text(s: string) | Other

  /** A decoded reply line; absent members decode to their zero values. */
  datatype MpvResponse = MpvResponse(error: string, data: Data, requestId: int, event: string)

  /** One line read from the socket: either it fails to decode or it does. */
  datatype Incoming = Malformed | Decoded(resp: MpvResponse)

  /** What the socket does during one exchange; the stream ends (read
      deadline, EOF or read error) after the last item of `incoming`. */
  datatype Link = Link(dialOk: bool, encodeOk: bool, incoming: seq<Incoming>)

  /** What happens when mpv is launched: whether the stored process has
      exited, whether `Start` succeeds, and the outcome of each socket
      check in order (a missing outcome means the file is absent). */
  datatype Launch = Launch(exited: bool, startOk: bool, probes: seq<bool>)

  datatype MpvError = ConnectFailed | SendFailed | StartFailed | SocketTimeout

  datatype Result<T> = Ok(value: T) | Err(error: MpvError)

  datatype Outcome = Pass | Fail(error: MpvError)

  /** The handle of a launched mpv process, with the arguments it got. */
  datatype Proc = Proc(args: seq<string>)

  /** What the controller does to the outside world. `Attempt` is a batch
      handed to sendCommands; whether it reached mpv depends on the
      link (the dial or the write may fail). */
  datatype Effect = RemoveSocket | Spawn(args: seq<string>) | Stat | Kill | Attempt(cmds: seq<MpvCommand>)

  // ---------------------------------------------------------------------
  // Response collection (sendCommands)

  /** A reply counts towards the batch iff it is not an event and carries
      a positive request id. */
  predicate Counted(r: MpvResponse) {
    r.event == "" && r.requestId > 0
  }

  /** The replies of a stream that count, in arrival order. */
  function Kept(items: seq<Incoming>): seq<MpvResponse>
  {
    if items == [] then []
    else (if items[0].Decoded? && Counted(items[0].resp) then [items[0].resp] else [])
         + Kept(items[1..])
  }

  lemma {:induction false} KeptAppend(a: seq<Incoming>, b: seq<Incoming>)
    ensures Kept(a + b) == Kept(a) + Kept(b)
  {
    if a == [] {
      assert a + b == b;
    } else {
      assert (a + b)[1..] == a[1..] + b;
      KeptAppend(a[1..], b);
    }
  }

  /** A reply is kept exactly when some line decodes to it and it counts. */
  lemma {:induction false} KeptMembers(items: seq<Incoming>, r: MpvResponse)
    ensures r in Kept(items) <==> Counted(r) && Decoded(r) in items
  {
    if items != [] {
      KeptMembers(items[1..], r);
      assert items == [items[0]] + items[1..];
    }
  }

  /** The spec of one exchange: a dial or write failure is an error;
      otherwise the counted replies, at most one per command sent. */
  function Exchange(cmds: seq<MpvCommand>, link: Link): Result<seq<MpvResponse>>
  {
    if !link.dialOk then Err(ConnectFailed)
    else if !link.encodeOk then Err(SendFailed)
    else Ok(Take(Kept(link.incoming), |cmds|))
  }

  /** The replies mpv sends for untagged commands carry request id 0;
      they are never collected, so a one-command exchange ends only with
      the stream and never looks at mpv's `error` member. */
  lemma {:induction false} UntaggedRepliesIgnored(items: seq<Incoming>)
    requires forall i :: 0 <= i < |items| && items[i].Decoded? ==> items[i].resp.requestId == 0
    ensures Kept(items) == []
  {
    if items != [] {
      UntaggedRepliesIgnored(items[1..]);
    }
  }

  /** sendCommands: dial, write every command, then read lines until as
      many counted replies as commands are held or the stream ends. */
  method SendCommands(cmds: seq<MpvCommand>, link: Link) returns (r: Result<seq<MpvResponse>>)
    ensures r == Exchange(cmds, link)
    ensures r.Err? <==> !link.dialOk || !link.encodeOk
    ensures r.Ok? ==> |r.value| <= |cmds|
    ensures r.Ok? ==> forall k :: 0 <= k < |r.value| ==>
                        Counted(r.value[k]) && Decoded(r.value[k]) in link.incoming
  {
    if !link.dialOk {
      return Err(ConnectFailed);
    }
    if !link.encodeOk {
      return Err(SendFailed);
    }
    var items := link.incoming;
    var responses: seq<MpvResponse> := [];
    var i := 0;
    while |responses| < |cmds|
      invariant 0 <= i <= |items|
      invariant responses == Kept(items[..i])
      invariant |responses| <= |cmds|
      decreases |items| - i
    {
      if i == |items| {
        break;
      }
      var item := items[i];
      assert items[..i + 1] == items[..i] + [item];
      KeptAppend(items[..i], [item]);
      i := i + 1;
      if item.Malformed? {
        continue;
      }
      if Counted(item.resp) {
        responses := responses + [item.resp];
      }
    }
    assert items == items[..i] + items[i..];
    KeptAppend(items[..i], items[i..]);
    r := Ok(responses);
    forall k | 0 <= k < |responses|
      ensures Counted(responses[k]) && Decoded(responses[k]) in items
    {
      KeptMembers(items, responses[k]);
    }
  }

  // ---------------------------------------------------------------------
  // State aggregation (getState_unsafe)

  /** The four tagged property queries of one state request. */
  const StateQueries: seq<MpvCommand> := [
    MpvCommand([Str("get_property"), Str("pause")], ReqIdPause),
    MpvCommand([Str("get_property"), Str("time-pos")], ReqIdPos),
    MpvCommand([Str("get_property"), Str("duration")], ReqIdDur),
    MpvCommand([Str("get_property"), Str("speed")], ReqIdSpeed)
  ]

  /** The effect of one reply on the state being built: only a
      "success" reply with data of the expected type sets a field. */
  function ApplyReply(s: PlayerState, r: MpvResponse): PlayerState
  {
    if r.error != "success" then s
    else if r.requestId == ReqIdPause then
      (if r.data.Bool? then s.(isPlaying := !r.data.b) else s)
    else if r.requestId == ReqIdPos then
      (if r.data.Number? then s.(position := r.data.x) else s)
    else if r.requestId == ReqIdDur then
      (if r.data.Number? then s.(duration := r.data.x) else s)
    else if r.requestId == ReqIdSpeed then
      (if r.data.Number? then s.(speed := r.data.x) else s)
    else s
  }

  /** The replies applied in order to `s`. */
  function Aggregate(s: PlayerState, rs: seq<MpvResponse>): PlayerState
  {
    if rs == [] then s else ApplyReply(Aggregate(s, rs[..|rs| - 1]), rs[|rs| - 1])
  }

  /** The loop of getState_unsafe over the collected replies. */
  method AggregateReplies(responses: seq<MpvResponse>) returns (state: PlayerState)
    ensures state == Aggregate(ZeroState, responses)
  {
    state := ZeroState;
    for k := 0 to |responses|
      invariant state == Aggregate(ZeroState, responses[..k])
    {
      assert responses[..k + 1][..k] == responses[..k];
      state := ApplyReply(state, responses[k]);
    }
    assert responses[..|responses|] == responses;
  }

  /** A usable answer to query `id`: a "success" reply with that id whose
      data has the type the query expects. */
  predicate Answers(r: MpvResponse, id: int) {
    r.error == "success" && r.requestId == id
    && (if id == ReqIdPause then r.data.Bool? else r.data.Number?)
  }

  /** The last usable answer to query `id` among the replies. */
  function LastAnswer(rs: seq<MpvResponse>, id: int): Option<Data>
  {
    if rs == [] then None
    else if Answers(rs[|rs| - 1], id) then Some(rs[|rs| - 1].data)
    else LastAnswer(rs[..|rs| - 1], id)
  }

  /** What the pause query contributes: the negation of its last usable
      answer, or the previous value when there is none. */
  function PlayingField(rs: seq<MpvResponse>, previous: bool): bool
  {
    match LastAnswer(rs, ReqIdPause)
    case Some(Bool(paused)) => !paused
    case _ => previous
  }

  /** What a numeric query contributes: its last usable answer, or the
      previous value when there is none. */
  function NumberField(rs: seq<MpvResponse>, id: int, previous: real): real
  {
    match LastAnswer(rs, id)
    case Some(Number(x)) => x
    case _ => previous
  }

  /** Field by field, each state field is set by the last usable answer to
      its own query and is otherwise left at its previous value. */
  lemma {:induction false} AggregateByField(s: PlayerState, rs: seq<MpvResponse>)
    ensures Aggregate(s, rs).isPlaying == PlayingField(rs, s.isPlaying)
    ensures Aggregate(s, rs).position == NumberField(rs, ReqIdPos, s.position)
    ensures Aggregate(s, rs).duration == NumberField(rs, ReqIdDur, s.duration)
    ensures Aggregate(s, rs).speed == NumberField(rs, ReqIdSpeed, s.speed)
  {
    if rs != [] {
      AggregateByField(s, rs[..|rs| - 1]);
    }
  }

  /** No two replies carry the same request id. */
  predicate DistinctIds(rs: seq<MpvResponse>) {
    forall i, j :: 0 <= i < j < |rs| ==> rs[i].requestId != rs[j].requestId
  }

  /** With distinct request ids, the answer to a query is the one reply in
      the collection that answers it, wherever it stands. */
  lemma {:induction false} LastAnswerIsMember(rs: seq<MpvResponse>, id: int, d: Data)
    requires DistinctIds(rs)
    ensures LastAnswer(rs, id) == Some(d) <==> exists r :: r in rs && Answers(r, id) && r.data == d
  {
    if rs != [] {
      var init := rs[..|rs| - 1];
      var last := rs[|rs| - 1];
      assert DistinctIds(init);
      LastAnswerIsMember(init, id, d);
      assert rs == init + [last];
      if Answers(last, id) {
        forall i | 0 <= i < |init| ensures !Answers(init[i], id) {
          assert rs[i].requestId != rs[|rs| - 1].requestId;
        }
      }
    }
  }

  lemma LastAnswerNone(rs: seq<MpvResponse>, id: int)
    requires DistinctIds(rs)
    ensures LastAnswer(rs, id) == None <==> forall r :: r in rs ==> !Answers(r, id)
  {
    if LastAnswer(rs, id).Some? {
      LastAnswerIsMember(rs, id, LastAnswer(rs, id).value);
    } else if exists r :: r in rs && Answers(r, id) {
      var r :| r in rs && Answers(r, id);
      LastAnswerIsMember(rs, id, r.data);
    }
  }

  lemma SameAnswer(rs: seq<MpvResponse>, qs: seq<MpvResponse>, id: int)
    requires DistinctIds(rs) && DistinctIds(qs) && multiset(rs) == multiset(qs)
    ensures LastAnswer(rs, id) == LastAnswer(qs, id)
  {
    assert forall r :: r in rs <==> r in qs by {
      forall r ensures r in rs <==> r in qs {
        assert r in rs <==> r in multiset(rs);
        assert r in qs <==> r in multiset(qs);
      }
    }
    LastAnswerNone(rs, id);
    LastAnswerNone(qs, id);
    if LastAnswer(rs, id).Some? {
      LastAnswerIsMember(rs, id, LastAnswer(rs, id).value);
      LastAnswerIsMember(qs, id, LastAnswer(rs, id).value);
    }
  }

  /** Replies are matched to queries by request id, not by arrival order:
      any reordering of a batch with distinct ids yields the same state. */
  lemma AggregateIgnoresOrder(s: PlayerState, rs: seq<MpvResponse>, qs: seq<MpvResponse>)
    requires DistinctIds(rs) && DistinctIds(qs) && multiset(rs) == multiset(qs)
    ensures Aggregate(s, rs) == Aggregate(s, qs)
  {
    AggregateByField(s, rs);
    AggregateByField(s, qs);
    SameAnswer(rs, qs, ReqIdPause);
    SameAnswer(rs, qs, ReqIdPos);
    SameAnswer(rs, qs, ReqIdDur);
    SameAnswer(rs, qs, ReqIdSpeed);
  }

  /** The whole state request: an exchange error is returned as is,
      otherwise the replies are aggregated starting from the zero state. */
  function StateFrom(link: Link): Result<PlayerState>
  {
    match Exchange(StateQueries, link)
    case Err(e) => Err(e)
    case Ok(rs) => Ok(Aggregate(ZeroState, rs))
  }

  // ---------------------------------------------------------------------
  // Process lifecycle (startMpvProcess)

  /** The mpv argument list built from the socket path and the two flags. */
  function LaunchArgs(socketPath: string, cfg: PlaybackConfig): (r: seq<string>)
    ensures |r| == if cfg.savePositionOnQuit then 6 else 5
    ensures r[..4] == ["--idle", "--input-ipc-server=" + socketPath, "--no-video", "--no-config"]
  {
    ["--idle", "--input-ipc-server=" + socketPath, "--no-video", "--no-config"]
    + [if cfg.loop then "--loop-file=yes" else "--loop-file=no"]
    + (if cfg.savePositionOnQuit then ["--save-position-on-quit"] else [])
  }

  /** The flags derived from configuration: exactly one loop flag, the one
      `loop` selects, and the resume flag iff `savePositionOnQuit`. */
  lemma LaunchArgsFlags(socketPath: string, cfg: PlaybackConfig)
    ensures "--loop-file=yes" in LaunchArgs(socketPath, cfg) <==> cfg.loop
    ensures "--loop-file=no" in LaunchArgs(socketPath, cfg) <==> !cfg.loop
    ensures "--save-position-on-quit" in LaunchArgs(socketPath, cfg) <==> cfg.savePositionOnQuit
  {
    var a := LaunchArgs(socketPath, cfg);
    var p := "--input-ipc-server=" + socketPath;
    assert a[1] == p && p[2] == 'i';
    assert a[4] == if cfg.loop then "--loop-file=yes" else "--loop-file=no";
  }

  /** Socket check `j` finds the file. */
  predicate Probe(probes: seq<bool>, j: nat) {
    j < |probes| && probes[j]
  }

  /** The first socket check, from `from` on and within the retry budget,
      that finds the file. */
  function FirstReady(probes: seq<bool>, from: nat): (r: Option<nat>)
    requires from <= SocketCheckRetries
    ensures r.Some? ==> from <= r.value < SocketCheckRetries && Probe(probes, r.value)
    ensures forall j :: from <= j < SocketCheckRetries && (r.None? || j < r.value) ==> !Probe(probes, j)
    decreases SocketCheckRetries - from
  {
    if from == SocketCheckRetries then None
    else if Probe(probes, from) then Some(from)
    else FirstReady(probes, from + 1)
  }

  /** The number of processes a trace spawns. */
  function Spawns(t: seq<Effect>): nat
  {
    if t == [] then 0 else (if t[0].Spawn? then 1 else 0) + Spawns(t[1..])
  }

  /** The number of socket checks in a trace. */
  function StatCount(t: seq<Effect>): nat
  {
    if t == [] then 0 else (if t[0] == Stat then 1 else 0) + StatCount(t[1..])
  }

  lemma {:induction false} CountsAppend(a: seq<Effect>, b: seq<Effect>)
    ensures Spawns(a + b) == Spawns(a) + Spawns(b)
    ensures StatCount(a + b) == StatCount(a) + StatCount(b)
  {
    if a != [] {
      assert (a + b)[1..] == a[1..] + b;
      CountsAppend(a[1..], b);
    } else {
      assert a + b == b;
    }
  }

  /** `n` socket checks. */
  function Stats(n: nat): seq<Effect>
    ensures |Stats(n)| == n
  {
    if n == 0 then [] else Stats(n - 1) + [Stat]
  }

  /** The outcome of one startMpvProcess call: its result, the handle
      afterwards and what it did. */
  datatype StartStep = StartStep(result: Outcome, cmd: Option<Proc>, trace: seq<Effect>)

  function StartSpec(cmd: Option<Proc>, socketPath: string, cfg: PlaybackConfig, launch: Launch): StartStep
  {
    if cmd.Some? && !launch.exited then StartStep(Pass, cmd, [])
    else if !launch.startOk then StartStep(Fail(StartFailed), None, [])
    else
      var args := LaunchArgs(socketPath, cfg);
      match FirstReady(launch.probes, 0)
      case Some(j) => StartStep(Pass, Some(Proc(args)), [Spawn(args)] + Stats(j + 1))
      case None => StartStep(Fail(SocketTimeout), None, [Spawn(args)] + Stats(SocketCheckRetries) + [Kill])
  }

  /** `n` checks spawn nothing and are `n` checks. */
  lemma {:induction false} StatsCounts(n: nat)
    ensures Spawns(Stats(n)) == 0 && StatCount(Stats(n)) == n
  {
    if n > 0 {
      StatsCounts(n - 1);
      CountsAppend(Stats(n - 1), [Stat]);
    }
  }

  /** Starting succeeds exactly when a live handle exists or the process
      starts and a socket check within the budget finds the file; after a
      failure no handle remains, after a success one does; a timeout ends
      with a kill; a call that has to launch spawns one process if Start
      succeeds and none otherwise; and at most 20 socket checks are made. */
  lemma StartOutcomes(cmd: Option<Proc>, socketPath: string, cfg: PlaybackConfig, launch: Launch)
    ensures var st := StartSpec(cmd, socketPath, cfg, launch);
      && (st.result.Pass? <==>
           (cmd.Some? && !launch.exited)
           || (launch.startOk && exists j :: 0 <= j < SocketCheckRetries && Probe(launch.probes, j)))
      && (st.result.Fail? ==> st.cmd.None?)
      && (st.result.Pass? ==> st.cmd.Some?)
      && (st.result == Fail(SocketTimeout) ==> st.trace[|st.trace| - 1] == Kill)
      && (cmd.None? || launch.exited ==> Spawns(st.trace) == if launch.startOk then 1 else 0)
      && StatCount(st.trace) <= SocketCheckRetries
  {
    var st := StartSpec(cmd, socketPath, cfg, launch);
    var r := FirstReady(launch.probes, 0);
    if (cmd.None? || launch.exited) && launch.startOk {
      var args := LaunchArgs(socketPath, cfg);
      var n := if r.Some? then r.value + 1 else SocketCheckRetries;
      StatsCounts(n);
      CountsAppend([Spawn(args)], Stats(n));
      if r.None? {
        CountsAppend([Spawn(args)] + Stats(n), [Kill]);
      }
    }
  }

  /** Starting twice in a row without the process exiting launches mpv
      once: the second call is a no-op that keeps the handle. */
  lemma StartTwiceSpawnsOnce(socketPath: string, cfg: PlaybackConfig, first: Launch, second: Launch)
    requires StartSpec(None, socketPath, cfg, first).result.Pass? && !second.exited
    ensures var st1 := StartSpec(None, socketPath, cfg, first);
      var st2 := StartSpec(st1.cmd, socketPath, cfg, second);
      st2 == StartStep(Pass, st1.cmd, []) && Spawns(st1.trace + st2.trace) == 1
  {
    var st1 := StartSpec(None, socketPath, cfg, first);
    StartOutcomes(None, socketPath, cfg, first);
    assert st1.trace + [] == st1.trace;
  }

  /** Once the stored process is known to have exited, the next start
      drops it and launches mpv again: one spawn if Start succeeds, a
      fresh handle exactly when a socket check finds the file. */
  lemma RelaunchAfterExit(p: Proc, socketPath: string, cfg: PlaybackConfig, launch: Launch)
    requires launch.exited
    ensures var st := StartSpec(Some(p), socketPath, cfg, launch);
      && Spawns(st.trace) == (if launch.startOk then 1 else 0)
      && (st.result.Pass? <==> launch.startOk && exists j :: 0 <= j < SocketCheckRetries && Probe(launch.probes, j))
      && (st.result.Pass? ==> st.cmd == Some(Proc(LaunchArgs(socketPath, cfg))))
  {
    StartOutcomes(Some(p), socketPath, cfg, launch);
  }

  // ---------------------------------------------------------------------
  // Commands of the public operations

  function LoadFile(url: string): MpvCommand {
    MpvCommand([Str("loadfile"), Str(url), Str("replace")], 0)
  }
  const PauseCommand := MpvCommand([Str("cycle"), Str("pause")], 0)
  const StopCommand := MpvCommand([Str("stop")], 0)
  function SeekCommand(seconds: int): MpvCommand {
    MpvCommand([Str("seek"), Int(seconds), Str("relative")], 0)
  }
  function SpeedCommand(delta: real): MpvCommand {
    MpvCommand([Str("add"), Str("speed"), Float(delta)], 0)
  }
  const ResetSpeedCommand := MpvCommand([Str("set_property"), Str("speed"), Float(1.0)], 0)

  /** The error of a one-command exchange, which is all the operations
      return of it. */
  function SingleOutcome(link: Link): (r: Outcome)
    ensures r.Fail? <==> !link.dialOk || !link.encodeOk
    ensures forall c :: r.Pass? <==> Exchange([c], link).Ok?
  {
    if !link.dialOk then Fail(ConnectFailed)
    else if !link.encodeOk then Fail(SendFailed)
    else Pass
  }

  // ---------------------------------------------------------------------
  // The controller object

  class MpvPlayer {
    const socketPath: string
    const config: PlaybackConfig
    var cmd: Option<Proc>
    ghost var effects: seq<Effect>

    /** NewMpvPlayer removes any stale socket file and starts with no process. */
    constructor (socketPath: string, cfg: Config)
      ensures this.socketPath == socketPath && config == cfg.playback
      ensures cmd == None && effects == [RemoveSocket]
    {
      this.socketPath := socketPath;
      config := cfg.playback;
      cmd := None;
      effects := [RemoveSocket];
    }

    /** isProcessRunning: a handle is stored. */
    predicate IsProcessRunning()
      reads this
    {
      cmd.Some?
    }

    /** startMpvProcess */
    method StartMpvProcess(launch: Launch) returns (r: Outcome)
      modifies this
      ensures var st := StartSpec(old(cmd), socketPath, config, launch);
        r == st.result && cmd == st.cmd && effects == old(effects) + st.trace
    {
      ghost var st := StartSpec(cmd, socketPath, config, launch);
      if cmd.Some? {
        if launch.exited {
          cmd := None;
        } else {
          return Pass;
        }
      }
      var args := LaunchArgs(socketPath, config);
      if !launch.startOk {
        cmd := None;
        return Fail(StartFailed);
      }
      cmd := Some(Proc(args));
      effects := effects + [Spawn(args)];
      var ready := WaitForSocket(launch.probes);
      if ready {
        return Pass;
      }
      effects := effects + [Kill];
      cmd := None;
      return Fail(SocketTimeout);
    }

    /** The socket-check loop: up to 20 checks, stopping at the first that
        finds the file. */
    method WaitForSocket(probes: seq<bool>) returns (ready: bool)
      modifies this`effects
      ensures ready <==> FirstReady(probes, 0).Some?
      ensures effects == old(effects) + Stats(match FirstReady(probes, 0)
                                              case Some(j) => j + 1
                                              case None => SocketCheckRetries)
    {
      var i := 0;
      while i < SocketCheckRetries
        invariant 0 <= i <= SocketCheckRetries
        invariant effects == old(effects) + Stats(i)
        invariant FirstReady(probes, i) == FirstReady(probes, 0)
      {
        effects := effects + [Stat];
        if i < |probes| && probes[i] {
          return true;
        }
        i := i + 1;
      }
      return false;
    }

    /** Play: make sure mpv runs, then send `loadfile <url> replace`. */
    method Play(url: string, launch: Launch, link: Link) returns (r: Outcome)
      modifies this
      ensures var st := StartSpec(old(cmd), socketPath, config, launch);
        cmd == st.cmd
        && (st.result.Fail? ==> r == st.result && effects == old(effects) + st.trace)
        && (st.result.Pass? ==>
              r == SingleOutcome(link) && effects == old(effects) + st.trace + [Attempt([LoadFile(url)])])
    {
      r := StartMpvProcess(launch);
      if r.Fail? {
        return;
      }
      r := Single(LoadFile(url), link);
    }

    /** One untagged command on an established process. */
    method Single(c: MpvCommand, link: Link) returns (r: Outcome)
      modifies this`effects
      ensures r == SingleOutcome(link) && effects == old(effects) + [Attempt([c])]
    {
      effects := effects + [Attempt([c])];
      var res := SendCommands([c], link);
      r := if res.Err? then Fail(res.error) else Pass;
    }

    /** Pause, Stop, Seek, ChangeSpeed and ResetSpeed send nothing and
        succeed without a process; otherwise each sends exactly its one
        command and returns the exchange's error. */
    method Pause(link: Link) returns (r: Outcome)
      modifies this`effects
      ensures old(cmd).None? ==> r == Pass && effects == old(effects)
      ensures old(cmd).Some? ==> r == SingleOutcome(link) && effects == old(effects) + [Attempt([PauseCommand])]
    {
      if !IsProcessRunning() {
        return Pass;
      }
      r := Single(PauseCommand, link);
    }

    method Stop(link: Link) returns (r: Outcome)
      modifies this`effects
      ensures old(cmd).None? ==> r == Pass && effects == old(effects)
      ensures old(cmd).Some? ==> r == SingleOutcome(link) && effects == old(effects) + [Attempt([StopCommand])]
    {
      if !IsProcessRunning() {
        return Pass;
      }
      r := Single(StopCommand, link);
    }

    method Seek(seconds: int, link: Link) returns (r: Outcome)
      modifies this`effects
      ensures old(cmd).None? ==> r == Pass && effects == old(effects)
      ensures old(cmd).Some? ==> r == SingleOutcome(link) && effects == old(effects) + [Attempt([SeekCommand(seconds)])]
    {
      if !IsProcessRunning() {
        return Pass;
      }
      r := Single(SeekCommand(seconds), link);
    }

    method ChangeSpeed(delta: real, link: Link) returns (r: Outcome)
      modifies this`effects
      ensures old(cmd).None? ==> r == Pass && effects == old(effects)
      ensures old(cmd).Some? ==> r == SingleOutcome(link) && effects == old(effects) + [Attempt([SpeedCommand(delta)])]
    {
      if !IsProcessRunning() {
        return Pass;
      }
      r := Single(SpeedCommand(delta), link);
    }

    method ResetSpeed(link: Link) returns (r: Outcome)
      modifies this`effects
      ensures old(cmd).None? ==> r == Pass && effects == old(effects)
      ensures old(cmd).Some? ==> r == SingleOutcome(link) && effects == old(effects) + [Attempt([ResetSpeedCommand])]
    {
      if !IsProcessRunning() {
        return Pass;
      }
      r := Single(ResetSpeedCommand, link);
    }

    /** GetState / getState_unsafe: the zero state without a process;
        otherwise the four tagged queries in one exchange. */
    method GetState(link: Link) returns (r: Result<PlayerState>)
      modifies this`effects
      ensures old(cmd).None? ==> r == Ok(ZeroState) && effects == old(effects)
      ensures old(cmd).Some? ==> r == StateFrom(link) && effects == old(effects) + [Attempt(StateQueries)]
    {
      if !IsProcessRunning() {
        return Ok(ZeroState);
      }
      effects := effects + [Attempt(StateQueries)];
      var responses := SendCommands(StateQueries, link);
      if responses.Err? {
        return Err(responses.error);
      }
      var state := AggregateReplies(responses.value);
      r := Ok(state);
    }

    /** Close kills a running process (a kill failure is only logged),
        always removes the socket file and always succeeds; the handle
        itself is left in place. */
    method Close() returns (r: Outcome)
      modifies this`effects
      ensures r == Pass
      ensures effects == old(effects) + (if cmd.Some? then [Kill] else []) + [RemoveSocket]
    {
      if IsProcessRunning() {
        effects := effects + [Kill];
      }
      effects := effects + [RemoveSocket];
      r := Pass;
    }
  }

  /** The code as written never sees an exit: `ProcessState` is set only
      by Wait or Run, and neither is called on the mpv command, so the
      launch's `exited` is always false. After Close, Play then takes the
      killed process for a live one, spawns nothing and sends `loadfile`
      to the socket that Close removed; with the socket gone, dialling
      fails. */
  method CloseThenPlay(player: MpvPlayer, url: string, startOk: bool, probes: seq<bool>, link: Link)
    returns (closed: Outcome, played: Outcome)
    requires player.cmd.Some?
    modifies player
    ensures closed == Pass && played == SingleOutcome(link)
    ensures !link.dialOk ==> played == Fail(ConnectFailed)
    ensures player.cmd == old(player.cmd)
    ensures player.effects == old(player.effects) + [Kill, RemoveSocket, Attempt([LoadFile(url)])]
  {
    closed := player.Close();
    played := player.Play(url, Launch(false, startOk, probes), link);
  }
}
