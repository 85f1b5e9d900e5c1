/** The records shared by the services and the terminal UI
    (internal/domain and internal/ports). */
module Domain {

  /** A playable item: its YouTube id, title and artist names. */
  datatype Song = Song(id: string, title: string, artists: seq<string>)

  /** One play-history record; `playedAt` is a clock reading in whole
      time units, `resumeAt` a position in seconds. */
  datatype HistoryEntry = HistoryEntry(song: Song, playedAt: int, resumeAt: int)

  /** The two playback flags read by the player and the UI. */
  datatype PlaybackConfig = PlaybackConfig(loop: bool, savePositionOnQuit: bool)

  /** The application configuration. */
  datatype Config = Config(cookiesPath: string, historyLimit: int, searchLimit: int,
                           playback: PlaybackConfig)

  /** A snapshot of mpv's transport state; floats are modelled as reals. */
  datatype PlayerState = PlayerState(isPlaying: bool, position: real, duration: real, speed: real)

  /** Go's zero value `ports.PlayerState{}`. */
  const ZeroState := PlayerState(false, 0.0, 0.0, 0.0)
}
