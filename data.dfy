/** The stage-to-playlist configuration and the choice of a song for a
    stage (src/data.rs). */
module Data {
  import opened Common
  import opened Melee

  /** `Song::Local`: a path to an audio file. */
  datatype Song = Local(path: string)

  /** `Config`: the list of songs of each stage. */
  datatype Config = Config(playlists: map<StageId, seq<Song>>)

  /** `Config::default()`, the configuration without playlists. */
  function DefaultConfig(): (c: Config)
    ensures forall stage :: stage !in c.playlists
  {
    Config(map[])
  }

  /** `Config::fetch`: the configuration that `Config::open` read and parsed,
      or the default configuration when opening or parsing failed. */
  function Fetch(loaded: Result<Config, IoError>): (c: Config)
    ensures loaded.Ok? ==> c == loaded.value
    ensures loaded.Err? ==> c.playlists == map[]
  {
    match loaded
    case Ok(config) => config
    case Err(_) => DefaultConfig()
  }

  /** Whether the configuration lists at least one song for the stage. */
  predicate HasSong(config: Config, stage: StageId)
  {
    stage in config.playlists && |config.playlists[stage]| > 0
  }

  /** `Config::pick_song`: some song of the stage's playlist, or `None` when
      the stage has no playlist or an empty one. `rng` stands for the
      thread-local random number generator. */
  function PickSong(config: Config, stage: StageId, rng: nat): (r: Option<Song>)
    ensures r.None? <==> !HasSong(config, stage)
    ensures r.Some? ==> r.value in config.playlists[stage]
  {
    if stage !in config.playlists then
      None
    else
      var songs := config.playlists[stage];
      if |songs| == 0 then None else Some(songs[rng % |songs|])
  }

  /** The choice is open: every song of a playlist is the pick of some
      outcome of the random number generator. */
  lemma EverySongCanBePicked(config: Config, stage: StageId, i: nat)
    requires stage in config.playlists && i < |config.playlists[stage]|
    ensures exists rng :: PickSong(config, stage, rng) == Some(config.playlists[stage][i])
  {
    assert PickSong(config, stage, i) == Some(config.playlists[stage][i]);
  }

  /** With the default configuration, which fetching falls back on, no stage
      has a song. */
  lemma FailedFetchHasNoSongs(e: IoError, stage: StageId, rng: nat)
    ensures PickSong(Fetch(Err(e)), stage, rng) == None
  {
  }
}
