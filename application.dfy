/** The application: a two-state machine that starts a song when a match
    begins and stops it when the match ends, and the session loop that feeds
    it events and ticks (src/main.rs). */
module Application {
  import opened Common
  import opened Dolphin
  import opened Melee
  import opened Events
  import opened Data

  /** Volumes are percentages: the master volume is one half, and a paused
      game plays at one fifth of it. */
  const MasterVolume: nat := 50
  const PausedMultiplier: nat := 20
  const FullMultiplier: nat := 100

  const NoSongMessage: string := "no song found"

  /** A command sent to a playing sink. */
  datatype SinkCommand = Stop | SetVolume(percent: nat)

  /** `rodio::Sink`: the playback of one song. The model keeps the song and
      the commands sent to the sink, in order. */
  class Sink {
    const song: Song
    var commands: seq<SinkCommand>

    /** A sink that has just started playing `song`. */
    constructor (song: Song)
      ensures this.song == song && commands == []
    {
      this.song := song;
      commands := [];
    }

    method Stop()
      modifies this
      ensures commands == old(commands) + [SinkCommand.Stop]
    {
      commands := commands + [SinkCommand.Stop];
    }

    method SetVolume(percent: nat)
      modifies this
      ensures commands == old(commands) + [SinkCommand.SetVolume(percent)]
    {
      commands := commands + [SinkCommand.SetVolume(percent)];
    }
  }

  /** `App`: waiting for a match, or playing the song of the current match
      on the sink that the state owns. */
  datatype App = Waiting | Playing(sink: Sink)

  /** What joining a match depends on besides the snapshot: the outcome of
      `Config::open`, the outcome of the random number generator, and, for
      each song, the error playing it fails with, if any. */
  datatype World = World(configFile: Result<Config, IoError>, rng: nat, playFailure: Song -> Option<IoError>)

  /** What one iteration of the session loop observes: the result of polling
      the new snapshot, the world a join in this iteration sees, and the
      result of the status poll made by the tick. */
  datatype Tick = Tick(poll: Result<GameInfo, IoError>, world: World, status: Result<Status, IoError>)

  // ---------------------------------------------------------------------
  // The machine on values: what each transition does to the application's
  // state, with the playing sink seen as its song and command log.
  // ---------------------------------------------------------------------

  /** The value of an `App`: waiting, or playing a song that has received
      the given commands. */
  datatype Mode = Idle | Active(song: Song, commands: seq<SinkCommand>)

  /** The volume a tick sets: the master volume times the paused or the
      full multiplier. */
  function TickVolume(status: Status): (percent: nat)
    ensures status == Paused ==> percent == 10
    ensures status != Paused ==> percent == MasterVolume
  {
    MasterVolume * (if status == Paused then PausedMultiplier else FullMultiplier) / 100
  }

  /** Joining a match: the song that starts playing, or why none does. A
      stage without songs fails with `NotFound`; otherwise the picked song
      plays unless playing it fails. */
  function JoinSpec(info: GameInfo, w: World): (r: Result<Song, IoError>)
    ensures !HasSong(Fetch(w.configFile), info.stage) ==> r == Err(IoError(NotFound, NoSongMessage))
    ensures r.Ok? ==> HasSong(Fetch(w.configFile), info.stage)
    ensures r.Ok? ==> r.value in Fetch(w.configFile).playlists[info.stage] && w.playFailure(r.value).None?
    ensures r.Err? && HasSong(Fetch(w.configFile), info.stage) ==>
      exists song :: song in Fetch(w.configFile).playlists[info.stage] && w.playFailure(song) == Some(r.error)
  {
    match PickSong(Fetch(w.configFile), info.stage, w.rng)
    case None => Err(IoError(NotFound, NoSongMessage))
    case Some(song) =>
      match w.playFailure(song)
      case Some(e) => Err(e)
      case None => Ok(song)
  }

  /** `TryAdvance<Event> for App`: a join while waiting starts a song, a
      leave while playing stops it, and every other pair keeps the state.
      Only a join while waiting can fail. */
  function AdvanceSpec(m: Mode, ev: Event, w: World): (r: Result<Mode, IoError>)
    ensures r.Err? ==> m.Idle? && ev.GameJoin? && JoinSpec(ev.info, w) == Err(r.error)
    ensures m.Idle? && ev.GameJoin? && JoinSpec(ev.info, w).Err? ==> r == Err(JoinSpec(ev.info, w).error)
    ensures m.Idle? && ev.GameJoin? && JoinSpec(ev.info, w).Ok? ==> r == Ok(Active(JoinSpec(ev.info, w).value, []))
    ensures m.Active? && ev.GameLeave? ==> r == Ok(Idle)
    ensures (m.Idle? && ev.GameLeave?) || (m.Active? && ev.GameJoin?) ==> r == Ok(m)
  {
    match (m, ev)
    case (Idle, GameJoin(info)) =>
      (match JoinSpec(info, w)
       case Err(e) => Err(e)
       case Ok(song) => Ok(Active(song, [])))
    case (Active(_, _), GameLeave) => Ok(Idle)
    case _ => Ok(m)
  }

  /** `TryAdvance<TickEvent> for App`: waiting ignores the tick; playing
      sets the volume for the polled status and keeps playing, or fails with
      the poll's error. */
  function TickSpec(m: Mode, status: Result<Status, IoError>): (r: Result<Mode, IoError>)
    ensures m.Idle? ==> r == Ok(Idle)
    ensures m.Active? ==> (r.Ok? <==> status.Ok?)
    ensures m.Active? && status.Err? ==> r == Err(status.error)
    ensures m.Active? && status.Ok? ==> r == Ok(Active(m.song, m.commands + [SetVolume(TickVolume(status.value))]))
  {
    match m
    case Idle => Ok(Idle)
    case Active(song, commands) =>
      match status
      case Err(e) => Err(e)
      case Ok(s) => Ok(Active(song, commands + [SetVolume(TickVolume(s))]))
  }

  /** `Iterator::try_fold` of the transitions over a tick's events: applied
      from left to right, stopping at the first error. */
  function FoldSpec(m: Mode, events: seq<Event>, w: World): (r: Result<Mode, IoError>)
    ensures events == [] ==> r == Ok(m)
    ensures |events| == 1 ==> r == AdvanceSpec(m, events[0], w)
    decreases |events|
  {
    if events == [] then
      Ok(m)
    else
      match AdvanceSpec(m, events[0], w)
      case Err(e) => Err(e)
      case Ok(next) => FoldSpec(next, events[1..], w)
  }

  /** Folding a concatenation folds the first part, and then, unless that
      failed, the second part from where the first ended. */
  lemma {:induction false} FoldConcat(m: Mode, a: seq<Event>, b: seq<Event>, w: World)
    ensures FoldSpec(m, a + b, w) == match FoldSpec(m, a, w) case Err(e) => Err(e) case Ok(m') => FoldSpec(m', b, w)
    decreases |a|
  {
    if a != [] {
      assert (a + b)[0] == a[0];
      assert (a + b)[1..] == a[1..] + b;
      match AdvanceSpec(m, a[0], w)
      case Err(_) =>
      case Ok(next) => FoldConcat(next, a[1..], b, w);
    } else {
      assert a + b == b;
    }
  }

  /** One iteration of the session loop: poll, detect, fold the events,
      replace the snapshot, tick. */
  function IterationSpec(m: Mode, game: GameInfo, t: Tick): (r: Result<(Mode, GameInfo), IoError>)
    ensures t.poll.Err? ==> r == Err(t.poll.error)
    ensures t.poll.Ok? && FoldSpec(m, Detect(game, t.poll.value), t.world).Err? ==>
      r == Err(FoldSpec(m, Detect(game, t.poll.value), t.world).error)
    ensures t.poll.Ok? && FoldSpec(m, Detect(game, t.poll.value), t.world).Ok? ==>
      r == match TickSpec(FoldSpec(m, Detect(game, t.poll.value), t.world).value, t.status)
           case Err(e) => Err(e)
           case Ok(ticked) => Ok((ticked, t.poll.value))
    ensures r.Ok? ==> r.value.1 == t.poll.value
    ensures r.Ok? ==> FoldSpec(m, Detect(game, t.poll.value), t.world).Ok?
    ensures r.Ok? ==> TickSpec(FoldSpec(m, Detect(game, t.poll.value), t.world).value, t.status) == Ok(r.value.0)
  {
    match t.poll
    case Err(e) => Err(e)
    case Ok(current) =>
      match FoldSpec(m, Detect(game, current), t.world)
      case Err(e) => Err(e)
      case Ok(folded) =>
        match TickSpec(folded, t.status)
        case Err(e) => Err(e)
        case Ok(ticked) => Ok((ticked, current))
  }

  /** The state of a session: still running, with the application's state
      and the last snapshot, or ended by an error after some number of
      completed iterations. */
  datatype Session = Live(mode: Mode, game: GameInfo) | Failed(error: IoError, completed: nat)

  /** A session that ends after `n` more completed iterations. */
  function Later(s: Session, n: nat): Session
  {
    match s
    case Live(_, _) => s
    case Failed(e, k) => Failed(e, k + n)
  }

  /** The session loop over a sequence of ticks, stopping at the first
      iteration that fails. */
  function RunSpec(m: Mode, game: GameInfo, ticks: seq<Tick>): (r: Session)
    ensures ticks == [] ==> r == Live(m, game)
    ensures r.Failed? ==> r.completed < |ticks|
    decreases |ticks|
  {
    if ticks == [] then
      Live(m, game)
    else
      match IterationSpec(m, game, ticks[0])
      case Err(e) => Failed(e, 0)
      case Ok((m', game')) => Later(RunSpec(m', game', ticks[1..]), 1)
  }

  /** Running over two sequences of ticks runs over the first and then,
      unless that failed, over the second from where the first ended; the
      completed iterations add up. */
  lemma {:induction false} RunConcat(m: Mode, game: GameInfo, a: seq<Tick>, b: seq<Tick>)
    ensures RunSpec(m, game, a + b) == match RunSpec(m, game, a)
                                       case Failed(e, k) => Failed(e, k)
                                       case Live(m', game') => Later(RunSpec(m', game', b), |a|)
    decreases |a|
  {
    if a == [] {
      assert a + b == b;
    } else {
      assert (a + b)[0] == a[0];
      assert (a + b)[1..] == a[1..] + b;
      match IterationSpec(m, game, a[0])
      case Err(_) =>
      case Ok((m', game')) => RunConcat(m', game', a[1..], b);
    }
  }

  /** A run that failed after `k` completed iterations ran the first `k`
      ticks without failing and failed on tick `k` with its error: the loop
      stops at the first failing iteration. */
  lemma {:induction false} RunStopsAtFirstFailure(m: Mode, game: GameInfo, ticks: seq<Tick>)
    requires RunSpec(m, game, ticks).Failed?
    ensures var k := RunSpec(m, game, ticks).completed;
            && k < |ticks|
            && RunSpec(m, game, ticks[..k]).Live?
            && IterationSpec(RunSpec(m, game, ticks[..k]).mode, RunSpec(m, game, ticks[..k]).game, ticks[k])
               == Err(RunSpec(m, game, ticks).error)
    decreases |ticks|
  {
    match IterationSpec(m, game, ticks[0])
    case Err(_) =>
      assert ticks[..0] == [];
    case Ok((m', game')) =>
      var rest := ticks[1..];
      RunStopsAtFirstFailure(m', game', rest);
      var k' := RunSpec(m', game', rest).completed;
      assert ticks[..k' + 1][0] == ticks[0];
      assert ticks[..k' + 1][1..] == rest[..k'];
      assert ticks[k' + 1] == rest[k'];
  }

  /** `step`: connect, poll the first snapshot, start waiting, run. */
  function StepSpec(processes: seq<ProcessEntry>, openError: Pid -> Option<IoError>,
                    initial: Result<GameInfo, IoError>, ticks: seq<Tick>): (r: Session)
    ensures Locate(processes, openError).Err? ==> r == Failed(Locate(processes, openError).error, 0)
    ensures Locate(processes, openError).Ok? && initial.Err? ==> r == Failed(initial.error, 0)
    ensures Locate(processes, openError).Ok? && initial.Ok? ==> r == RunSpec(Idle, initial.value, ticks)
  {
    match Locate(processes, openError)
    case Err(e) => Failed(e, 0)
    case Ok(_) =>
      match initial
      case Err(e) => Failed(e, 0)
      case Ok(game) => RunSpec(Idle, game, ticks)
  }

  // ---------------------------------------------------------------------
  // Properties of the machine.
  // ---------------------------------------------------------------------

  /** Pausing and then resuming a playing song sets the reduced volume and
      then the full master volume again. */
  lemma PauseThenResume(song: Song, commands: seq<SinkCommand>)
    ensures TickSpec(Active(song, commands), Ok(Paused)) == Ok(Active(song, commands + [SetVolume(10)]))
    ensures TickSpec(TickSpec(Active(song, commands), Ok(Paused)).value, Ok(InGame))
         == Ok(Active(song, commands + [SetVolume(10), SetVolume(50)]))
  {
    assert commands + [SetVolume(10)] + [SetVolume(50)] == commands + [SetVolume(10), SetVolume(50)];
  }

  /** A tick whose snapshots come from decoding memory: neither poll can
      report the paused status. */
  predicate ObservedTick(t: Tick)
  {
    (t.poll.Ok? ==> Observable(t.poll.value)) && (t.status.Ok? ==> t.status.value != Paused)
  }

  /** Ticks made of real polls are observed ticks. */
  lemma PolledTicksAreObserved(copy: Copier, w: World)
    requires CopiesExactly(copy)
    ensures ObservedTick(Tick(PollGameInfo(copy), w, PollStatus(copy)))
  {
  }

  /** What holds of a session fed only with observed ticks: a song plays
      only during a match, and it has only ever been told to play at the
      full master volume. */
  ghost predicate Consistent(m: Mode, game: GameInfo)
  {
    m.Active? ==>
      && game.status == InGame
      && forall k :: 0 <= k < |m.commands| ==> m.commands[k] == SetVolume(MasterVolume)
  }

  lemma IterationKeepsConsistent(m: Mode, game: GameInfo, t: Tick)
    requires Consistent(m, game) && ObservedTick(t)
    ensures IterationSpec(m, game, t).Ok? ==> Consistent(IterationSpec(m, game, t).value.0, IterationSpec(m, game, t).value.1)
  {
    if IterationSpec(m, game, t).Ok? {
      var current := t.poll.value;
      var events := Detect(game, current);
      var folded := FoldSpec(m, events, t.world).value;
      assert folded.Active? ==> current.status == InGame && forall k :: 0 <= k < |folded.commands| ==> folded.commands[k] == SetVolume(MasterVolume);
    }
  }

  /** With observed ticks, the session keeps `Consistent` at every step. */
  lemma {:induction false} ObservedSessionsAreConsistent(m: Mode, game: GameInfo, ticks: seq<Tick>)
    requires Consistent(m, game)
    requires forall k :: 0 <= k < |ticks| ==> ObservedTick(ticks[k])
    ensures RunSpec(m, game, ticks).Live? ==> Consistent(RunSpec(m, game, ticks).mode, RunSpec(m, game, ticks).game)
    decreases |ticks|
  {
    if ticks != [] {
      IterationKeepsConsistent(m, game, ticks[0]);
      match IterationSpec(m, game, ticks[0])
      case Err(_) =>
      case Ok((m', game')) =>
        ObservedSessionsAreConsistent(m', game', ticks[1..]);
    }
  }

  /** A session that keeps seeing the same snapshot, while waiting, neither
      fails nor changes anything. */
  lemma {:induction false} IdenticalSnapshotsChangeNothing(game: GameInfo, ticks: seq<Tick>)
    requires forall k :: 0 <= k < |ticks| ==> ticks[k].poll == Ok(game)
    ensures RunSpec(Idle, game, ticks) == Live(Idle, game)
    decreases |ticks|
  {
    if ticks != [] {
      assert Detect(game, game) == [];
      assert IterationSpec(Idle, game, ticks[0]) == Ok((Idle, game));
      IdenticalSnapshotsChangeNothing(game, ticks[1..]);
    }
  }

  /** A session that has just connected is waiting: the initial snapshot
      comes before any event. */
  lemma SessionStartsWaiting(processes: seq<ProcessEntry>, openError: Pid -> Option<IoError>, game: GameInfo)
    requires Locate(processes, openError).Ok?
    ensures StepSpec(processes, openError, Ok(game), []) == Live(Idle, game)
  {
  }

  /** From a menu into a match on stage 8, with a playable song registered
      for stage 8: the detector reports the join of the new snapshot, the
      machine starts that song, and the tick sets the full volume. */
  lemma JoinScenario(song: Song, time: Time, w: World)
    requires w.configFile == Ok(Config(map[StageId(8) := [song]]))
    requires w.playFailure(song).None?
    ensures var menu := GameInfo(time, StageId(8), InMenu);
            var game := GameInfo(time, StageId(8), InGame);
            && Detect(menu, game) == [GameJoin(game)]
            && FoldSpec(Idle, Detect(menu, game), w) == Ok(Active(song, []))
            && IterationSpec(Idle, menu, Tick(Ok(game), w, Ok(InGame))) == Ok((Active(song, [SetVolume(50)]), game))
  {
    var menu := GameInfo(time, StageId(8), InMenu);
    var game := GameInfo(time, StageId(8), InGame);
    assert PickSong(Fetch(w.configFile), StageId(8), w.rng) == Some(song);
    assert JoinSpec(game, w) == Ok(song);
    assert FoldSpec(Idle, Detect(menu, game), w) == Ok(Active(song, []));
    assert TickVolume(InGame) == 50;
    assert [] + [SetVolume(50)] == [SetVolume(50)];
  }

  // ---------------------------------------------------------------------
  // The machine on objects.
  // ---------------------------------------------------------------------

  /** The sinks an application state owns. */
  function Footprint(app: App): set<object>
  {
    if app.Playing? then {app.sink} else {}
  }

  /** The value of an application state in the current heap. */
  function ModeOf(app: App): Mode
    reads Footprint(app)
  {
    match app
    case Waiting => Idle
    case Playing(sink) => Active(sink.song, sink.commands)
  }

  function ResultMode(r: Result<App, IoError>): Result<Mode, IoError>
    reads if r.Ok? then Footprint(r.value) else {}
  {
    match r
    case Err(e) => Err(e)
    case Ok(app) => Ok(ModeOf(app))
  }

  /** `Waiting::try_advance(GameJoinEvent)`: fetch the configuration, pick
      a song for the stage, and start playing it on a new sink. */
  method Join(info: GameInfo, w: World) returns (r: Result<Sink, IoError>)
    ensures r.Ok? <==> JoinSpec(info, w).Ok?
    ensures r.Ok? ==> fresh(r.value) && r.value.song == JoinSpec(info, w).value && r.value.commands == []
    ensures r.Err? ==> r.error == JoinSpec(info, w).error
  {
    var config := Fetch(w.configFile);
    var song := PickSong(config, info.stage, w.rng);
    if song.None? {
      return Err(IoError(NotFound, NoSongMessage));
    }
    var failure := w.playFailure(song.value);
    if failure.Some? {
      return Err(failure.value);
    }
    var sink := new Sink(song.value);
    return Ok(sink);
  }

  /** `Playing::advance(GameLeaveEvent)`: stop the sink once, and wait. */
  method Leave(sink: Sink) returns (app: App)
    modifies sink
    ensures app == Waiting
    ensures sink.commands == old(sink.commands) + [SinkCommand.Stop]
  {
    sink.Stop();
    return Waiting;
  }

  /** `Playing::try_advance(TickEvent)`: poll the status and set the volume
      it calls for; a failed poll is the tick's error and sets nothing. */
  method TickPlaying(sink: Sink, status: Result<Status, IoError>) returns (r: Result<Sink, IoError>)
    modifies sink
    ensures status.Err? ==> r == Err(status.error) && sink.commands == old(sink.commands)
    ensures status.Ok? ==> r == Ok(sink)
    ensures status.Ok? ==> sink.commands == old(sink.commands) + [SinkCommand.SetVolume(TickVolume(status.value))]
  {
    var master := MasterVolume;
    if status.Err? {
      return Err(status.error);
    }
    var multiplier := if status.value == Paused then PausedMultiplier else FullMultiplier;
    sink.SetVolume(master * multiplier / 100);
    return Ok(sink);
  }

  /** `TryAdvance<Event> for App`. Only a leave while playing touches the
      sink, with exactly one `stop`; every other pair sends it nothing. */
  method Advance(app: App, ev: Event, w: World) returns (r: Result<App, IoError>)
    modifies Footprint(app)
    ensures ResultMode(r) == AdvanceSpec(old(ModeOf(app)), ev, w)
    ensures r.Ok? && r.value.Playing? ==> r.value == app || fresh(r.value.sink)
    ensures app.Playing? && ev.GameLeave? ==> app.sink.commands == old(app.sink.commands) + [SinkCommand.Stop]
    ensures !(app.Playing? && ev.GameLeave?) ==> unchanged(Footprint(app))
  {
    match (app, ev)
    case (Waiting, GameJoin(info)) =>
      var joined := Join(info, w);
      if joined.Err? {
        return Err(joined.error);
      }
      return Ok(Playing(joined.value));
    case (Playing(sink), GameLeave) =>
      var waiting := Leave(sink);
      return Ok(waiting);
    case _ =>
      return Ok(app);
  }

  /** `TryAdvance<TickEvent> for App`: only a playing state reacts, and it
      keeps its sink. */
  method TickApp(app: App, status: Result<Status, IoError>) returns (r: Result<App, IoError>)
    modifies Footprint(app)
    ensures ResultMode(r) == TickSpec(old(ModeOf(app)), status)
    ensures r.Ok? ==> r.value == app
  {
    match app
    case Waiting =>
      return Ok(app);
    case Playing(sink) =>
      var ticked := TickPlaying(sink, status);
      if ticked.Err? {
        return Err(ticked.error);
      }
      return Ok(Playing(ticked.value));
  }

  /** `events.into_iter().try_fold(app, App::try_advance)`. */
  method FoldEvents(app: App, events: seq<Event>, w: World) returns (r: Result<App, IoError>)
    modifies Footprint(app)
    ensures ResultMode(r) == FoldSpec(old(ModeOf(app)), events, w)
    ensures r.Ok? && r.value.Playing? ==> r.value == app || fresh(r.value.sink)
  {
    ghost var start := ModeOf(app);
    var current := app;
    var i := 0;
    while i < |events|
      invariant 0 <= i <= |events|
      invariant current.Playing? ==> current == app || fresh(current.sink)
      invariant FoldSpec(start, events, w) == FoldSpec(ModeOf(current), events[i..], w)
    {
      var next := Advance(current, events[i], w);
      assert events[i..][0] == events[i] && events[i..][1..] == events[i + 1..];
      if next.Err? {
        return Err(next.error);
      }
      current := next.value;
      i := i + 1;
    }
    return Ok(current);
  }

  /** One pass of the loop in `step`: poll the new snapshot, detect the
      events against the previous one, fold them into the state, replace the
      snapshot, and tick. The first failure ends the pass. */
  method Iterate(app: App, game: GameInfo, tick: Tick) returns (r: Result<(App, GameInfo), IoError>)
    modifies Footprint(app)
    ensures r.Err? ==> IterationSpec(old(ModeOf(app)), game, tick) == Err(r.error)
    ensures r.Ok? ==> IterationSpec(old(ModeOf(app)), game, tick) == Ok((ModeOf(r.value.0), r.value.1))
    ensures r.Ok? && r.value.0.Playing? ==> r.value.0 == app || fresh(r.value.0.sink)
  {
    if tick.poll.Err? {
      return Err(tick.poll.error);
    }
    var newGame := tick.poll.value;
    var events := Detect(game, newGame);
    var folded := FoldEvents(app, events, tick.world);
    if folded.Err? {
      return Err(folded.error);
    }
    var next := folded.value;
    var current := newGame;
    var ticked := TickApp(next, tick.status);
    if ticked.Err? {
      return Err(ticked.error);
    }
    return Ok((ticked.value, current));
  }

  /** The end of a run of `step`: still running after the last given tick,
      or returned with an error after some number of completed iterations. */
  datatype Outcome = Running(app: App, game: GameInfo) | Stopped(error: IoError, completed: nat)

  function Observe(o: Outcome): Session
    reads if o.Running? then Footprint(o.app) else {}
  {
    match o
    case Running(app, game) => Live(ModeOf(app), game)
    case Stopped(e, k) => Failed(e, k)
  }

  /** `step`, run over the given ticks instead of forever: connect, poll the
      first snapshot, start waiting, and iterate until a pass fails. */
  method Step(processes: seq<ProcessEntry>, openError: Pid -> Option<IoError>,
              initial: Result<GameInfo, IoError>, ticks: seq<Tick>) returns (o: Outcome)
    ensures Observe(o) == StepSpec(processes, openError, initial, ticks)
  {
    var connection := Locate(processes, openError);
    if connection.Err? {
      return Stopped(connection.error, 0);
    }
    if initial.Err? {
      return Stopped(initial.error, 0);
    }
    var game := initial.value;
    var app: App := Waiting;
    var i := 0;
    while i < |ticks|
      invariant 0 <= i <= |ticks|
      invariant app.Playing? ==> fresh(app.sink)
      invariant RunSpec(Idle, initial.value, ticks) == Later(RunSpec(ModeOf(app), game, ticks[i..]), i)
    {
      assert ticks[i..][0] == ticks[i] && ticks[i..][1..] == ticks[i + 1..];
      var pass := Iterate(app, game, ticks[i]);
      if pass.Err? {
        return Stopped(pass.error, i);
      }
      app, game := pass.value.0, pass.value.1;
      i := i + 1;
    }
    return Running(app, game);
  }
}
