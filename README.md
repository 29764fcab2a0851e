# Falchion: a verified model of the game-state observer

Falchion watches the memory of a running Dolphin emulator that plays Super
Smash Bros. Melee, and plays a stage's song while a match is running. This
project models its deterministic core in Dafny and proves properties of it:

- **Dolphin** (`dolphin.dfy`, src/dolphin.rs): translation of console
  addresses (`0x8000_0000…`) to host offsets (`0x7FFF_0000…`), selection of
  the process named exactly `Dolphin.exe`, and the memory read that combines
  translation and the operating system's copy with error mapping.
- **ByteOrder** (`byteorder.dfy`): the `read_u32::<BigEndian>` decoding the
  clock uses, with its inverse.
- **Melee** (`melee.dfy`, src/melee.rs): the snapshot `GameInfo` of stage,
  clock and status, read from three fixed addresses; any failed read fails
  the whole snapshot. A memory image of a snapshot polls back to it.
- **Events** (`events.dfy`, src/event.rs): the transition detector, a total
  function of two snapshots that yields at most one event.
- **Data** (`data.dfy`, src/data.rs): the stage-to-playlist configuration,
  its fallback to the default, and the choice of some song of a stage.
- **Game** (`game.dfy`, src/game.rs): the older duplicate of locate and
  poll with its own error type; it is proved to read what Melee reads.
- **Application** (`application.dfy`, src/main.rs): the two-state machine
  `App = Waiting | Playing(sink)`, the tick that sets the volume, the
  `try_fold` of events with early exit, and the `step` loop run over a given
  sequence of ticks. The machine is specified on values (`Mode`, `AdvanceSpec`,
  `TickSpec`, `FoldSpec`, `IterationSpec`, `RunSpec`, `StepSpec`) and
  implemented on objects: `Sink` is a class whose `commands` field records
  every `stop` and `set_volume`, and each method is proved against the
  value-level function.

Abstract inputs replace the operating system and the libraries: the process
table is a sequence of `(pid, name)` entries; opening a handle is a function
from pid to an optional error; `copy_address` on the opened handle is a
function from (physical address, size) to bytes or an error, whose successful
copies have exactly the size asked for (`CopiesExactly`); the configuration
file is the result `Config::open` would return; the random number generator is
a number `rng`; playing a song is a function from song to an optional error.

A snapshot is a stage byte, a big-endian clock and one status byte; the code
decodes `0x81` as the menu and every other byte as a match,
has only the `GameJoin` and `GameLeave` events, and reports a missing song as
an I/O error of kind `NotFound` with the message "no song found".

One deviation: `Status` has a third constructor `Paused`. src/main.rs:84
matches `Status::Paused`, which the two-valued `Status` of src/melee.rs:77-80
lacks, so the crate does not compile as written. With `Paused` in the type,
the tick's two volumes are both modelled; the decoder never produces it, the
detector's fall-through arm ignores it, and the proofs about sessions fed by
real polls (`ObservedSessionsAreConsistent`) show that with decoded statuses
every tick sets the full volume.

## Model

| member | source | states |
|---|---|---|
| `Dolphin.ToPhysical` | src/dolphin.rs:38-42 | defined only from the logical base up; the result lies in the host window from `0x7FFF_0000` and the inverse translation gives the address back |
| `Dolphin.ToLogicalInverse` | src/dolphin.rs:40 | translating the inverse of a host offset gives the offset back, so translation is a bijection between the two windows |
| `Dolphin.TranslationOfBase` | src/dolphin.rs:5-6 | the logical base `0x8000_0000` maps to the physical base `0x7FFF_0000` |
| `Dolphin.TranslationInjective` | src/dolphin.rs:40 | two addresses translate to the same offset exactly when they are equal |
| `Dolphin.TranslationPreservesDifferences` | src/dolphin.rs:40 | the distance between two translated addresses equals the distance between the addresses |
| `Dolphin.FindNamed` | src/dolphin.rs:45-48 | returns the index of the first entry with exactly the given name, and none when no entry has it |
| `Dolphin.FindDolphinPid` | src/dolphin.rs:44-51 | succeeds exactly when some process is named `Dolphin.exe`, with the pid of the first such process; otherwise a `NotFound` error "dolphin not found" |
| `Dolphin.FindDolphinPidIsCaseSensitive` | src/dolphin.rs:48 | `dolphin.exe` is not selected; a later `Dolphin.exe` is |
| `Dolphin.Locate` | src/dolphin.rs:20-24 | a handle on the found pid when opening it succeeds; the lookup's error first, then the opening's error |
| `Dolphin.Memread` | src/dolphin.rs:28-31 | reads the translated address with the requested size; a failure keeps its error kind and gets the message "could not read dolphin memory" |
| `ByteOrder.ReadU32` | src/melee.rs:36 | fails with `UnexpectedEof` exactly when fewer than four bytes are given; otherwise the result is the `u32` whose big-endian bytes are the first four |
| `ByteOrder.ValueOfBytes` | src/melee.rs:36 | decoding the big-endian bytes of a `u32` gives it back |
| `ByteOrder.BytesOfValue` | src/melee.rs:36 | encoding the value of four bytes gives the bytes back |
| `Melee.DecodeStatus` | src/melee.rs:53-56 | the byte `0x81` decodes to `InMenu` and every other byte to `InGame`, never an error |
| `Melee.PollStage` | src/melee.rs:42-47 | the stage is the single byte read at `0x8043_208B` with size 1; a failed read is the poll's error |
| `Melee.PollTime` | src/melee.rs:33-40 | the clock is the `u32` whose big-endian bytes are the four read at `0x8046_B6C8`; a failed read is the poll's error |
| `Melee.PollStatus` | src/melee.rs:49-58 | the status is `InMenu` exactly when the byte read at `0x8136_F674` is `0x81`, and never `Paused`; a failed read is the poll's error |
| `Melee.PollGameInfo` | src/melee.rs:22-31 | succeeds exactly when all three reads do, with their values; otherwise the error of the first failing read in the order stage, clock, status, and no snapshot |
| `Melee.PollImage` | src/melee.rs:22-58 | polling a memory that holds a snapshot's bytes at the three addresses gives that snapshot back |
| `Events.Detect` | src/event.rs:12-22 | at most one event; `[GameLeave]` exactly for InGame to InMenu, `[GameJoin(new)]` exactly for InMenu to InGame, and nothing for every other pair |
| `Events.SameStatusNoEvents` | src/event.rs:16-19 | equal statuses yield no event whatever the stage or the clock |
| `Events.JoinCarriesNewStage` | src/event.rs:18 | the payload of a join is the new snapshot, so its stage is the new stage |
| `Events.DetectDependsOnlyOnStatuses` | src/event.rs:16 | the previous snapshot matters only through its status, the new one only through its status and as the join's payload |
| `Events.PausedNoEvents` | src/event.rs:19 | a paused snapshot on either side yields no event |
| `Data.DefaultConfig` | src/data.rs:11-14 | the default configuration has no playlist for any stage |
| `Data.Fetch` | src/data.rs:17-19 | the configuration read when opening and parsing succeed, the default one with no playlists otherwise |
| `Data.PickSong` | src/data.rs:27-33 | `None` exactly when the stage has no playlist or an empty one; otherwise some song of the stage's playlist |
| `Data.EverySongCanBePicked` | src/data.rs:31 | every song of a playlist is the pick for some outcome of the random number generator |
| `Data.FailedFetchHasNoSongs` | src/data.rs:17-18 | after a failed fetch no stage has a song |
| `Game.ToPhysical` | src/game.rs:24-28 | the same translation as `Dolphin.ToPhysical` |
| `Game.Locate` | src/game.rs:38-50 | succeeds exactly when some process is named `Dolphin.exe`, with the pid the newer lookup finds; otherwise `DolphinNotFound` |
| `Game.CopyAt` | src/game.rs:57-63 | copies at the translated address; every failure becomes `InvalidMemoryRead` |
| `Game.PollMatchInfo` | src/game.rs:52-95 | `DolphinAccessDenied` when no handle opens, before any read; otherwise success exactly when the three copies succeed, `InvalidMemoryRead` when one fails, and the stage byte, big-endian clock and `0x81` menu test of the copied bytes |
| `Game.AgreesWithMelee` | src/game.rs:52-95 | when a handle opens, the older poll succeeds exactly when the newer one does, with the same stage, clock and status |
| `Application.TickVolume` | src/main.rs:81-87 | 10 percent for a paused status and the master volume of 50 percent otherwise |
| `Application.JoinSpec` | src/main.rs:54-62 | a stage without songs fails with `NotFound` "no song found"; a success is a song of the stage's playlist that plays; a play failure is the failure of some song of that playlist |
| `Application.AdvanceSpec` | src/main.rs:23-32 | a join while waiting fails exactly when the join does, with its error (`NotFound` "no song found" for a stage without songs, the play error otherwise), and no other pair can fail; a successful join yields a fresh playback of the joined song; a leave while playing yields waiting; every other pair keeps the state |
| `Application.TickSpec` | src/main.rs:39-45 | waiting ignores the tick; playing stays playing with one more volume command for the polled status, or fails with the poll's error |
| `Application.FoldSpec` | src/main.rs:112 | no events keep the state; one event is one transition |
| `Application.FoldConcat` | src/main.rs:112 | the fold goes left to right and stops at the first error: folding `a + b` is folding `a`, then `b` unless `a` failed |
| `Application.IterationSpec` | src/main.rs:110-119 | a failed poll or fold ends the iteration with its error and neither replaces the snapshot nor ticks; otherwise the iteration is the tick applied to the fold: the tick's error when it fails, and else the ticked state with the new snapshot in place of the old one |
| `Application.RunSpec` | src/main.rs:109-121 | no ticks leave the session as it is; a failure happens within the given ticks |
| `Application.RunConcat` | src/main.rs:109-121 | running over `a + b` runs over `a`, and then, unless that failed, over `b` from where `a` ended, with the completed iterations added up |
| `Application.RunStopsAtFirstFailure` | src/main.rs:110-119 | a run that failed after `k` completed iterations ran the first `k` ticks without failing and failed on tick `k` with that iteration's error |
| `Application.StepSpec` | src/main.rs:105-122 | a failed connect or first poll ends the session at once; otherwise the session starts waiting on the first snapshot and runs the ticks |
| `Application.PauseThenResume` | src/main.rs:83-87 | a paused tick sets 10 percent and a following in-game tick restores 50 percent |
| `Application.PolledTicksAreObserved` | src/melee.rs:49-58 | snapshots and statuses produced by polling memory are never paused |
| `Application.IterationKeepsConsistent` | src/main.rs:110-119 | one iteration on observed polls keeps a song playing only during a match and at full volume |
| `Application.ObservedSessionsAreConsistent` | src/main.rs:109-121 | a whole session on observed polls plays a song only while the last snapshot is in a match, and every volume command sets the full master volume |
| `Application.IdenticalSnapshotsChangeNothing` | src/main.rs:109-121 | waiting through any number of identical snapshots changes nothing and never fails |
| `Application.SessionStartsWaiting` | src/main.rs:108 | after connecting and the first poll the session is waiting |
| `Application.JoinScenario` | src/main.rs:26-27 | menu to match on stage 8 with a playable song for stage 8 yields one join of the new snapshot, starts that song, and the tick sets 50 percent |
| `Application.Sink.constructor` | src/main.rs:60 | a sink that has just started its song has received no command |
| `Application.Sink.Stop` | src/main.rs:71 | appends one stop to the sink's commands |
| `Application.Sink.SetVolume` | src/main.rs:87 | appends one volume command to the sink's commands |
| `Application.Join` | src/main.rs:54-62 | follows `JoinSpec`; on success the sink is new, plays the chosen song and has received no command |
| `Application.Leave` | src/main.rs:70-73 | yields `Waiting` and sends exactly one stop to the sink |
| `Application.TickPlaying` | src/main.rs:80-89 | a failed status poll is the error and sends nothing; otherwise keeps the sink and sends exactly one volume command for the status |
| `Application.Advance` | src/main.rs:23-32 | follows `AdvanceSpec`; a leave while playing sends exactly one stop, and every other pair leaves the sink untouched |
| `Application.TickApp` | src/main.rs:39-45 | follows `TickSpec` and keeps the sink it had |
| `Application.FoldEvents` | src/main.rs:112 | follows `FoldSpec`: the events are applied left to right and the first error is returned |
| `Application.Iterate` | src/main.rs:110-119 | follows `IterationSpec` |
| `Application.Step` | src/main.rs:105-122 | the outcome of the loop over the given ticks is the one `StepSpec` gives |

## Left out

- Process enumeration through `sysinfo` and handle opening through `read_process_memory` are operating-system calls: the model takes the process table, the outcome of opening a handle, and the copy routine bound to the handle as inputs.
- `Melee::connect` and the `Melee` wrapper around the handle are not modelled separately: `Step` calls `Dolphin.Locate` directly.
- `Step` does not compute its snapshot polls from the located handle: the first snapshot (`initial`) and each tick's `poll` and `status` are given results. `Melee.PollGameInfo` and `Melee.PollStatus` compute such results from a copy routine, and `PolledTicksAreObserved` is the bridge that shows those results are never paused.
- `bytes[0]` on an empty copy would panic; the model excludes it by requiring that a successful copy has the size asked for, which is the contract of `copy_address`.
- Translation of an address below `0x8000_0000` underflows (a panic in a debug build, a wrap-around in a release build); it is a precondition of `Dolphin.ToPhysical` and `Game.ToPhysical`, and every caller passes one of the three fixed addresses. `usize` is taken as 64 bits wide.
- Audio through `rodio` is a foreign library: device lookup, decoding and `play_once` are replaced by a function from song to an optional error, and the real sink by the `Sink` class that records its commands. `default_output_device().unwrap()` panics when there is no output device; the model assumes a device exists.
- Dropping a sink when the fold or the tick fails (the moved state is discarded with the error) is not modelled: the model has no destructor, and the session simply ends.
- The JSON configuration file is read through `File::open` and `serde_json`, which are file I/O and a parser; the model takes the result of `Config::open` as an input.
- The random number generator in `choose` is an input `rng`; `PickSong` promises only some song of the list, and `EverySongCanBePicked` shows that any song may be picked.
- `pick_song` takes the configuration by shared reference; in the model it is a function of an immutable value, so not modifying the configuration holds by construction and has no separate lemma.
- The infinite loop in `main`, the reconnection after an error, the sleeps and the `eprintln!` logging have no terminating behaviour to state: `Step` runs over a finite sequence of ticks and reports the first error with the number of completed iterations.
- Volumes are floats in the source; the model uses integer percentages (master 50, paused 50 × 0.2 = 10).
- `Duration` is modelled as a number of whole seconds.
- The `println!` of the clock bytes in src/game.rs is output only and is left out.
- The configuration file and the playback outcomes can change from one tick to the next (each tick carries its own `World`); a tick's status poll is an input of its own, not derived from the snapshot's memory.
