/** An older, self-contained version of the process lookup and snapshot
    reading, with its own error type (src/game.rs). The file is not declared
    as a module of the crate (src/main.rs:1-4), so nothing calls it; it is
    modelled to show that it computes what the newer modules compute. */
module Game {
  import opened Common
  import opened ByteOrder
  import D = Dolphin
  import M = Melee

  const LogicalBase: usize := 0x8000_0000
  const PhysicalBase: usize := 0x7FFF_0000

  const StageAddress: usize := 0x8043_208B
  const TimeAddress: usize := 0x8046_B6C8
  const MenuItemAddress: usize := 0x8136_F674

  datatype Error = DolphinAccessDenied | DolphinNotFound | InvalidMemoryRead | SongNotFound

  datatype StageId = StageId(id: byte)

  datatype Status = InMenu | InGame

  /** `MatchInfo`, with the clock as a number of seconds. */
  datatype MatchInfo = MatchInfo(seconds: nat, stage: StageId, status: Status)

  /** `Dolphin`: the located emulator process. */
  datatype Dolphin = Dolphin(pid: D.Pid)

  /** `From<LogicalAddress> for PhysicalAddress`, the same translation as
      the newer module's. */
  function ToPhysical(logical: usize): (physical: usize)
    requires logical >= LogicalBase
    ensures physical == D.ToPhysical(logical)
  {
    logical - LogicalBase + PhysicalBase
  }

  /** `Dolphin::locate`, without the refresh of the process table: the
      first process named exactly `Dolphin.exe`, or `DolphinNotFound`. */
  function Locate(processes: seq<D.ProcessEntry>): (r: Result<Dolphin, Error>)
    ensures r.Ok? <==> exists i :: 0 <= i < |processes| && processes[i].name == D.DolphinExe
    ensures r.Ok? ==> D.FindDolphinPid(processes) == Ok(r.value.pid)
    ensures r.Err? ==> r.error == DolphinNotFound
  {
    match D.FindNamed(processes, "Dolphin.exe")
    case None => Err(DolphinNotFound)
    case Some(i) => Ok(Dolphin(processes[i].pid))
  }

  /** `copy_address` at the translation of a console address, with every
      failure reported as `InvalidMemoryRead`. */
  function CopyAt(copy: D.Copier, logical: usize, size: nat): (r: Result<seq<byte>, Error>)
    requires logical >= LogicalBase
    ensures r.Ok? <==> copy(D.ToPhysical(logical), size).Ok?
    ensures r.Ok? ==> r.value == copy(D.ToPhysical(logical), size).value
    ensures r.Err? ==> r.error == InvalidMemoryRead
  {
    match copy(ToPhysical(logical), size)
    case Ok(bytes) => Ok(bytes)
    case Err(_) => Err(InvalidMemoryRead)
  }

  /** `Dolphin::poll_match_info`. `handleOpens` is whether a handle can be
      opened on the process: when it cannot, the poll fails with
      `DolphinAccessDenied` before reading anything. Then the stage byte, the
      big-endian clock and the first menu item byte are read in that order,
      and any failing read fails the poll with `InvalidMemoryRead`. */
  function PollMatchInfo(handleOpens: bool, copy: D.Copier): (r: Result<MatchInfo, Error>)
    requires D.CopiesExactly(copy)
    ensures !handleOpens ==> r == Err(DolphinAccessDenied)
    ensures handleOpens ==> (r.Ok? <==> CopyAt(copy, StageAddress, 1).Ok? && CopyAt(copy, TimeAddress, 4).Ok? && CopyAt(copy, MenuItemAddress, 1).Ok?)
    ensures handleOpens && r.Err? ==> r.error == InvalidMemoryRead
    ensures r.Ok? ==> CopyAt(copy, StageAddress, 1).value == [r.value.stage.id]
    ensures r.Ok? ==> r.value.seconds < U32Limit && CopyAt(copy, TimeAddress, 4).value == BigEndianBytes(r.value.seconds)
    ensures r.Ok? ==> (r.value.status == InMenu <==> CopyAt(copy, MenuItemAddress, 1).value == [0x81])
  {
    if !handleOpens then
      Err(DolphinAccessDenied)
    else
      match CopyAt(copy, StageAddress, 1)
      case Err(e) => Err(e)
      case Ok(stageBytes) =>
        var stage := StageId(stageBytes[0]);
        match CopyAt(copy, TimeAddress, 4)
        case Err(e) => Err(e)
        case Ok(timeBytes) =>
          match ReadU32(timeBytes)
          case Err(_) => Err(InvalidMemoryRead)
          case Ok(seconds) =>
            match CopyAt(copy, MenuItemAddress, 1)
            case Err(e) => Err(e)
            case Ok(menuBytes) =>
              Ok(MatchInfo(seconds, stage, if menuBytes[0] == 0x81 then InMenu else InGame))
  }

  /** The older poll succeeds exactly when the newer one does, and then both
      read the same stage, the same clock and the same status. */
  lemma {:induction false} AgreesWithMelee(copy: D.Copier)
    requires D.CopiesExactly(copy)
    ensures PollMatchInfo(true, copy).Ok? <==> M.PollGameInfo(copy).Ok?
    ensures PollMatchInfo(true, copy).Ok? ==>
      var info, snapshot := PollMatchInfo(true, copy).value, M.PollGameInfo(copy).value;
      && info.stage.id == snapshot.stage.id
      && info.seconds == snapshot.time.seconds
      && (info.status == InMenu <==> snapshot.status == M.InMenu)
      && (info.status == InGame <==> snapshot.status == M.InGame)
  {
    if PollMatchInfo(true, copy).Ok? {
      var info, snapshot := PollMatchInfo(true, copy).value, M.PollGameInfo(copy).value;
      BigEndianInjective(info.seconds, snapshot.time.seconds);
    }
  }

  lemma BigEndianInjective(x: nat, y: nat)
    requires x < U32Limit && y < U32Limit && BigEndianBytes(x) == BigEndianBytes(y)
    ensures x == y
  {
    ValueOfBytes(x);
    ValueOfBytes(y);
  }
}
