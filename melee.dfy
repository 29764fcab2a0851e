/** The game's state as read out of the emulator's memory: one snapshot is
    three reads at fixed console addresses (src/melee.rs). */
module Melee {
  import opened Common
  import opened ByteOrder
  import opened Dolphin

  /** The byte identifying the loaded stage. */
  const StageAddress: usize := 0x8043_208B
  /** The match clock, a big-endian `u32` number of seconds. */
  const TimeAddress: usize := 0x8046_B6C8
  /** The first byte of the first menu item in the game's heap. */
  const StatusAddress: usize := 0x8136_F674
  /** The value of the status byte while a menu is shown. */
  const MenuByte: byte := 0x81

  /** A stage identifier; equality is equality of the byte. */
  datatype StageId = StageId(id: byte)

  /** Whether the game shows a menu or runs a match. `Paused` is required by
      the application state machine (src/main.rs:84) but the decoder never
      produces it. */
  datatype Status = InMenu | InGame | Paused

  /** A `Duration` of whole seconds. */
  datatype Time = Time(seconds: nat)

  /** One snapshot of the game. */
  datatype GameInfo = GameInfo(time: Time, stage: StageId, status: Status)

  /** What a snapshot decoded from memory can hold: a clock that fits in a
      `u32` and one of the two decodable states. */
  predicate Observable(info: GameInfo)
  {
    info.time.seconds < U32Limit && info.status != Paused
  }

  /** The decoding of the status byte: the menu marker means `InMenu`,
      every other byte `InGame`. */
  function DecodeStatus(b: byte): (s: Status)
    ensures s == InMenu <==> b == MenuByte
    ensures s == InGame <==> b != MenuByte
  {
    if b == MenuByte then InMenu else InGame
  }

  /** `Poll<StageId>`: the single byte at the stage address. */
  function PollStage(copy: Copier): (r: Result<StageId, IoError>)
    requires CopiesExactly(copy)
    ensures r.Ok? <==> Memread(copy, StageAddress, 1).Ok?
    ensures r.Ok? ==> Memread(copy, StageAddress, 1).value == [r.value.id]
    ensures r.Err? ==> r.error == Memread(copy, StageAddress, 1).error
  {
    match Memread(copy, StageAddress, 1)
    case Err(e) => Err(e)
    case Ok(bytes) => Ok(StageId(bytes[0]))
  }

  /** `Poll<Time>`: the four bytes at the clock address, read as a
      big-endian `u32` of seconds. */
  function PollTime(copy: Copier): (r: Result<Time, IoError>)
    requires CopiesExactly(copy)
    ensures r.Ok? <==> Memread(copy, TimeAddress, 4).Ok?
    ensures r.Ok? ==> r.value.seconds < U32Limit
    ensures r.Ok? ==> Memread(copy, TimeAddress, 4).value == BigEndianBytes(r.value.seconds)
    ensures r.Err? ==> r.error == Memread(copy, TimeAddress, 4).error
  {
    match Memread(copy, TimeAddress, 4)
    case Err(e) => Err(e)
    case Ok(bytes) =>
      match ReadU32(bytes)
      case Err(e) => Err(e)
      case Ok(seconds) => Ok(Time(seconds))
  }

  /** `Poll<Status>`: the decoding of the byte at the status address. */
  function PollStatus(copy: Copier): (r: Result<Status, IoError>)
    requires CopiesExactly(copy)
    ensures r.Ok? <==> Memread(copy, StatusAddress, 1).Ok?
    ensures r.Ok? ==> r.value != Paused
    ensures r.Ok? ==> (r.value == InMenu <==> Memread(copy, StatusAddress, 1).value == [MenuByte])
    ensures r.Err? ==> r.error == Memread(copy, StatusAddress, 1).error
  {
    match Memread(copy, StatusAddress, 1)
    case Err(e) => Err(e)
    case Ok(bytes) => Ok(DecodeStatus(bytes[0]))
  }

  /** `Poll<GameInfo>`: stage, clock and status, read in that order; the
      first failing read is the error of the whole poll and no partial
      snapshot is produced. */
  function PollGameInfo(copy: Copier): (r: Result<GameInfo, IoError>)
    requires CopiesExactly(copy)
    ensures r.Ok? <==> PollStage(copy).Ok? && PollTime(copy).Ok? && PollStatus(copy).Ok?
    ensures r.Ok? ==> r.value == GameInfo(PollTime(copy).value, PollStage(copy).value, PollStatus(copy).value)
    ensures r.Ok? ==> Observable(r.value)
    ensures PollStage(copy).Err? ==> r == Err(PollStage(copy).error)
    ensures PollStage(copy).Ok? && PollTime(copy).Err? ==> r == Err(PollTime(copy).error)
    ensures PollStage(copy).Ok? && PollTime(copy).Ok? && PollStatus(copy).Err? ==> r == Err(PollStatus(copy).error)
  {
    match PollStage(copy)
    case Err(e) => Err(e)
    case Ok(stage) =>
      match PollTime(copy)
      case Err(e) => Err(e)
      case Ok(time) =>
        match PollStatus(copy)
        case Err(e) => Err(e)
        case Ok(status) => Ok(GameInfo(time, stage, status))
  }

  /** A status byte that decodes to the given status. */
  function StatusByte(s: Status): byte
  {
    if s == InMenu then MenuByte else 0
  }

  /** The smallest emulator memory that holds the given snapshot: its three
      fields at their addresses, and every other read failing. */
  function Image(info: GameInfo): Copier
  {
    (address: nat, size: nat) =>
      if address == ToPhysical(StageAddress) && size == 1 then
        Ok([info.stage.id])
      else if address == ToPhysical(TimeAddress) && size == 4 then
        Ok(BigEndianBytes(info.time.seconds % U32Limit))
      else if address == ToPhysical(StatusAddress) && size == 1 then
        Ok([StatusByte(info.status)])
      else
        Err(IoError(Other, "unmapped"))
  }

  lemma ImageCopiesExactly(info: GameInfo)
    ensures CopiesExactly(Image(info))
  {
    var copy := Image(info);
    forall address: nat, size: nat | copy(address, size).Ok?
      ensures |copy(address, size).value| == size
    {
      if address == ToPhysical(TimeAddress) && size == 4 {
        assert copy(address, size) == Ok(BigEndianBytes(info.time.seconds % U32Limit));
      } else if size == 1 && (address == ToPhysical(StageAddress) || address == ToPhysical(StatusAddress)) {
        assert |copy(address, size).value| == 1;
      }
    }
  }

  lemma ImageFields(info: GameInfo)
    requires Observable(info)
    ensures Image(info)(ToPhysical(StageAddress), 1) == Ok([info.stage.id])
    ensures Image(info)(ToPhysical(TimeAddress), 4) == Ok(BigEndianBytes(info.time.seconds))
    ensures Image(info)(ToPhysical(StatusAddress), 1) == Ok([StatusByte(info.status)])
  {
    assert ToPhysical(StageAddress) != ToPhysical(TimeAddress);
    assert ToPhysical(StatusAddress) != ToPhysical(TimeAddress);
    assert ToPhysical(StatusAddress) != ToPhysical(StageAddress);
  }

  /** Decoding inverts encoding: polling the memory image of an observable
      snapshot gives that snapshot back. */
  lemma {:induction false} PollImage(info: GameInfo)
    requires Observable(info)
    ensures CopiesExactly(Image(info))
    ensures PollGameInfo(Image(info)) == Ok(info)
  {
    ImageCopiesExactly(info);
    ImageFields(info);
    ValueOfBytes(info.time.seconds);
    var copy := Image(info);
    assert PollStage(copy) == Ok(info.stage);
    assert PollTime(copy) == Ok(info.time);
    assert PollStatus(copy) == Ok(info.status);
  }
}
