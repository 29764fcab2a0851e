/** Access to the emulator process: finding it among the running processes,
    translating the emulated console's logical addresses into offsets in the
    host process, and the memory read that combines the two (src/dolphin.rs). */
module Dolphin {
  import opened Common

  /** Where the console's main memory starts in its own address space. */
  const LogicalBase: usize := 0x8000_0000
  /** Where the emulator maps that memory in the host process. */
  const PhysicalBase: usize := 0x7FFF_0000

  const DolphinExe: string := "Dolphin.exe"
  const NotFoundMessage: string := "dolphin not found"
  const ReadFailureMessage: string := "could not read dolphin memory"

  type Pid = nat

  /** One `(pid, process)` pair of the operating system's process table, in
      the order the table is enumerated. */
  datatype ProcessEntry = ProcessEntry(pid: Pid, name: string)

  /** A read handle opened on the emulator process. */
  datatype DolphinHandle = DolphinHandle(pid: Pid)

  /** `read_process_memory::copy_address` on the handle of the located
      process: copies `size` bytes at a physical address, or fails with the
      operating system's error. */
  type Copier = (nat, nat) -> Result<seq<byte>, IoError>

  /** The contract of `copy_address`: a successful copy returns exactly the
      number of bytes asked for. */
  ghost predicate CopiesExactly(copy: Copier)
  {
    forall address: nat, size: nat :: copy(address, size).Ok? ==> |copy(address, size).value| == size
  }

  /** `From<LogicalAddress> for PhysicalAddress`. Addresses below the
      logical base would underflow the unsigned subtraction and are outside
      the function's domain. */
  function ToPhysical(logical: usize): (physical: usize)
    requires logical >= LogicalBase
    ensures PhysicalBase <= physical < 0x1_0000_0000_0000_0000 - (LogicalBase - PhysicalBase)
    ensures ToLogical(physical) == logical
  {
    logical - LogicalBase + PhysicalBase
  }

  /** The inverse translation, from a host offset back to the console
      address it mirrors. */
  function ToLogical(physical: usize): (logical: usize)
    requires PhysicalBase <= physical < 0x1_0000_0000_0000_0000 - (LogicalBase - PhysicalBase)
    ensures logical >= LogicalBase
  {
    physical - PhysicalBase + LogicalBase
  }

  lemma ToLogicalInverse(physical: usize)
    requires PhysicalBase <= physical < 0x1_0000_0000_0000_0000 - (LogicalBase - PhysicalBase)
    ensures ToPhysical(ToLogical(physical)) == physical
  {
  }

  lemma TranslationOfBase()
    ensures ToPhysical(LogicalBase) == PhysicalBase
    ensures ToPhysical(0x8000_0000) == 0x7FFF_0000
  {
  }

  lemma TranslationInjective(a: usize, b: usize)
    requires a >= LogicalBase && b >= LogicalBase
    ensures ToPhysical(a) == ToPhysical(b) <==> a == b
  {
  }

  lemma TranslationPreservesDifferences(a: usize, b: usize)
    requires a >= LogicalBase && b >= LogicalBase
    ensures ToPhysical(a) - ToPhysical(b) == a - b
  {
  }

  /** The index of the first entry of the process table whose name is
      exactly `name`, as `Iterator::find` visits them. */
  function FindNamed(processes: seq<ProcessEntry>, name: string): (r: Option<nat>)
    ensures r.Some? ==> r.value < |processes| && processes[r.value].name == name
    ensures r.Some? ==> forall j :: 0 <= j < r.value ==> processes[j].name != name
    ensures r.None? ==> forall j :: 0 <= j < |processes| ==> processes[j].name != name
  {
    if |processes| == 0 then
      None
    else if processes[0].name == name then
      Some(0)
    else
      match FindNamed(processes[1..], name)
      case None => None
      case Some(i) => Some(i + 1)
  }

  /** `find_dolphin_pid`: the pid of the first process named exactly
      `Dolphin.exe`, or a `NotFound` error when there is none. */
  function FindDolphinPid(processes: seq<ProcessEntry>): (r: Result<Pid, IoError>)
    ensures r.Ok? <==> exists i :: 0 <= i < |processes| && processes[i].name == DolphinExe
    ensures r.Ok? ==> exists i :: 0 <= i < |processes| && processes[i] == ProcessEntry(r.value, DolphinExe) &&
                                forall j :: 0 <= j < i ==> processes[j].name != DolphinExe
    ensures r.Err? ==> r.error == IoError(NotFound, NotFoundMessage)
  {
    match FindNamed(processes, DolphinExe)
    case None => Err(IoError(NotFound, NotFoundMessage))
    case Some(i) => Ok(processes[i].pid)
  }

  /** The name comparison is exact: a process whose name differs only in
      letter case is not selected. */
  lemma FindDolphinPidIsCaseSensitive()
    ensures FindDolphinPid([ProcessEntry(7, "dolphin.exe")]).Err?
    ensures FindDolphinPid([ProcessEntry(7, "dolphin.exe"), ProcessEntry(9, "Dolphin.exe")]) == Ok(9)
  {
    assert "dolphin.exe"[0] != DolphinExe[0];
  }

  /** `DolphinHandle::locate`: find the pid, then open a handle on it;
      `openError` is what opening a handle on a pid fails with, if it fails. */
  function Locate(processes: seq<ProcessEntry>, openError: Pid -> Option<IoError>): (r: Result<DolphinHandle, IoError>)
    ensures r.Ok? <==> FindDolphinPid(processes).Ok? && openError(FindDolphinPid(processes).value).None?
    ensures r.Ok? ==> r.value.pid == FindDolphinPid(processes).value
    ensures FindDolphinPid(processes).Err? ==> r == Err(IoError(NotFound, NotFoundMessage))
    ensures FindDolphinPid(processes).Ok? && r.Err? ==> Some(r.error) == openError(FindDolphinPid(processes).value)
  {
    match FindDolphinPid(processes)
    case Err(e) => Err(e)
    case Ok(pid) =>
      match openError(pid)
      case Some(e) => Err(e)
      case None => Ok(DolphinHandle(pid))
  }

  /** `DolphinHandle::memread`: copies `size` bytes at the translation of
      `address`; on failure the error keeps its kind and gets a fixed
      message. */
  function Memread(copy: Copier, address: usize, size: nat): (r: Result<seq<byte>, IoError>)
    requires address >= LogicalBase
    ensures r.Ok? <==> copy(ToPhysical(address), size).Ok?
    ensures r.Ok? ==> r.value == copy(ToPhysical(address), size).value
    ensures r.Err? ==> r.error == IoError(copy(ToPhysical(address), size).error.kind, ReadFailureMessage)
  {
    match copy(ToPhysical(address), size)
    case Ok(bytes) => Ok(bytes)
    case Err(e) => Err(IoError(e.kind, ReadFailureMessage))
  }
}
