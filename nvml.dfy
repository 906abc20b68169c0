/**
 * The values the hardware binding hands to the core. A `Device` records
 * what each device query returns at the moment of one poll, so the core's
 * calls into the driver become plain inputs.
 */
module Nvml {
  import opened Base

  /** The driver's error kinds; every kind except the initial `Unknown` is folded into `Failed`. */
  datatype NvmlError = Unknown | Failed(code: nat)

  /** Memory a process holds on the device, when the driver can tell. */
  datatype UsedGpuMemory = Used(bytes: nat) | Unavailable

  /** One entry of the driver's running-process list. */
  datatype ProcessInfo = ProcessInfo(pid: nat, usedGpuMemory: UsedGpuMemory)

  datatype MemoryInfo = MemoryInfo(used: nat, total: nat)

  /** What one device answers, query by query, during one poll. */
  datatype Device = Device(
    uuid: Result<string, NvmlError>,
    name: Result<string, NvmlError>,
    utilization: Result<nat, NvmlError>,
    memoryInfo: Result<MemoryInfo, NvmlError>,
    temperature: Result<nat, NvmlError>,
    graphicsProcesses: Result<seq<ProcessInfo>, NvmlError>,
    computeProcesses: Result<seq<ProcessInfo>, NvmlError>)

  /** The two process-list queries a process table can be built around. */
  datatype ProcessKind = Graphics | Compute

  /** The table's fetcher: runs the process-list query of its kind. */
  function FetchProcesses(kind: ProcessKind, device: Device): Result<seq<ProcessInfo>, NvmlError>
  {
    match kind
    case Graphics => device.graphicsProcesses
    case Compute => device.computeProcesses
  }
}
