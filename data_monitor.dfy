/**
 * The device poller: per device, three sample histories behind a 500 ms
 * gate and two process tables that each keep their own 1000 ms gate.
 */
module DataMonitor {
  import opened Base
  import opened Nvml
  import opened DataGraph
  import opened DataProcessTable

  /** The histories are pushed only when more than this many milliseconds have passed. */
  const GraphMillis: nat := 500

  predicate GraphDue(lastGraphUpdate: Option<nat>, now: nat)
  {
    lastGraphUpdate.None? || ElapsedMillis(now, lastGraphUpdate.value) > GraphMillis
  }

  /** The three samples one gated tick reads: a failed query becomes a gap. */
  function UsageSample(device: Device): Option<int>
  {
    ToOption(device.utilization)
  }

  function MemorySample(device: Device): Option<int>
  {
    match device.memoryInfo
    case Ok(info) => Some(info.used)
    case Err(_) => None
  }

  function TemperatureSample(device: Device): Option<int>
  {
    ToOption(device.temperature)
  }

  /** A monitor's changing state as a value. */
  datatype MonitorState = MonitorState(
    lastGraphUpdate: Option<nat>,
    usage: seq<Option<int>>,
    memory: seq<Option<int>>,
    temperature: seq<Option<int>>,
    graphics: TableState,
    compute: TableState)

  function InitialMonitor(now: nat, osNames: map<nat, string>): MonitorState
  {
    MonitorState(None, [], [], [], InitialTable(now, osNames), InitialTable(now, osNames))
  }

  /** The monitor after one `update` at `now` against `device`. */
  function Tick(s: MonitorState, device: Device, now: nat, osNames: map<nat, string>): MonitorState
  {
    var due := GraphDue(s.lastGraphUpdate, now);
    MonitorState(
      if due then Some(now) else s.lastGraphUpdate,
      if due then Pushed(s.usage, UsageSample(device)) else s.usage,
      if due then Pushed(s.memory, MemorySample(device)) else s.memory,
      if due then Pushed(s.temperature, TemperatureSample(device)) else s.temperature,
      TableUpdate(s.graphics, now, device.graphicsProcesses, osNames),
      TableUpdate(s.compute, now, device.computeProcesses, osNames))
  }

  /**
   * On a due tick each history gains exactly one sample at its front, a
   * failed query as a gap and each from its own query only; otherwise no
   * history changes. Either way the histories stay within capacity and
   * both tables take their own update.
   */
  lemma TickSamples(s: MonitorState, device: Device, now: nat, osNames: map<nat, string>)
    requires |s.usage| <= MaxLen && |s.memory| <= MaxLen && |s.temperature| <= MaxLen
    ensures var r := Tick(s, device, now, osNames);
      && |r.usage| <= MaxLen && |r.memory| <= MaxLen && |r.temperature| <= MaxLen
      && r.graphics == TableUpdate(s.graphics, now, device.graphicsProcesses, osNames)
      && r.compute == TableUpdate(s.compute, now, device.computeProcesses, osNames)
      && (GraphDue(s.lastGraphUpdate, now) ==>
        && r.lastGraphUpdate == Some(now)
        && r.usage == Pushed(s.usage, UsageSample(device))
        && r.memory == Pushed(s.memory, MemorySample(device))
        && r.temperature == Pushed(s.temperature, TemperatureSample(device))
        && |r.usage| == Min(|s.usage| + 1, MaxLen)
        && |r.memory| == Min(|s.memory| + 1, MaxLen)
        && |r.temperature| == Min(|s.temperature| + 1, MaxLen)
        && (r.usage[0].None? <==> device.utilization.Err?)
        && (r.memory[0].None? <==> device.memoryInfo.Err?)
        && (r.temperature[0].None? <==> device.temperature.Err?)
        && (device.utilization.Ok? ==> r.usage[0] == Some(device.utilization.value))
        && (device.memoryInfo.Ok? ==> r.memory[0] == Some(device.memoryInfo.value.used))
        && (device.temperature.Ok? ==> r.temperature[0] == Some(device.temperature.value)))
      && (!GraphDue(s.lastGraphUpdate, now) ==>
        r.lastGraphUpdate == s.lastGraphUpdate
        && r.usage == s.usage && r.memory == s.memory && r.temperature == s.temperature)
  {
  }

  /**
   * Polls at 0, 200 and 600 ms from a new monitor: the first and the
   * last read the device, the one in between does not, in all three
   * histories.
   */
  lemma TickCadence(d0: Device, d1: Device, d2: Device, t: nat, osNames: map<nat, string>)
    ensures var s0 := InitialMonitor(t, osNames);
      var s1 := Tick(s0, d0, t, osNames);
      var s2 := Tick(s1, d1, t + 200, osNames);
      var s3 := Tick(s2, d2, t + 600, osNames);
      && |s1.usage| == 1 && |s2.usage| == 1 && |s3.usage| == 2
      && s3.usage == [UsageSample(d2), UsageSample(d0)]
      && s3.memory == [MemorySample(d2), MemorySample(d0)]
      && s3.temperature == [TemperatureSample(d2), TemperatureSample(d0)]
      && s3.lastGraphUpdate == Some(t + 600)
  {
    var s0 := InitialMonitor(t, osNames);
    var s1 := Tick(s0, d0, t, osNames);
    assert s1.usage == [UsageSample(d0)];
    assert s1.memory == [MemorySample(d0)];
    assert s1.temperature == [TemperatureSample(d0)];
  }

  /** `GpuDeviceMonitor`: everything polled from one device. */
  class GpuDeviceMonitor {
    const deviceUuid: string
    const deviceName: string
    var lastGraphUpdate: Option<nat>
    const usageGraph: GraphViewerData<int>
    const memoryGraph: GraphViewerData<int>
    const temperatureGraph: GraphViewerData<int>
    const graphicsProcesses: ProcessTableData
    const computeProcesses: ProcessTableData
    const maxMemory: nat

    /** The objects the monitor owns. */
    ghost function Repr(): set<object>
    {
      {this, usageGraph, memoryGraph, temperatureGraph,
       graphicsProcesses, graphicsProcesses.sorting, graphicsProcesses.processBank,
       computeProcesses, computeProcesses.sorting, computeProcesses.processBank}
    }

    /** The owned objects are pairwise distinct, each table has its own fetcher, and the histories are within capacity. */
    ghost predicate Valid()
      reads Repr()
    {
      && usageGraph != memoryGraph && usageGraph != temperatureGraph && memoryGraph != temperatureGraph
      && graphicsProcesses != computeProcesses
      && graphicsProcesses.sorting != computeProcesses.sorting
      && graphicsProcesses.processBank != computeProcesses.processBank
      && graphicsProcesses.fetcher == Graphics && computeProcesses.fetcher == Compute
      && usageGraph.Valid() && memoryGraph.Valid() && temperatureGraph.Valid()
    }

    ghost function State(): MonitorState
      reads Repr()
    {
      MonitorState(lastGraphUpdate,
        usageGraph.historical, memoryGraph.historical, temperatureGraph.historical,
        graphicsProcesses.State(), computeProcesses.State())
    }

    /** A new monitor: empty histories, no update yet, and the device's total memory recorded. */
    constructor (device: Device, now: nat, osNames: map<nat, string>)
      requires device.uuid.Ok? && device.name.Ok? && device.memoryInfo.Ok?
      ensures Valid() && fresh(Repr())
      ensures State() == InitialMonitor(now, osNames)
      ensures deviceUuid == device.uuid.value && deviceName == device.name.value
      ensures maxMemory == device.memoryInfo.value.total
    {
      deviceUuid := device.uuid.value;
      deviceName := device.name.value;
      lastGraphUpdate := None;
      usageGraph := new GraphViewerData();
      memoryGraph := new GraphViewerData();
      temperatureGraph := new GraphViewerData();
      graphicsProcesses := new ProcessTableData(Graphics, now, osNames);
      computeProcesses := new ProcessTableData(Compute, now, osNames);
      maxMemory := device.memoryInfo.value.total;
    }

    /** One poll: the gated history push, then both tables' own gated updates. */
    method Update(device: Device, now: nat, osNames: map<nat, string>)
      requires Valid()
      modifies Repr()
      ensures Valid()
      ensures State() == Tick(old(State()), device, now, osNames)
    {
      if lastGraphUpdate.None? || ElapsedMillis(now, lastGraphUpdate.value) > GraphMillis {
        lastGraphUpdate := Some(now);
        usageGraph.Update(UsageSample(device));
        memoryGraph.Update(MemorySample(device));
        temperatureGraph.Update(TemperatureSample(device));
      }
      graphicsProcesses.Update(device, now, osNames);
      computeProcesses.Update(device, now, osNames);
    }
  }

  /** `GpuMonitoringData`: one monitor per device, polled in order. */
  class GpuMonitoringData {
    const monitors: seq<GpuDeviceMonitor>

    ghost predicate Valid()
      reads set i | 0 <= i < |monitors| :: monitors[i]
      reads set i, o | 0 <= i < |monitors| && o in monitors[i].Repr() :: o
    {
      && (forall i :: 0 <= i < |monitors| ==> monitors[i].Valid())
      && (forall i, j :: 0 <= i < j < |monitors| ==> monitors[i].Repr() !! monitors[j].Repr())
    }

    constructor (monitors: seq<GpuDeviceMonitor>)
      requires forall i :: 0 <= i < |monitors| ==> monitors[i].Valid()
      requires forall i, j :: 0 <= i < j < |monitors| ==> monitors[i].Repr() !! monitors[j].Repr()
      ensures this.monitors == monitors && Valid()
    {
      this.monitors := monitors;
    }

    /**
     * Polls every monitor once, in order, each against the device with its
     * uuid in `devices`.
     */
    method Update(devices: map<string, Device>, now: nat, osNames: map<nat, string>)
      requires Valid()
      requires forall i :: 0 <= i < |monitors| ==> monitors[i].deviceUuid in devices
      modifies set i, o | 0 <= i < |monitors| && o in monitors[i].Repr() :: o
      ensures Valid()
      ensures forall i :: 0 <= i < |monitors| ==>
        monitors[i].State() == Tick(old(monitors[i].State()), devices[monitors[i].deviceUuid], now, osNames)
    {
      for k := 0 to |monitors|
        invariant Valid()
        invariant forall i :: 0 <= i < k ==>
          monitors[i].State() == Tick(old(monitors[i].State()), devices[monitors[i].deviceUuid], now, osNames)
        invariant forall i :: k <= i < |monitors| ==> monitors[i].State() == old(monitors[i].State())
      {
        var monitor := monitors[k];
        assert forall i :: 0 <= i < |monitors| && i != k ==> monitors[i].Repr() !! monitor.Repr();
        monitor.Update(devices[monitor.deviceUuid], now, osNames);
      }
    }
  }
}
