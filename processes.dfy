/**
 * The process enricher: joins the driver's process list with a cached
 * table of OS process names, dropping the pid-0 system entries.
 */
module Processes {
  import opened Base
  import opened Nvml

  /** A process row: the driver's entry, unchanged, and its OS name. */
  datatype ProcessData = ProcessData(info: ProcessInfo, name: string)

  /** The OS name table is refreshed only when more than 2 whole seconds have passed. */
  const CacheRefreshSeconds: nat := 2

  /** The name shown for `pid`: the table's entry, or "Unknown" if it has none. */
  function ProcessName(names: map<nat, string>, pid: nat): string
  {
    if pid in names then names[pid] else "Unknown"
  }

  predicate CacheDue(lastRefresh: nat, now: nat)
  {
    WholeSeconds(ElapsedMillis(now, lastRefresh)) > CacheRefreshSeconds
  }

  /** The name table and the time of its last refresh, as a value. */
  datatype BankState = BankState(names: map<nat, string>, lastRefresh: nat)

  /** The bank after the time-gated refresh at `now`, the OS then reporting `osNames`. */
  function Refreshed(b: BankState, now: nat, osNames: map<nat, string>): BankState
  {
    if CacheDue(b.lastRefresh, now) then BankState(osNames, now) else b
  }

  /** The whole-second truncation makes the cache refresh only from 3000 ms on. */
  lemma CacheDueFromThreeSeconds(lastRefresh: nat, now: nat)
    ensures CacheDue(lastRefresh, now) <==> lastRefresh + 3000 <= now
  {
  }

  /** What the loop of `map_process_list` builds from `processes`, shown `names`. */
  function Enrich(names: map<nat, string>, processes: seq<ProcessInfo>): seq<ProcessData>
    decreases |processes|
  {
    if processes == [] then []
    else
      var last := processes[|processes| - 1];
      Enrich(names, processes[..|processes| - 1])
        + (if last.pid == 0 then [] else [ProcessData(last, ProcessName(names, last.pid))])
  }

  /** The entries with a non-zero pid, in input order; a reference definition built from the front. */
  function Kept(processes: seq<ProcessInfo>): seq<ProcessInfo>
  {
    if processes == [] then []
    else (if processes[0].pid == 0 then [] else [processes[0]]) + Kept(processes[1..])
  }

  /** The number of entries with a non-zero pid. */
  function CountKept(processes: seq<ProcessInfo>): nat
  {
    if processes == [] then 0
    else (if processes[0].pid == 0 then 0 else 1) + CountKept(processes[1..])
  }

  /** `Kept` holds exactly the entries whose pid is not 0, and as many as `CountKept` says. */
  lemma {:induction false} KeptMembers(processes: seq<ProcessInfo>)
    ensures |Kept(processes)| == CountKept(processes)
    ensures forall p :: p in Kept(processes) <==> p in processes && p.pid != 0
    decreases |processes|
  {
    if processes != [] {
      KeptMembers(processes[1..]);
      assert processes == [processes[0]] + processes[1..];
    }
  }

  lemma {:induction false} KeptAppend(a: seq<ProcessInfo>, b: seq<ProcessInfo>)
    ensures Kept(a + b) == Kept(a) + Kept(b)
    decreases |a|
  {
    if a == [] {
      assert a + b == b;
    } else {
      KeptAppend(a[1..], b);
      assert (a + b)[1..] == a[1..] + b;
    }
  }

  /** Enriching a concatenation is concatenating the enrichments: the output keeps input order. */
  lemma {:induction false} EnrichAppend(names: map<nat, string>, a: seq<ProcessInfo>, b: seq<ProcessInfo>)
    ensures Enrich(names, a + b) == Enrich(names, a) + Enrich(names, b)
    decreases |b|
  {
    if b == [] {
      assert a + b == a;
    } else {
      var init := b[..|b| - 1];
      EnrichAppend(names, a, init);
      assert (a + b)[..|a + b| - 1] == a + init;
    }
  }

  /**
   * The enricher's output is the kept entries, one record each, in order:
   * the record's info is the entry unchanged and its name is the table's
   * name for its pid, or exactly "Unknown" when the table has none.
   */
  lemma {:induction false} EnrichIsKeptWithNames(names: map<nat, string>, processes: seq<ProcessInfo>)
    ensures |Enrich(names, processes)| == |Kept(processes)|
    ensures forall k :: 0 <= k < |Kept(processes)| ==>
      var p := Kept(processes)[k];
      Enrich(names, processes)[k] == ProcessData(p, if p.pid in names then names[p.pid] else "Unknown")
    decreases |processes|
  {
    if processes != [] {
      var init, last := processes[..|processes| - 1], processes[|processes| - 1];
      EnrichIsKeptWithNames(names, init);
      KeptAppend(init, [last]);
      assert init + [last] == processes;
    }
  }

  /** No record carries pid 0, and every input entry with another pid has its record. */
  lemma NoPidZero(names: map<nat, string>, processes: seq<ProcessInfo>)
    ensures forall k :: 0 <= k < |Enrich(names, processes)| ==> Enrich(names, processes)[k].info.pid != 0
    ensures forall p :: p in processes && p.pid != 0 ==>
      ProcessData(p, ProcessName(names, p.pid)) in Enrich(names, processes)
    ensures |Enrich(names, processes)| == CountKept(processes)
  {
    EnrichIsKeptWithNames(names, processes);
    KeptMembers(processes);
    forall p | p in processes && p.pid != 0
      ensures ProcessData(p, ProcessName(names, p.pid)) in Enrich(names, processes)
    {
      assert p in Kept(processes);
      var k :| 0 <= k < |Kept(processes)| && Kept(processes)[k] == p;
      assert Enrich(names, processes)[k] == ProcessData(p, ProcessName(names, p.pid));
    }
  }

  /** `ProcessDataBank`: the OS process-name table and when it was last refreshed. */
  class ProcessDataBank {
    var sys: map<nat, string>
    var lastRefresh: nat

    /** The table starts as the OS's process list at construction time `now`. */
    function Spec(): BankState
      reads this
    {
      BankState(sys, lastRefresh)
    }

    constructor (now: nat, osNames: map<nat, string>)
      ensures sys == osNames && lastRefresh == now
    {
      sys := osNames;
      lastRefresh := now;
    }

    /**
     * Refreshes the name table from `osNames` (what the OS reports at
     * `now`) when it is more than 2 whole seconds old, then enriches
     * `processList`. Never fails.
     */
    method MapProcessList(now: nat, osNames: map<nat, string>, processList: seq<ProcessInfo>)
      returns (result: seq<ProcessData>)
      modifies this
      ensures CacheDue(old(lastRefresh), now) ==> sys == osNames && lastRefresh == now
      ensures !CacheDue(old(lastRefresh), now) ==> sys == old(sys) && lastRefresh == old(lastRefresh)
      ensures Spec() == Refreshed(old(Spec()), now, osNames)
      ensures result == Enrich(sys, processList)
    {
      if WholeSeconds(ElapsedMillis(now, lastRefresh)) > CacheRefreshSeconds {
        sys := osNames;
        lastRefresh := now;
      }

      result := [];
      for i := 0 to |processList|
        invariant result == Enrich(sys, processList[..i])
      {
        var process := processList[i];
        assert processList[..i + 1][..i] == processList[..i];
        if process.pid == 0 {
          continue;
        }
        result := result + [ProcessData(process, ProcessName(sys, process.pid))];
      }
      assert processList[..|processList|] == processList;
    }
  }
}
