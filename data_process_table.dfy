/**
 * A process table: its sort state and the spreadsheet-style click toggle,
 * its time-gated refresh that replaces the stored list-or-error wholesale,
 * and its sorted view.
 */
module DataProcessTable {
  import opened Base
  import opened Nvml
  import opened Processes
  import opened ProcessOrder

  datatype SortState = SortState(column: TableColumn, direction: SortingDirection)

  function FlippedDirection(d: SortingDirection): SortingDirection
  {
    match d
    case Ascending => Descending
    case Descending => Ascending
  }

  /** The sort state after a click on `column`'s header. */
  function Clicked(s: SortState, column: TableColumn): (r: SortState)
    ensures r.column == column
    ensures s.column == column ==> r.direction != s.direction
    ensures s.column != column ==> r.direction == Ascending
  {
    if s.column == column then s.(direction := FlippedDirection(s.direction))
    else SortState(column, Ascending)
  }

  /** Two clicks on the current column give back the original sort state. */
  lemma ClickCurrentTwiceRestores(s: SortState)
    ensures Clicked(Clicked(s, s.column), s.column) == s
  {
  }

  /** Whatever came before, a click on a column other than the last one clicked sorts it ascending. */
  lemma ClickOtherIsAscending(s: SortState, x: TableColumn, y: TableColumn)
    requires x != y
    ensures Clicked(Clicked(s, x), y) == SortState(y, Ascending)
  {
  }

  /** `ProcessTableSorting`: the column the table is sorted by and in which direction. */
  class ProcessTableSorting {
    var column: TableColumn
    var direction: SortingDirection

    constructor (column: TableColumn, direction: SortingDirection)
      ensures this.column == column && this.direction == direction
    {
      this.column := column;
      this.direction := direction;
    }

    function Spec(): SortState
      reads this
    {
      SortState(column, direction)
    }

    /** The same column flips the direction; another column is selected ascending. */
    method Click(column: TableColumn)
      modifies this
      ensures Spec() == Clicked(old(Spec()), column)
    {
      if this.column == column {
        direction := match direction
          case Ascending => Descending
          case Descending => Ascending;
      } else {
        this.column := column;
        direction := Ascending;
      }
    }
  }

  /** The process list is refetched only when more than this many milliseconds have passed. */
  const RefreshMillis: nat := 1000

  predicate RefreshDue(lastRefresh: Option<nat>, now: nat)
  {
    lastRefresh.None? || ElapsedMillis(now, lastRefresh.value) > RefreshMillis
  }

  /** A table's whole state as a value, its name bank included. */
  datatype TableState = TableState(
    sorting: SortState,
    processes: Result<seq<ProcessData>, NvmlError>,
    lastRefresh: Option<nat>,
    bank: BankState)

  /** A fresh table: by memory, descending; no list yet; never refreshed. */
  function InitialTable(now: nat, osNames: map<nat, string>): TableState
  {
    TableState(SortState(GpuMemory, Descending), Err(Unknown), None, BankState(osNames, now))
  }

  /**
   * `fetch_last_process_array` as a value: the stored result and the bank
   * after it. A fetch error comes back unchanged without consulting the
   * bank; a fetched list is enriched by the bank after its gated refresh.
   */
  function Fetched(bank: BankState, now: nat, osNames: map<nat, string>, fetched: Result<seq<ProcessInfo>, NvmlError>)
    : (Result<seq<ProcessData>, NvmlError>, BankState)
  {
    match fetched
    case Err(e) => (Err(e), bank)
    case Ok(list) =>
      var b := Refreshed(bank, now, osNames);
      (Ok(Enrich(b.names, list)), b)
  }

  /** The table after one `update` at `now`, the fetcher answering `fetched`. */
  function TableUpdate(s: TableState, now: nat, fetched: Result<seq<ProcessInfo>, NvmlError>, osNames: map<nat, string>)
    : TableState
  {
    if RefreshDue(s.lastRefresh, now) then
      var (processes, bank) := Fetched(s.bank, now, osNames, fetched);
      s.(processes := processes, lastRefresh := Some(now), bank := bank)
    else s
  }

  /** What `get_processes_sorted` shows for a table in state `s`. */
  function View(s: TableState): Result<seq<ProcessData>, NvmlError>
  {
    SortedBy(s.processes, s.sorting.column, s.sorting.direction)
  }

  /**
   * A refresh that is due replaces the stored result wholesale, an error
   * included, and stamps the time; the sort state never changes.
   */
  lemma UpdateGate(s: TableState, now: nat, fetched: Result<seq<ProcessInfo>, NvmlError>, osNames: map<nat, string>)
    ensures TableUpdate(s, now, fetched, osNames).sorting == s.sorting
    ensures !RefreshDue(s.lastRefresh, now) ==> TableUpdate(s, now, fetched, osNames) == s
    ensures RefreshDue(s.lastRefresh, now) ==> TableUpdate(s, now, fetched, osNames).lastRefresh == Some(now)
    ensures RefreshDue(s.lastRefresh, now) && fetched.Err? ==>
      TableUpdate(s, now, fetched, osNames).processes == Err(fetched.error)
      && TableUpdate(s, now, fetched, osNames).bank == s.bank
  {
  }

  /**
   * After a due refresh that fetched `list`, the view is a sorted
   * permutation of the enriched list: one record per entry with a
   * non-zero pid, none with pid 0.
   */
  lemma RefreshedView(s: TableState, now: nat, list: seq<ProcessInfo>, osNames: map<nat, string>)
    requires RefreshDue(s.lastRefresh, now)
    ensures var r := TableUpdate(s, now, Ok(list), osNames);
      && View(r).Ok?
      && multiset(View(r).value) == multiset(Enrich(r.bank.names, list))
      && |View(r).value| == CountKept(list)
      && Sorted(s.sorting.column, s.sorting.direction, View(r).value)
      && forall k :: 0 <= k < |View(r).value| ==> View(r).value[k].info.pid != 0
  {
    var r := TableUpdate(s, now, Ok(list), osNames);
    var e := Enrich(r.bank.names, list);
    NoPidZero(r.bank.names, list);
    var v := View(r).value;
    assert |v| == |multiset(v)| == |multiset(e)| == |e|;
    forall k | 0 <= k < |v| ensures v[k].info.pid != 0 {
      assert v[k] in multiset(e);
      var i :| 0 <= i < |e| && e[i] == v[k];
    }
  }

  /** A new table shows the initial `Unknown` error. */
  lemma NewTableShowsUnknown(now: nat, osNames: map<nat, string>)
    ensures View(InitialTable(now, osNames)) == Err(Unknown)
  {
  }

  /**
   * A refresh that fails after one that succeeded shows the error, not
   * the stale list.
   */
  lemma ErrorAfterSuccessIsShown(
    t0: nat, t1: nat, t2: nat, list: seq<ProcessInfo>, e: NvmlError, osNames: map<nat, string>)
    requires t1 + RefreshMillis < t2
    ensures var s1 := TableUpdate(InitialTable(t0, osNames), t1, Ok(list), osNames);
      View(s1).Ok? && View(TableUpdate(s1, t2, Err(e), osNames)) == Err(e)
  {
  }

  /** `ProcessTableData`: one process table of a device. */
  class ProcessTableData {
    const sorting: ProcessTableSorting
    var processes: Result<seq<ProcessData>, NvmlError>
    var lastRefresh: Option<nat>
    const processBank: ProcessDataBank
    const fetcher: ProcessKind

    function State(): TableState
      reads this, sorting, processBank
    {
      TableState(sorting.Spec(), processes, lastRefresh, processBank.Spec())
    }

    constructor (fetcher: ProcessKind, now: nat, osNames: map<nat, string>)
      ensures fresh(sorting) && fresh(processBank)
      ensures this.fetcher == fetcher
      ensures State() == InitialTable(now, osNames)
    {
      sorting := new ProcessTableSorting(GpuMemory, Descending);
      processes := Err(Unknown);
      lastRefresh := None;
      processBank := new ProcessDataBank(now, osNames);
      this.fetcher := fetcher;
    }

    /** Runs the fetcher on `device`; only a successful fetch goes through the bank. */
    method FetchLastProcessArray(device: Device, now: nat, osNames: map<nat, string>)
      returns (r: Result<seq<ProcessData>, NvmlError>)
      modifies processBank
      ensures (r, processBank.Spec())
        == Fetched(old(processBank.Spec()), now, osNames, FetchProcesses(fetcher, device))
    {
      var fetched := FetchProcesses(fetcher, device);
      if fetched.Err? {
        return Err(fetched.error);
      }
      var list := processBank.MapProcessList(now, osNames, fetched.value);
      r := Ok(list);
    }

    /** Refetches when never refreshed or more than 1000 ms ago, storing whatever comes back. */
    method Update(device: Device, now: nat, osNames: map<nat, string>)
      modifies this, processBank
      ensures State() == TableUpdate(old(State()), now, FetchProcesses(fetcher, device), osNames)
    {
      if lastRefresh.None? || ElapsedMillis(now, lastRefresh.value) > RefreshMillis {
        processes := FetchLastProcessArray(device, now, osNames);
        lastRefresh := Some(now);
      }
    }

    /**
     * The stored error unchanged, or the stored records as a permutation
     * sorted by the current column in the current direction.
     */
    function GetProcessesSorted(): (r: Result<seq<ProcessData>, NvmlError>)
      reads this, sorting
      ensures processes.Err? ==> r == Err(processes.error)
      ensures processes.Ok? ==>
        r.Ok? && multiset(r.value) == multiset(processes.value)
        && Sorted(sorting.column, sorting.direction, r.value)
    {
      SortedBy(processes, sorting.column, sorting.direction)
    }
  }
}
