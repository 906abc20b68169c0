# gpustat sampling core, modelled in Dafny

This project models the engine under gpustat's GUI and terminal views. The engine has five parts:

- **History buffer** (`DataGraph`): for each metric, a most-recent-first deque of optional samples, capped at 5000 entries. `update` pushes at the front and trims from the back. `get_value_at` reads an entry back, where a gap and a missing index both read as `None`.
- **Earlier chart history** (`PanelsGraph`): plain samples with no cap at push time. After each render, this history is cut to the highest index the chart body asked for.
- **Process enricher** (`Processes`): takes the driver's process list, drops pid-0 entries, and attaches each process's OS name. The name comes from a cached table that refreshes only after more than 2 whole seconds, and a missing name is shown as `"Unknown"`.
- **Process table** (`ProcessOrder`, `DataProcessTable`):
  - a sort column and direction with a spreadsheet-style click toggle;
  - a refetch gated at 1000 ms that replaces the stored list-or-error wholesale;
  - a sorted view that hands a stored error back unchanged.
  
  The view sorts by pid, by name, or by memory. By memory, every `Used` amount ranks below `Unavailable`. The descending direction swaps the comparator's operands.
- **Device poller** (`DataMonitor`): for each device, a 500 ms gate that pushes exactly one sample into each of three histories, plus two process tables (graphics and compute) that are updated on every poll under their own gates. `GpuMonitoringData` polls its monitors in order.

Each state-changing entity is a class whose fields the methods reassign. A class's state is either its fields or a pure function that gives it as a value (`Spec`, `State`). The methods are specified by pure functions of the old state and the inputs: `Pushed`, `Truncated`, `Refreshed`/`Enrich`, `Clicked`, `TableUpdate`, `Tick`. The source's promises are proved as lemmas about those functions.

The hardware and OS are inputs:

- a `Device` value records what each driver query answers during one poll;
- `osNames: map<nat, string>` is the OS's process-name table at that moment;
- `now: nat` is the clock in milliseconds.

Elapsed time saturates at zero, as Rust's `Instant::elapsed` does. The bank's refresh test keeps the whole-second truncation of `as_secs()`, so it fires only once 3000 ms have passed (`CacheDueFromThreeSeconds`).

`src/panels/process_table.rs` repeats `src/data/process_table.rs` line for line in `click` (34-45), `new` (56-67), `fetch_last_process_array` (69-72), `update` (74-80) and the sorted view (82-117). The differences are that it names the struct `ProcessTable`, lacks the accessors, keeps `click` and `get_processes_sorted` private, and adds a `ui` method, which is rendering and is not modelled. One model, `DataProcessTable` over `ProcessOrder`, serves both files, and every row below that cites `src/data/process_table.rs` applies to the same lines of the panels file.

Behaviour the model follows from the code:

- A failed process fetch replaces a previously stored list with the error, so no stale list is kept (src/data/process_table.rs:77).
- The gates compare with strict `>`: more than 500 ms, more than 1000 ms, more than 2 whole seconds.
- Names compare character by character by code point. This orders strings as Rust's byte-wise comparison of UTF-8 does.
- The enricher attaches only a name. There is no per-process utilization join in the code, so none is modelled.

## Model

| member | source | states |
|---|---|---|
| DataGraph.GraphViewerData.constructor | src/data/graph.rs:8-12 | a new history is empty and every lookup returns `None` |
| DataGraph.GraphViewerData.Update | src/data/graph.rs:14-17 | the new history is the old one with `value` pushed at the front and trimmed to 5000; index 0 reads back `value`; the history stays within capacity |
| DataGraph.GraphViewerData.TrimLength | src/data/graph.rs:19-25 | the pop-back loop leaves the first min(len, 5000) entries unchanged and nothing else |
| DataGraph.GraphViewerData.GetValueAt | src/data/graph.rs:27-29 | `None` at or past the end; otherwise the stored entry flattened (a stored gap reads `None`, a stored sample `Some`) |
| DataGraph.Pushed | src/data/graph.rs:14-25 | after a push, index 0 holds the pushed value, old index i moves to i+1, and the length is min(len+1, 5000) |
| Base.TruncatedIdempotent | src/data/graph.rs:22-24 | trimming twice is trimming once (a history within capacity is left as it is) |
| DataGraph.PushedAllIsTruncatedReverse | src/data/graph.rs:14-25 | any run of pushes leaves the pushed values newest first in front of the old history, cut to 5000 |
| DataGraph.KeepsLastPushed | src/data/graph.rs:14-25 | after at least 5000 pushes the history holds exactly the last 5000 pushed values, newest at index 0 |
| DataGraph.KeepsEveryPushed | src/data/graph.rs:14-25 | up to 5000 pushes into a new history are all kept, newest first |
| PanelsGraph.GraphViewer.constructor | src/panels/graph.rs:15-20 | a new history is empty |
| PanelsGraph.GraphViewer.Update | src/panels/graph.rs:22-24 | the value is placed at index 0, every old entry moves back by one, nothing is removed |
| PanelsGraph.GraphViewer.Render | src/panels/graph.rs:26-41 | the chart body is served each queried index's lookup from the pre-purge history; the purge leaves exactly the first min(len, highest index) entries |
| PanelsGraph.HighestIndex | src/panels/graph.rs:27-31 | the highest index is at least every queried index and is either 0 or one of them |
| PanelsGraph.PurgeDropsHighestQueried | src/panels/graph.rs:38-40 | when the history reaches past the highest queried index, the purge cuts it to exactly that length, so that index reads `None` afterwards |
| Processes.ProcessDataBank.constructor | src/processes.rs:10-17 | a new bank holds the OS's name table and the construction time |
| Processes.ProcessDataBank.MapProcessList | src/processes.rs:26-46 | the name table and its timestamp are replaced exactly when more than 2 whole seconds have passed, and are otherwise unchanged; the result is the enrichment of the list with the resulting table |
| Processes.CacheDueFromThreeSeconds | src/processes.rs:28 | with whole-second truncation, the cache refreshes exactly when at least 3000 ms have passed |
| Processes.EnrichIsKeptWithNames | src/processes.rs:19-24 | the records are the non-zero-pid entries in input order, each with its info unchanged and with the table's name for its pid or exactly "Unknown" |
| Processes.NoPidZero | src/processes.rs:34-45 | no record has pid 0; every input entry with another pid has its record; the number of records is the number of such entries |
| Processes.EnrichAppend | src/processes.rs:34-43 | enriching a concatenation concatenates the enrichments, so kept processes keep their relative order |
| Processes.KeptMembers | src/processes.rs:36-38 | the kept entries are exactly the input entries with a non-zero pid, as many as the count says |
| ProcessOrder.CmpStringFlip | src/data/process_table.rs:105 | swapping the names flips the lexicographic comparison, and it is `Equal` only for equal names |
| ProcessOrder.CmpStringTransitive | src/data/process_table.rs:105 | "not greater" is transitive for the lexicographic comparison of names |
| ProcessOrder.ColumnCmpIsTotalOrder | src/data/process_table.rs:98-117 | each column's comparator (pid, name, memory with `Used < Unavailable` and `Unavailable == Unavailable`) is antisymmetric and transitive, as the sort requires |
| ProcessOrder.DescendingIsFlippedAscending | src/data/process_table.rs:88-94 | comparing with swapped operands for `Descending` gives the flipped ascending answer |
| ProcessOrder.SortBy | src/data/process_table.rs:87-95 | the sort returns a permutation of the records, in order under the direction's comparator |
| ProcessOrder.SortedBy | src/data/process_table.rs:82-96 | a stored error comes back unchanged; a stored list comes back as a sorted permutation |
| ProcessOrder.UnavailableIsMaximum | src/data/process_table.rs:107-115 | in a memory-sorted view, ascending puts every `Unavailable` after every `Used` and descending puts every `Unavailable` before every `Used` |
| ProcessOrder.MemorySortOfTwo | src/data/process_table.rs:107-115 | `Used(100)` and `Unavailable` sort as [Used, Unavailable] ascending and [Unavailable, Used] descending |
| DataProcessTable.Clicked | src/data/process_table.rs:34-45 | a click always selects the clicked column; on the current column it flips the direction; on another column it sets Ascending |
| DataProcessTable.ClickCurrentTwiceRestores | src/data/process_table.rs:35-39 | two clicks on the current column restore the original sort state |
| DataProcessTable.ClickOtherIsAscending | src/data/process_table.rs:40-43 | after any click, clicking a different column gives that column, Ascending |
| DataProcessTable.ProcessTableSorting.constructor | src/data/process_table.rs:58-61 | the sort state starts with the given column and direction |
| DataProcessTable.ProcessTableSorting.Click | src/data/process_table.rs:34-45 | the sort state after the click is `Clicked` of the old state |
| DataProcessTable.ProcessTableData.constructor | src/data/process_table.rs:56-67 | a new table sorts by memory descending, holds `Err(Unknown)`, was never refreshed, and owns a fresh bank and sort state |
| DataProcessTable.NewTableShowsUnknown | src/data/process_table.rs:56-67 | a new table's view is the `Unknown` error |
| DataProcessTable.ProcessTableData.FetchLastProcessArray | src/data/process_table.rs:69-72 | a fetch error comes back unchanged and the bank is untouched; a fetched list is enriched after the bank's gated refresh |
| DataProcessTable.ProcessTableData.Update | src/data/process_table.rs:74-80 | the table's new state is `TableUpdate` of the old one: a refetch when never refreshed or more than 1000 ms since, whose result replaces the stored one, stamped with the time |
| DataProcessTable.UpdateGate | src/data/process_table.rs:74-80 | a due update stamps the time and stores a fetch error over whatever was stored, without touching the bank; an update not due changes nothing; the sort state never changes |
| DataProcessTable.RefreshedView | src/data/process_table.rs:69-95 | after a due refresh that fetched a list, the view is a sorted permutation of its enrichment: one record per non-zero pid and none with pid 0 |
| DataProcessTable.ErrorAfterSuccessIsShown | src/data/process_table.rs:74-80 | a refresh that fails after one that succeeded shows the error, not the stale list |
| DataProcessTable.ProcessTableData.GetProcessesSorted | src/data/process_table.rs:98-117 | the stored error unchanged, or the stored records as a permutation sorted by the current column in the current direction |
| DataMonitor.GpuDeviceMonitor.constructor | src/data/mod.rs:59-77 | a new monitor has never updated its graphs, has three empty histories and two new tables, and records the device's uuid, name and total memory; the uuid, name and memory queries are required to succeed |
| DataMonitor.GpuDeviceMonitor.Update | src/data/mod.rs:79-101 | the monitor's new state is `Tick` of the old one; the owned objects stay distinct and the histories within capacity |
| DataMonitor.TickSamples | src/data/mod.rs:81-100 | on a due tick (never updated, or more than 500 ms since) the time is stamped and each history is the old one with exactly one sample from its own query pushed at the front, a failure as a gap; otherwise no history changes; both tables take their own update on every tick |
| DataMonitor.TickCadence | src/data/mod.rs:81-84 | polls at 0, 200 and 600 ms read the device on the first and last only, in the usage, memory and temperature histories alike |
| DataMonitor.GpuMonitoringData.constructor | src/data/mod.rs:28 | the collection holds the given monitors with disjoint footprints |
| DataMonitor.GpuMonitoringData.Update | src/data/mod.rs:31-37 | every monitor takes exactly one `Tick` against the device with its uuid; the monitors do not interfere |

## Left out

- Rendering: the egui and ratatui views, `ui`, `table_column_head`, `draw_table_cell`, `format_used_gpu_memory`, `render_graph_body` and `src/gui/graph.rs`. These are widgets and float geometry. For `GraphViewer::render` the model keeps only the indices the chart body queries, given as an input sequence.
- Floating point: samples are integers. The source's `as f32` conversions of utilization, used memory and temperature are not modelled, and neither are `bytes_to_mib_gib` and the style code.
- Integer widths: pids (u32) and byte counts (u64) are `nat`. Nothing in the core computes on them.
- NVML and sysinfo: each driver query is a field of a `Device` value, and `refresh_all`/`process` become the `osNames` map. The driver error kinds are folded into `NvmlError.Failed`, except the initial `Unknown`.
- The clock: each operation takes one `now`. The source reads `Instant::now()` separately for the test and for the stamp.
- `Nvml::init`, device enumeration and the `unwrap` panics in `GpuMonitoringData::new` (src/data/mod.rs:16-29). That constructor is modelled as taking already-built monitors.
- The `unwrap` of `device_by_uuid` in `GpuMonitoringData::update` becomes the requirement that every monitor's uuid is in `devices`.
- The `unwrap`s of `uuid`, `name` and `memory_info` in `GpuDeviceMonitor::new` (src/data/mod.rs:61-62, 75) become the requirement that these three queries succeed; the panic when one fails is not modelled.
- Accessors (src/data/mod.rs:103-133, src/data/process_table.rs:119-129, `gpus`): they are not separate members, because they only hand out stored fields:
  - the uuid, name, total memory, the histories, the tables and a table's sort state are `const` fields, read directly and never reassigned after construction;
  - `processes()` is `GetProcessesSorted`.
- ProcessOrder.SortBy: specified only by permutation and sortedness. Stability and the exact order of equal records are properties of Rust's `sort_by`, which the cited code does not state.
- Concurrency: the source is single-threaded.
