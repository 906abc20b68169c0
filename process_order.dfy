/**
 * The process table's order: one comparator per column, the direction
 * applied by swapping the comparator's operands, and the sorted view of a
 * fetched list.
 */
module ProcessOrder {
  import opened Base
  import opened Nvml
  import opened Processes

  datatype TableColumn = Pid | Name | GpuMemory

  datatype SortingDirection = Ascending | Descending

  /** `std::cmp::Ordering`. */
  datatype Ordering = Less | Equal | Greater

  /** The ordering of the swapped operands. */
  function Flipped(o: Ordering): Ordering
  {
    match o
    case Less => Greater
    case Equal => Equal
    case Greater => Less
  }

  function CmpNat(a: nat, b: nat): Ordering
  {
    if a < b then Less else if a == b then Equal else Greater
  }

  /** `String::cmp`: lexicographic, a proper prefix first. */
  function CmpString(a: string, b: string): Ordering
  {
    if a == [] then (if b == [] then Equal else Less)
    else if b == [] then Greater
    else if a[0] < b[0] then Less
    else if a[0] > b[0] then Greater
    else CmpString(a[1..], b[1..])
  }

  /** Used amounts compare numerically; every `Used` is below `Unavailable`; two `Unavailable` tie. */
  function CmpMemory(a: UsedGpuMemory, b: UsedGpuMemory): Ordering
  {
    match (a, b)
    case (Used(x), Used(y)) => CmpNat(x, y)
    case (Used(_), Unavailable) => Less
    case (Unavailable, Used(_)) => Greater
    case (Unavailable, Unavailable) => Equal
  }

  /** The comparator `get_processes_sorted` passes for `column`. */
  function ColumnCmp(column: TableColumn, a: ProcessData, b: ProcessData): Ordering
  {
    match column
    case Pid => CmpNat(a.info.pid, b.info.pid)
    case Name => CmpString(a.name, b.name)
    case GpuMemory => CmpMemory(a.info.usedGpuMemory, b.info.usedGpuMemory)
  }

  /** The comparator handed to the sort: operands swapped for `Descending`. */
  function DirectedCmp(column: TableColumn, direction: SortingDirection, a: ProcessData, b: ProcessData): Ordering
  {
    if direction == Ascending then ColumnCmp(column, a, b) else ColumnCmp(column, b, a)
  }

  predicate InOrder(column: TableColumn, direction: SortingDirection, a: ProcessData, b: ProcessData)
  {
    DirectedCmp(column, direction, a, b) != Greater
  }

  /** Every earlier record is in order with every later one. */
  predicate Sorted(column: TableColumn, direction: SortingDirection, s: seq<ProcessData>)
  {
    forall i, j :: 0 <= i < j < |s| ==> InOrder(column, direction, s[i], s[j])
  }

  lemma {:induction false} CmpStringFlip(a: string, b: string)
    ensures CmpString(b, a) == Flipped(CmpString(a, b))
    ensures CmpString(a, b) == Equal <==> a == b
    decreases |a|
  {
    if a != [] && b != [] && a[0] == b[0] {
      CmpStringFlip(a[1..], b[1..]);
      assert a == [a[0]] + a[1..] && b == [b[0]] + b[1..];
    }
  }

  lemma {:induction false} CmpStringTransitive(a: string, b: string, c: string)
    requires CmpString(a, b) != Greater && CmpString(b, c) != Greater
    ensures CmpString(a, c) != Greater
    decreases |a|
  {
    if a != [] && b != [] && c != [] && a[0] == b[0] == c[0] {
      CmpStringTransitive(a[1..], b[1..], c[1..]);
    }
  }

  /**
   * Each column's comparator is a total order on the column's key:
   * swapping the operands flips the answer, and "not greater" is
   * transitive. This is what the sort needs of its comparator.
   */
  lemma ColumnCmpIsTotalOrder(column: TableColumn, a: ProcessData, b: ProcessData, c: ProcessData)
    ensures ColumnCmp(column, b, a) == Flipped(ColumnCmp(column, a, b))
    ensures ColumnCmp(column, a, b) != Greater && ColumnCmp(column, b, c) != Greater
      ==> ColumnCmp(column, a, c) != Greater
  {
    if column == Name {
      CmpStringFlip(a.name, b.name);
      if CmpString(a.name, b.name) != Greater && CmpString(b.name, c.name) != Greater {
        CmpStringTransitive(a.name, b.name, c.name);
      }
    }
  }

  /** Swapping the operands for `Descending` is the same as flipping the ascending answer. */
  lemma DescendingIsFlippedAscending(column: TableColumn, a: ProcessData, b: ProcessData)
    ensures DirectedCmp(column, Descending, a, b) == Flipped(DirectedCmp(column, Ascending, a, b))
  {
    ColumnCmpIsTotalOrder(column, a, b, b);
  }

  lemma InOrderTotal(column: TableColumn, direction: SortingDirection, a: ProcessData, b: ProcessData)
    ensures InOrder(column, direction, a, b) || InOrder(column, direction, b, a)
  {
    ColumnCmpIsTotalOrder(column, a, b, b);
  }

  lemma InOrderTransitive(column: TableColumn, direction: SortingDirection, a: ProcessData, b: ProcessData, c: ProcessData)
    requires InOrder(column, direction, a, b) && InOrder(column, direction, b, c)
    ensures InOrder(column, direction, a, c)
  {
    if direction == Ascending {
      ColumnCmpIsTotalOrder(column, a, b, c);
    } else {
      ColumnCmpIsTotalOrder(column, c, b, a);
    }
  }

  lemma PrependSorted(column: TableColumn, direction: SortingDirection, a: ProcessData, s: seq<ProcessData>)
    requires Sorted(column, direction, s)
    requires forall j :: 0 <= j < |s| ==> InOrder(column, direction, a, s[j])
    ensures Sorted(column, direction, [a] + s)
  {
    var r := [a] + s;
    forall i, j | 0 <= i < j < |r| ensures InOrder(column, direction, r[i], r[j]) {
      if i > 0 {
        assert r[i] == s[i - 1] && r[j] == s[j - 1];
      }
    }
  }

  /** A record in order with the head of a sorted list is in order with all of it. */
  lemma InOrderWithAll(column: TableColumn, direction: SortingDirection, x: ProcessData, s: seq<ProcessData>)
    requires Sorted(column, direction, s) && s != [] && InOrder(column, direction, x, s[0])
    ensures forall j :: 0 <= j < |s| ==> InOrder(column, direction, x, s[j])
  {
    forall j | 0 < j < |s| ensures InOrder(column, direction, x, s[j]) {
      InOrderTransitive(column, direction, x, s[0], s[j]);
    }
  }

  /** The head of a sorted list is in order with everything inserted behind it. */
  lemma HeadInOrderWithRest(column: TableColumn, direction: SortingDirection, x: ProcessData, s: seq<ProcessData>, rest: seq<ProcessData>)
    requires Sorted(column, direction, s) && s != [] && !InOrder(column, direction, x, s[0])
    requires multiset(rest) == multiset(s[1..]) + multiset{x}
    ensures forall j :: 0 <= j < |rest| ==> InOrder(column, direction, s[0], rest[j])
  {
    InOrderTotal(column, direction, x, s[0]);
    forall j | 0 <= j < |rest| ensures InOrder(column, direction, s[0], rest[j]) {
      assert rest[j] in multiset(rest);
      if rest[j] != x {
        assert rest[j] in multiset(s[1..]);
        var k :| 0 <= k < |s[1..]| && s[1..][k] == rest[j];
        assert s[k + 1] == rest[j];
      }
    }
  }

  /** Inserts `x` into the sorted list `s` before the first record it is in order with. */
  function Insert(column: TableColumn, direction: SortingDirection, x: ProcessData, s: seq<ProcessData>): (r: seq<ProcessData>)
    requires Sorted(column, direction, s)
    ensures multiset(r) == multiset(s) + multiset{x}
    ensures Sorted(column, direction, r)
  {
    if s == [] then [x]
    else if InOrder(column, direction, x, s[0]) then
      InOrderWithAll(column, direction, x, s);
      PrependSorted(column, direction, x, s);
      [x] + s
    else
      var rest := Insert(column, direction, x, s[1..]);
      HeadInOrderWithRest(column, direction, x, s, rest);
      PrependSorted(column, direction, s[0], rest);
      assert s == [s[0]] + s[1..];
      [s[0]] + rest
  }

  /** `sort_by` under the directed comparator: a sorted permutation of `s`. */
  function SortBy(column: TableColumn, direction: SortingDirection, s: seq<ProcessData>): (r: seq<ProcessData>)
    ensures multiset(r) == multiset(s)
    ensures Sorted(column, direction, r)
  {
    if s == [] then []
    else
      assert s == [s[0]] + s[1..];
      Insert(column, direction, s[0], SortBy(column, direction, s[1..]))
  }

  /**
   * `get_processes_sorted_by`: a stored error is handed back unchanged;
   * a stored list comes back as a sorted permutation of itself.
   */
  function SortedBy(processes: Result<seq<ProcessData>, NvmlError>, column: TableColumn, direction: SortingDirection)
    : (r: Result<seq<ProcessData>, NvmlError>)
    ensures processes.Err? ==> r == Err(processes.error)
    ensures processes.Ok? ==>
      r.Ok? && multiset(r.value) == multiset(processes.value) && Sorted(column, direction, r.value)
  {
    match processes
    case Err(e) => Err(e)
    case Ok(list) => Ok(SortBy(column, direction, list))
  }

  /**
   * By memory, `Unavailable` is the maximum in both directions: ascending
   * it follows every `Used` record, descending it precedes every one.
   */
  lemma UnavailableIsMaximum(direction: SortingDirection, s: seq<ProcessData>, i: nat, j: nat)
    requires Sorted(GpuMemory, direction, s) && i < j < |s|
    requires s[i].info.usedGpuMemory.Unavailable? != s[j].info.usedGpuMemory.Unavailable?
    ensures direction == Ascending ==> s[j].info.usedGpuMemory.Unavailable?
    ensures direction == Descending ==> s[i].info.usedGpuMemory.Unavailable?
  {
    assert InOrder(GpuMemory, direction, s[i], s[j]);
  }

  /** A record using 100 bytes and one whose use is unavailable, in both directions. */
  lemma MemorySortOfTwo(p1: ProcessInfo, p2: ProcessInfo)
    requires p1.usedGpuMemory == Used(100) && p2.usedGpuMemory == Unavailable
    ensures SortBy(GpuMemory, Ascending, [ProcessData(p1, "a"), ProcessData(p2, "b")])
      == [ProcessData(p1, "a"), ProcessData(p2, "b")]
    ensures SortBy(GpuMemory, Descending, [ProcessData(p1, "a"), ProcessData(p2, "b")])
      == [ProcessData(p2, "b"), ProcessData(p1, "a")]
  {
    var r1, r2 := ProcessData(p1, "a"), ProcessData(p2, "b");
    assert [r1, r2][1..] == [r2];
    assert SortBy(GpuMemory, Ascending, [r2]) == [r2];
    assert SortBy(GpuMemory, Descending, [r2]) == [r2];
  }
}
