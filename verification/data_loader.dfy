/**
 * The backend's event store (backend/app/services/data_loader.py), over an
 * in-memory sequence of rows standing for the machine event CSV: the grid
 * layout of machines with its cache, the memoised metadata with its
 * transport edges, the time-range event query and the time window.
 */
module DataLoader {
  import opened Wrappers
  import opened Sorting
  import opened IntSqrt

  const DefaultWindowMinutes: real := 5.0
  const PaddingX := 180
  const PaddingY := 140
  const MarginX := 100
  const MarginY := 100
  const TransportStart := "TRANSPORT_START"

  /** One row of the machine event table; a missing cell is `None`. */
  datatype Row = Row(timeMin: real, machine: Option<string>, event: string, toMachine: Option<string>)

  function RowTime(r: Row): real
  {
    r.timeMin
  }

  datatype MachineLayout = MachineLayout(machine: string, x: int, y: int, row: nat, col: nat)

  datatype Edge = Edge(from: string, to: string)

  datatype SimulationMetadata = SimulationMetadata(
    machines: seq<MachineLayout>,
    edges: seq<Edge>,
    windowMinutes: real)

  datatype Window = Window(start: real, end: real)

  // ---------------------------------------------------------------------
  // Grid layout

  /** `max(1, int(count ** 0.5))`. */
  function GridColumns(count: nat): (c: nat)
    ensures 1 <= c
    ensures 1 <= count ==> c * c <= count
    ensures count < (c + 1) * (c + 1)
    ensures count == 0 ==> c == 1
  {
    var r := FloorSqrt(count);
    if r < 1 then 1 else r
  }

  /** The layout of the machine with sorted position `index`: row-major in a grid `cols` wide. */
  function LayoutAt(machine: string, index: nat, cols: nat): (l: MachineLayout)
    requires 1 <= cols
    ensures l.machine == machine
  {
    var row := index / cols;
    var col := index % cols;
    MachineLayout(machine, MarginX + col * PaddingX, MarginY + row * PaddingY, row, col)
  }

  /** Row and column recover the sorted position; the column fits the grid and the coordinates follow the cell. */
  lemma LayoutAtCell(machine: string, index: nat, cols: nat)
    requires 1 <= cols
    ensures var l := LayoutAt(machine, index, cols);
      && l.col < cols && l.row * cols + l.col == index
      && l.x == MarginX + l.col * PaddingX && l.y == MarginY + l.row * PaddingY
      && MarginX <= l.x && MarginY <= l.y
  {
  }

  /** Machines at different sorted positions are placed at different points. */
  lemma LayoutPositionsDistinct(m1: string, m2: string, i: nat, j: nat, cols: nat)
    requires 1 <= cols && i != j
    ensures var a, b := LayoutAt(m1, i, cols), LayoutAt(m2, j, cols); (a.x, a.y) != (b.x, b.y)
  {
    LayoutAtCell(m1, i, cols);
    LayoutAtCell(m2, j, cols);
  }

  function GridLayouts(sorted: seq<string>, cols: nat): (r: seq<MachineLayout>)
    requires 1 <= cols
    ensures |r| == |sorted|
    ensures forall i :: 0 <= i < |sorted| ==> r[i] == LayoutAt(sorted[i], i, cols)
  {
    seq(|sorted|, i requires 0 <= i < |sorted| => LayoutAt(sorted[i], i, cols))
  }

  /** The values of `m` for `keys`, in the order of `keys` (a dict's insertion order). */
  function ValuesInOrder(keys: seq<string>, m: map<string, MachineLayout>): (r: seq<MachineLayout>)
    requires Elems(keys) <= m.Keys
    ensures |r| == |keys|
    ensures forall i :: 0 <= i < |keys| ==> r[i] == m[keys[i]]
  {
    if keys == [] then [] else [m[keys[0]]] + ValuesInOrder(keys[1..], m)
  }

  /** The cache after writing `ls` into `m` one after another (`m[l.machine] = l`). */
  function WriteLayouts(m: map<string, MachineLayout>, ls: seq<MachineLayout>): map<string, MachineLayout>
    decreases |ls|
  {
    if ls == [] then m
    else WriteLayouts(m, ls[..|ls| - 1])[ls[|ls| - 1].machine := ls[|ls| - 1]]
  }

  function MachinesIn(ls: seq<MachineLayout>): set<string>
  {
    set l | l in ls :: l.machine
  }

  /** Writing layouts adds exactly their machines to the cache. */
  lemma {:induction false} WriteLayoutsKeys(m: map<string, MachineLayout>, ls: seq<MachineLayout>)
    ensures WriteLayouts(m, ls).Keys == m.Keys + MachinesIn(ls)
    decreases |ls|
  {
    if ls != [] {
      var init := ls[..|ls| - 1];
      WriteLayoutsKeys(m, init);
      assert ls == init + [ls[|ls| - 1]];
      assert MachinesIn(ls) == MachinesIn(init) + {ls[|ls| - 1].machine};
    }
  }

  /**
   * When no two layouts name the same machine, each machine's entry is its
   * layout, and the entries of other machines are the ones that were there.
   */
  lemma {:induction false} WriteLayoutsLookup(m: map<string, MachineLayout>, ls: seq<MachineLayout>)
    requires forall i, j :: 0 <= i < j < |ls| ==> ls[i].machine != ls[j].machine
    ensures forall l :: l in ls ==> l.machine in WriteLayouts(m, ls) && WriteLayouts(m, ls)[l.machine] == l
    ensures forall k :: k in m && k !in MachinesIn(ls) ==> k in WriteLayouts(m, ls) && WriteLayouts(m, ls)[k] == m[k]
    decreases |ls|
  {
    if ls != [] {
      var init := ls[..|ls| - 1];
      var last := ls[|ls| - 1];
      WriteLayoutsLookup(m, init);
      assert ls == init + [last];
      forall l | l in ls ensures l.machine in WriteLayouts(m, ls) && WriteLayouts(m, ls)[l.machine] == l {
        if l != last {
          var i :| 0 <= i < |init| && init[i] == l;
          assert ls[i] == l;
        }
      }
      assert MachinesIn(ls) == MachinesIn(init) + {last.machine};
    }
  }

  /** The cache's insertion order after the same writes: a machine joins the end when it is new. */
  function WriteOrder(order: seq<string>, m: map<string, MachineLayout>, ls: seq<MachineLayout>): seq<string>
    decreases |ls|
  {
    if ls == [] then order
    else
      var init := ls[..|ls| - 1];
      var last := ls[|ls| - 1];
      WriteOrder(order, m, init) + (if last.machine in WriteLayouts(m, init) then [] else [last.machine])
  }

  /** The machines of `ls`, in order. */
  function MachineNames(ls: seq<MachineLayout>): (r: seq<string>)
    ensures |r| == |ls|
    ensures forall i :: 0 <= i < |ls| ==> r[i] == ls[i].machine
  {
    seq(|ls|, i requires 0 <= i < |ls| => ls[i].machine)
  }

  /** Writing layouts of distinct machines none of which is cached appends them all, in order. */
  lemma {:induction false} WriteOrderFresh(order: seq<string>, m: map<string, MachineLayout>, ls: seq<MachineLayout>)
    requires forall i, j :: 0 <= i < j < |ls| ==> ls[i].machine != ls[j].machine
    requires forall i :: 0 <= i < |ls| ==> ls[i].machine !in m
    ensures WriteOrder(order, m, ls) == order + MachineNames(ls)
    decreases |ls|
  {
    if ls != [] {
      var init := ls[..|ls| - 1];
      var last := ls[|ls| - 1];
      assert forall i :: 0 <= i < |init| ==> init[i] == ls[i];
      WriteOrderFresh(order, m, init);
      assert last.machine !in WriteLayouts(m, init) by {
        WriteLayoutsKeys(m, init);
        forall l | l in init ensures l.machine != last.machine {
          var i :| 0 <= i < |init| && init[i] == l;
          assert ls[i] == l;
        }
      }
      assert MachineNames(ls) == MachineNames(init) + [last.machine];
    }
  }

  /** From an empty cache, the grid's writes leave the names in sorted order, and reading them back gives the grid. */
  lemma EmptyCacheWrites(sorted: seq<string>, cols: nat)
    requires 1 <= cols && Distinct(sorted)
    ensures var ls := GridLayouts(sorted, cols);
      && WriteOrder([], map[], ls) == sorted
      && Elems(sorted) <= WriteLayouts(map[], ls).Keys
      && ValuesInOrder(sorted, WriteLayouts(map[], ls)) == ls
  {
    var ls := GridLayouts(sorted, cols);
    GridLayoutsMachines(sorted, cols);
    WriteOrderFresh([], map[], ls);
    WriteLayoutsKeys(map[], ls);
    WriteLayoutsLookup(map[], ls);
    var r := ValuesInOrder(sorted, WriteLayouts(map[], ls));
    forall i | 0 <= i < |sorted| ensures r[i] == ls[i] {
      assert ls[i] in ls;
    }
  }

  /** The layouts of a sorted list of distinct names name distinct machines, namely those names. */
  lemma GridLayoutsMachines(sorted: seq<string>, cols: nat)
    requires 1 <= cols && Distinct(sorted)
    ensures var ls := GridLayouts(sorted, cols);
      && (forall i, j :: 0 <= i < j < |ls| ==> ls[i].machine != ls[j].machine)
      && MachinesIn(ls) == Elems(sorted)
      && MachineNames(ls) == sorted
  {
    var ls := GridLayouts(sorted, cols);
    forall k | k in Elems(sorted) ensures k in MachinesIn(ls) {
      var i :| 0 <= i < |sorted| && sorted[i] == k;
      assert ls[i].machine == k;
    }
  }

  // ---------------------------------------------------------------------
  // Queries over the rows

  /** The first occurrence of every element, in order of first occurrence. */
  function Dedup<T(==)>(s: seq<T>): (r: seq<T>)
    ensures Distinct(r)
    ensures Elems(r) == Elems(s)
    decreases |s|
  {
    if s == [] then []
    else
      var rest := Dedup(s[..|s| - 1]);
      assert s == s[..|s| - 1] + [s[|s| - 1]];
      assert Elems(s) == Elems(s[..|s| - 1]) + {s[|s| - 1]};
      if s[|s| - 1] in Elems(rest) then rest
      else
        assert Elems(rest + [s[|s| - 1]]) == Elems(rest) + {s[|s| - 1]};
        rest + [s[|s| - 1]]
  }

  predicate IsEdgeRow(r: Row)
  {
    r.event == TransportStart && r.machine.Some? && r.toMachine.Some?
  }

  /** `(machine, to_machine)` of every TRANSPORT_START row with both cells present. */
  function EdgeCandidates(rows: seq<Row>): (r: seq<Edge>)
    ensures forall e :: e in r <==> exists row :: row in rows && IsEdgeRow(row) && e == Edge(row.machine.value, row.toMachine.value)
    decreases |rows|
  {
    if rows == [] then []
    else
      var rest := EdgeCandidates(rows[1..]);
      assert rows == [rows[0]] + rows[1..];
      if IsEdgeRow(rows[0]) then [Edge(rows[0].machine.value, rows[0].toMachine.value)] + rest else rest
  }

  /** The metadata edges: the distinct (machine, to_machine) pairs of TRANSPORT_START rows. */
  function EdgesOf(rows: seq<Row>): (r: seq<Edge>)
    ensures Distinct(r)
    ensures forall e :: e in r <==> exists row :: row in rows && IsEdgeRow(row) && e == Edge(row.machine.value, row.toMachine.value)
  {
    var c := EdgeCandidates(rows);
    var r := Dedup(c);
    assert forall e :: e in r <==> e in c by {
      forall e ensures e in r <==> e in c {
        assert e in r <==> e in Elems(r);
        assert e in c <==> e in Elems(c);
      }
    }
    r
  }

  /** The distinct machine names present in the rows. */
  function MachinesOf(rows: seq<Row>): (r: seq<string>)
    ensures Distinct(r)
    ensures Elems(r) == set row | row in rows && row.machine.Some? :: row.machine.value
  {
    Dedup(PresentMachines(rows))
  }

  /** The machine cells that are present, in table order. */
  function PresentMachines(rows: seq<Row>): (r: seq<string>)
    ensures Elems(r) == set row | row in rows && row.machine.Some? :: row.machine.value
    decreases |rows|
  {
    if rows == [] then []
    else
      var rest := PresentMachines(rows[1..]);
      assert rows == [rows[0]] + rows[1..];
      assert (set row | row in rows && row.machine.Some? :: row.machine.value) ==
        (if rows[0].machine.Some? then {rows[0].machine.value} else {}) +
        (set row | row in rows[1..] && row.machine.Some? :: row.machine.value);
      if rows[0].machine.Some? then
        assert Elems([rows[0].machine.value] + rest) == {rows[0].machine.value} + Elems(rest);
        [rows[0].machine.value] + rest
      else rest
  }

  /** The rows with `start <= time_min < end`, in table order. */
  function InRange(rows: seq<Row>, start: real, end: real): (r: seq<Row>)
    ensures forall x :: x in r <==> x in rows && start <= x.timeMin < end
    ensures forall x :: multiset(r)[x] == if start <= x.timeMin < end then multiset(rows)[x] else 0
    decreases |rows|
  {
    if rows == [] then []
    else
      var rest := InRange(rows[1..], start, end);
      assert rows == [rows[0]] + rows[1..];
      if start <= rows[0].timeMin < end then [rows[0]] + rest else rest
  }

  /** `iter_events(start, end)`: the rows in `[start, end)`, sorted by time; nothing for an empty range. */
  function IterEvents(rows: seq<Row>, start: real, end: real): (r: seq<Row>)
    ensures end <= start ==> r == []
    ensures SortedBy(r, RowTime)
    ensures multiset(r) == multiset(if end <= start then [] else InRange(rows, start, end))
    ensures forall x :: x in r <==> x in rows && start <= x.timeMin < end
    ensures forall x :: multiset(r)[x] == if start <= x.timeMin < end then multiset(rows)[x] else 0
  {
    if end <= start then []
    else
      var r := SortByKey(InRange(rows, start, end), RowTime);
      assert forall x :: x in r <==> x in InRange(rows, start, end) by {
        forall x ensures x in r <==> x in InRange(rows, start, end) {
          assert x in r <==> x in multiset(r);
          assert x in InRange(rows, start, end) <==> x in multiset(InRange(rows, start, end));
        }
      }
      r
  }

  /** `time_window(current)`: `window` minutes centred on `current`, cut off at zero. */
  function TimeWindow(window: real, current: real): (w: Window)
    ensures 0.0 <= w.start
    ensures w.end - w.start <= window
    ensures 0.0 <= window && 0.0 <= current ==> w.start <= current <= w.end
    ensures w.end - current == window / 2.0
    ensures 0.0 <= current - window / 2.0 ==> current - w.start == window / 2.0
    ensures current - window / 2.0 < 0.0 ==> w.start == 0.0
  {
    var half := window / 2.0;
    Window(if current - half < 0.0 then 0.0 else current - half, current + half)
  }

  // ---------------------------------------------------------------------
  // The loader object and its two caches

  class SimulationData {
    /** The machine event table (the CSV file). */
    const rows: seq<Row>
    const windowMinutes: real
    var metadataCache: Option<SimulationMetadata>
    var machineIndex: map<string, MachineLayout>
    /** The keys of `machineIndex` in insertion order. */
    var indexOrder: seq<string>

    ghost predicate Valid()
      reads this
    {
      Distinct(indexOrder) && Elems(indexOrder) == machineIndex.Keys
    }

    constructor (rows: seq<Row>, windowMinutes: real := DefaultWindowMinutes)
      ensures Valid()
      ensures this.rows == rows && this.windowMinutes == windowMinutes
      ensures metadataCache == None && machineIndex == map[] && indexOrder == []
    {
      this.rows := rows;
      this.windowMinutes := windowMinutes;
      metadataCache := None;
      machineIndex := map[];
      indexOrder := [];
    }

    /** The cached layouts in insertion order (`list(self._machine_index.values())`). */
    function CachedLayouts(): seq<MachineLayout>
      reads this
      requires Valid()
    {
      ValuesInOrder(indexOrder, machineIndex)
    }

    /**
     * `_machine_layout(machines)`: when the cache holds as many machines as
     * asked for, its layouts; otherwise the grid of the sorted names, each
     * written to the cache.
     */
    method MachineLayouts(machines: seq<string>) returns (layouts: seq<MachineLayout>)
      requires Valid()
      requires Distinct(machines)
      modifies this
      ensures Valid()
      ensures metadataCache == old(metadataCache)
      ensures old(|machineIndex| > 0 && |machineIndex| == |machines|) ==>
        layouts == old(CachedLayouts()) && machineIndex == old(machineIndex) && indexOrder == old(indexOrder)
      ensures !old(|machineIndex| > 0 && |machineIndex| == |machines|) ==>
        && layouts == GridLayouts(SortedUnique(machines), GridColumns(|machines|))
        && machineIndex.Keys == old(machineIndex).Keys + Elems(machines)
        && (forall l :: l in layouts ==> machineIndex[l.machine] == l)
        && (forall k :: k in old(machineIndex) && k !in machines ==> machineIndex[k] == old(machineIndex)[k])
        && indexOrder == WriteOrder(old(indexOrder), old(machineIndex), layouts)
      ensures old(machineIndex) == map[] ==> indexOrder == SortedUnique(machines) && CachedLayouts() == layouts
    {
      if |machineIndex| > 0 && |machineIndex| == |machines| {
        return CachedLayouts();
      }
      if machineIndex == map[] {
        DistinctCard(indexOrder);
        assert indexOrder == [];
      }
      var sorted := SortedUnique(machines);
      SortedUniqueOfDistinct(machines);
      assert forall k :: k in machines <==> k in sorted by {
        forall k ensures k in machines <==> k in sorted {
          assert k in machines <==> k in Elems(machines);
          assert k in sorted <==> k in Elems(sorted);
        }
      }
      layouts := PlaceAll(sorted, GridColumns(|sorted|));
      GridLayoutsMachines(sorted, GridColumns(|sorted|));
      WriteLayoutsKeys(old(machineIndex), layouts);
      WriteLayoutsLookup(old(machineIndex), layouts);
      if old(machineIndex) == map[] {
        EmptyCacheWrites(sorted, GridColumns(|sorted|));
      }
    }

    /** `self._machine_index[layout.machine] = layout`, keeping the insertion order. */
    method RecordLayout(layout: MachineLayout)
      requires Valid()
      modifies this`machineIndex, this`indexOrder
      ensures Valid()
      ensures machineIndex == old(machineIndex)[layout.machine := layout]
      ensures indexOrder == old(indexOrder) + (if layout.machine in old(machineIndex) then [] else [layout.machine])
    {
      if layout.machine !in machineIndex {
        indexOrder := indexOrder + [layout.machine];
      }
      machineIndex := machineIndex[layout.machine := layout];
    }

    /** The loop of `_machine_layout`: lay out `sorted` row by row and write each layout to the cache. */
    method PlaceAll(sorted: seq<string>, cols: nat) returns (layouts: seq<MachineLayout>)
      requires Valid()
      requires 1 <= cols
      modifies this
      ensures Valid()
      ensures metadataCache == old(metadataCache)
      ensures layouts == GridLayouts(sorted, cols)
      ensures machineIndex == WriteLayouts(old(machineIndex), layouts)
      ensures indexOrder == WriteOrder(old(indexOrder), old(machineIndex), layouts)
    {
      layouts := [];
      ghost var grid := GridLayouts(sorted, cols);
      var idx := 0;
      while idx < |sorted|
        invariant idx <= |sorted|
        invariant Valid()
        invariant metadataCache == old(metadataCache)
        invariant layouts == grid[..idx]
        invariant machineIndex == WriteLayouts(old(machineIndex), layouts)
        invariant indexOrder == WriteOrder(old(indexOrder), old(machineIndex), layouts)
      {
        var layout := LayoutAt(sorted[idx], idx, cols);
        layouts := layouts + [layout];
        RecordLayout(layout);
        assert layouts[..|layouts| - 1] == grid[..idx];
        idx := idx + 1;
      }
    }

    /**
     * `metadata()`: computed once (machine layouts, transport edges, window
     * size) and returned from the cache afterwards.
     */
    method Metadata() returns (m: SimulationMetadata)
      requires Valid()
      modifies this
      ensures Valid()
      ensures metadataCache == Some(m)
      ensures old(metadataCache).Some? ==>
        m == old(metadataCache).value && machineIndex == old(machineIndex) && indexOrder == old(indexOrder)
      ensures old(metadataCache).None? ==>
        && m.edges == EdgesOf(rows)
        && m.windowMinutes == windowMinutes
        && (old(machineIndex) == map[] ==>
              m.machines == GridLayouts(SortedUnique(MachinesOf(rows)), GridColumns(|MachinesOf(rows)|)))
    {
      if metadataCache.Some? {
        return metadataCache.value;
      }
      var layouts := MachineLayouts(MachinesOf(rows));
      m := SimulationMetadata(layouts, EdgesOf(rows), windowMinutes);
      metadataCache := Some(m);
    }
  }
}
