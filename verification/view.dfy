/**
 * The scene (desktop_app/view.py): machine positions on a grid, the colour
 * of each machine box, and one token per active transport, kept in step
 * with the controller's tables.
 */
module View {
  import opened Wrappers
  import opened Sorting
  import opened IntSqrt
  import opened Model
  import Controller

  /** The palette, keyed by colour class. */
  const Colors: map<string, string> :=
    map[Idle := "#264653", Queue := "#f4a261", Processing := "#2a9d8f", Breakdown := "#e76f51"]

  /** A machine box is 160 by 80; grid cells are the box plus 80 in each direction. */
  const BoxWidth := 160
  const BoxHeight := 80
  const SpacingX := BoxWidth + 80
  const SpacingY := BoxHeight + 80

  /** `COLORS.get(key, COLORS["idle"])`. */
  function ColorFor(key: string): (c: string)
    ensures key in Colors ==> c == Colors[key]
    ensures key !in Colors ==> c == Colors[Idle]
  {
    if key in Colors then Colors[key] else Colors[Idle]
  }

  /** Every colour class a machine can be in has its own colour, so the fallback is never taken for them. */
  lemma ColorKeyHasColor(s: MachineState)
    ensures s.ColorKey() in Colors
    ensures ColorFor(s.ColorKey()) == Colors[s.ColorKey()]
    ensures s.ColorKey() != Idle ==> ColorFor(s.ColorKey()) != Colors[Idle]
  {
  }

  datatype Point = Point(x: int, y: int)

  /** No two keys share a value. */
  ghost predicate Injective<K, V>(m: map<K, V>)
  {
    forall a, b :: a in m && b in m && a != b ==> m[a] != m[b]
  }

  /** `max(1, ceil(sqrt(n)))`: the side of the smallest square grid that holds `n` machines. */
  function LayoutColumns(n: nat): (c: nat)
    ensures 1 <= c
    ensures n <= c * c
    ensures c == 1 || (c - 1) * (c - 1) < n
  {
    var r := CeilSqrt(n);
    if r < 1 then 1 else r
  }

  /** The cell of the machine at sorted position `index`. */
  function PositionAt(index: nat, cols: nat): Point
    requires 1 <= cols
  {
    Point((index % cols) * SpacingX, (index / cols) * SpacingY)
  }

  /** A cell determines the sorted position it was computed from. */
  lemma PositionDeterminesIndex(i: nat, j: nat, cols: nat)
    requires 1 <= cols
    requires PositionAt(i, cols) == PositionAt(j, cols)
    ensures i == j
  {
    assert i % cols == j % cols;
    assert i / cols == j / cols;
    assert i == (i / cols) * cols + i % cols;
    assert j == (j / cols) * cols + j % cols;
  }

  /** Cells lie in the first `cols` columns, and different sorted positions give different cells. */
  lemma PositionsDistinct(i: nat, j: nat, cols: nat)
    requires 1 <= cols
    ensures 0 <= PositionAt(i, cols).x < cols * SpacingX && 0 <= PositionAt(i, cols).y
    ensures PositionAt(i, cols) == PositionAt(j, cols) ==> i == j
  {
    if PositionAt(i, cols) == PositionAt(j, cols) {
      PositionDeterminesIndex(i, j, cols);
    }
  }

  /** The `i`-th name of `sorted` sits in cell `i` of a grid `columns` wide. */
  ghost predicate InGridOrder(sorted: seq<string>, columns: nat, positions: map<string, Point>)
    requires 1 <= columns
  {
    forall i :: 0 <= i < |sorted| ==> sorted[i] in positions && positions[sorted[i]] == PositionAt(i, columns)
  }

  /** Place the names of `sorted`, in order, on a grid `columns` wide. */
  method PlaceOnGrid(sorted: seq<string>, columns: nat) returns (positions: map<string, Point>)
    requires 1 <= columns
    requires Distinct(sorted)
    ensures positions.Keys == Elems(sorted)
    ensures InGridOrder(sorted, columns, positions)
  {
    positions := map[];
    for index := 0 to |sorted|
      invariant positions.Keys == Elems(sorted[..index])
      invariant forall i :: 0 <= i < index ==> positions[sorted[i]] == PositionAt(i, columns)
    {
      assert sorted[..index + 1] == sorted[..index] + [sorted[index]];
      positions := positions[sorted[index] := PositionAt(index, columns)];
    }
    assert sorted[..|sorted|] == sorted;
  }

  /** Two names placed by position in `sorted` never share a cell. */
  lemma GridInjective(sorted: seq<string>, columns: nat, positions: map<string, Point>)
    requires 1 <= columns
    requires positions.Keys == Elems(sorted)
    requires InGridOrder(sorted, columns, positions)
    ensures Injective(positions)
  {
    forall a, b | a in positions && b in positions && positions[a] == positions[b]
      ensures a == b
    {
      var i :| 0 <= i < |sorted| && sorted[i] == a;
      var j :| 0 <= j < |sorted| && sorted[j] == b;
      PositionsDistinct(i, j, columns);
    }
  }

  /** `_build_layout(machines)`: the grid position of each machine, in sorted order. */
  method BuildLayout(machines: seq<string>) returns (positions: map<string, Point>)
    requires Distinct(machines)
    ensures machines == [] ==> positions == map[]
    ensures positions.Keys == Elems(machines)
    ensures |SortedUnique(machines)| == |machines|
    ensures InGridOrder(SortedUnique(machines), LayoutColumns(|machines|), positions)
    ensures Injective(positions)
  {
    SortedUniqueOfDistinct(machines);
    if machines == [] {
      return map[];
    }
    var sorted := SortedUnique(machines);
    var columns := LayoutColumns(|sorted|);
    positions := PlaceOnGrid(sorted, columns);
    GridInjective(sorted, columns, positions);
  }

  /** `positions` is the layout `_build_layout` gives the sorted list `sorted`: its grid, one distinct cell per machine. */
  ghost predicate GridLayoutOf(sorted: seq<string>, positions: map<string, Point>)
  {
    && positions.Keys == Elems(sorted)
    && InGridOrder(sorted, LayoutColumns(|sorted|), positions)
    && Injective(positions)
  }

  datatype ScenePoint = ScenePoint(x: real, y: real)

  /** A grid cell as a scene coordinate. */
  function AsScene(p: Point): ScenePoint
  {
    ScenePoint(p.x as real, p.y as real)
  }

  /** `positions.get(name)` with Python's `None` key: no name, no position. */
  function Lookup(positions: map<string, Point>, name: Option<string>): Option<ScenePoint>
  {
    if name.Some? && name.value in positions then Some(AsScene(positions[name.value])) else None
  }

  /** The point a fraction `p` of the way from `a` to `b`. */
  function Lerp(a: real, b: real, p: real): real
  {
    a + (b - a) * p
  }

  /** Offset from a cell's corner to its box's centre. */
  const CentreX: real := (BoxWidth / 2) as real
  const CentreY: real := (BoxHeight / 2) as real

  /**
   * Where a token is drawn (`update_progress`): along the line from the
   * origin's cell to the destination's cell, by the trip's progress, moved
   * to the centre of the box. A missing origin is the scene origin; a
   * missing destination falls back to the origin machine's cell when no
   * destination is named, else to the scene origin.
   */
  function TokenPosition(t: Transport, positions: map<string, Point>, clock: real): ScenePoint
  {
    var start := TokenStart(t, positions);
    var end := TokenEnd(t, positions);
    var progress := t.Progress(clock);
    ScenePoint(Lerp(start.x, end.x, progress) + CentreX, Lerp(start.y, end.y, progress) + CentreY)
  }

  function TokenStart(t: Transport, positions: map<string, Point>): (s: ScenePoint)
    ensures t.fromMachine.Some? && t.fromMachine.value in positions ==> s == AsScene(positions[t.fromMachine.value])
    ensures !(t.fromMachine.Some? && t.fromMachine.value in positions) ==> s == ScenePoint(0.0, 0.0)
  {
    var start := Lookup(positions, t.fromMachine);
    if start.Some? then start.value
    else if Present(t.fromMachine) then
      (if t.fromMachine.value in positions then AsScene(positions[t.fromMachine.value]) else ScenePoint(0.0, 0.0))
    else ScenePoint(0.0, 0.0)
  }

  function TokenEnd(t: Transport, positions: map<string, Point>): (e: ScenePoint)
    ensures t.toMachine.Some? && t.toMachine.value in positions ==> e == AsScene(positions[t.toMachine.value])
    ensures Present(t.toMachine) && t.toMachine.value !in positions ==> e == ScenePoint(0.0, 0.0)
    ensures !Present(t.toMachine) && !(t.toMachine.Some? && t.toMachine.value in positions) ==>
      && (t.fromMachine.Some? && t.fromMachine.value in positions ==> e == AsScene(positions[t.fromMachine.value]))
      && (!(t.fromMachine.Some? && t.fromMachine.value in positions) ==> e == ScenePoint(0.0, 0.0))
  {
    var end := Lookup(positions, t.toMachine);
    if end.Some? then end.value
    else
      var fallback := OrElse(t.toMachine, t.fromMachine);
      if fallback.Some? && fallback.value in positions then AsScene(positions[fallback.value]) else ScenePoint(0.0, 0.0)
  }

  /**
   * A token whose both ends are on the grid stays on the segment between
   * their centres: at its origin before departure and at its destination
   * once the trip is over.
   */
  lemma TokenOnSegment(t: Transport, positions: map<string, Point>, clock: real)
    requires t.fromMachine.Some? && t.fromMachine.value in positions
    requires t.toMachine.Some? && t.toMachine.value in positions
    ensures var s := AsScene(positions[t.fromMachine.value]);
      var e := AsScene(positions[t.toMachine.value]);
      var r := TokenPosition(t, positions, clock);
      && (s.x <= e.x ==> s.x + CentreX <= r.x <= e.x + CentreX)
      && (e.x <= s.x ==> e.x + CentreX <= r.x <= s.x + CentreX)
      && (s.y <= e.y ==> s.y + CentreY <= r.y <= e.y + CentreY)
      && (e.y <= s.y ==> e.y + CentreY <= r.y <= s.y + CentreY)
      && (t.Progress(clock) == 0.0 ==> r == ScenePoint(s.x + CentreX, s.y + CentreY))
      && (t.Progress(clock) == 1.0 ==> r == ScenePoint(e.x + CentreX, e.y + CentreY))
  {
    var s := AsScene(positions[t.fromMachine.value]);
    var e := AsScene(positions[t.toMachine.value]);
    var p := t.Progress(clock);
    LerpBetween(s.x, e.x, p);
    LerpBetween(s.y, e.y, p);
  }

  /** A token with neither end on the grid sits at the centre of the cell at the scene origin. */
  lemma TokenOffGrid(t: Transport, positions: map<string, Point>, clock: real)
    requires !(t.fromMachine.Some? && t.fromMachine.value in positions)
    requires !(t.toMachine.Some? && t.toMachine.value in positions)
    ensures TokenPosition(t, positions, clock) == ScenePoint(CentreX, CentreY)
  {
  }

  /** Scaling a non-negative distance by a fraction keeps it between 0 and itself. */
  lemma MulBounds(d: real, p: real)
    requires 0.0 <= p <= 1.0
    requires 0.0 <= d
    ensures 0.0 <= d * p
    ensures d * p <= d
  {
    assert d - d * p == d * (1.0 - p);
    assert 0.0 <= d * (1.0 - p);
  }

  lemma LerpUp(a: real, b: real, p: real)
    requires 0.0 <= p <= 1.0
    requires a <= b
    ensures a <= Lerp(a, b, p) <= b
  {
    var d := b - a;
    MulBounds(d, p);
    assert Lerp(a, b, p) == a + d * p;
  }

  /** A point a fraction of the way from `a` to `b` lies between them, at `a` for 0 and at `b` for 1. */
  lemma LerpBetween(a: real, b: real, p: real)
    requires 0.0 <= p <= 1.0
    ensures a <= b ==> a <= Lerp(a, b, p) <= b
    ensures b <= a ==> b <= Lerp(a, b, p) <= a
    ensures p == 0.0 ==> Lerp(a, b, p) == a
    ensures p == 1.0 ==> Lerp(a, b, p) == b
  {
    var q := (b - a) * p;
    assert Lerp(a, b, p) == a + q;
    if a <= b {
      LerpUp(a, b, p);
    } else {
      var r := (a - b) * p;
      MulBounds(a - b, p);
      assert q == -r;
      assert 0.0 <= r <= a - b;
    }
  }

  /** A machine box: its fill, its state bar and its queue label. */
  class MachineItem {
    const machine: string
    const position: Point
    var brushColor: string
    var indicatorColor: string
    var queueLabel: int

    /** A new box shows the machine's default (idle, empty) state. */
    constructor (machine: string, position: Point)
      ensures this.machine == machine && this.position == position
      ensures brushColor == Colors[Idle] && indicatorColor == Colors[Idle] && queueLabel == 0
    {
      this.machine := machine;
      this.position := position;
      var initial := DefaultState(machine);
      brushColor := ColorFor(initial.ColorKey());
      queueLabel := initial.queue;
      indicatorColor := ColorFor(initial.ColorKey());
    }

    /** The box is coloured by the state's colour class (idle when unknown) and shows its queue. */
    ghost predicate Shows(state: MachineState)
      reads this
    {
      && brushColor == ColorFor(state.ColorKey())
      && indicatorColor == ColorFor(state.ColorKey())
      && queueLabel == state.queue
    }

    /** `update_state`: colour by the state's colour class, falling back to idle; show the queue. */
    method UpdateState(state: MachineState)
      modifies this
      ensures Shows(state)
      ensures brushColor == ColorFor(state.ColorKey()) && indicatorColor == ColorFor(state.ColorKey())
      ensures queueLabel == state.queue
    {
      var key := state.ColorKey();
      brushColor := if key in Colors then Colors[key] else Colors[Idle];
      queueLabel := state.queue;
      indicatorColor := if key in Colors then Colors[key] else Colors[Idle];
    }
  }

  /** The token drawn for one transport. */
  class TransportToken {
    var position: ScenePoint

    constructor ()
      ensures position == ScenePoint(0.0, 0.0)
    {
      position := ScenePoint(0.0, 0.0);
    }

    method UpdateProgress(t: Transport, positions: map<string, Point>, clock: real)
      modifies this
      ensures position == TokenPosition(t, positions, clock)
    {
      position := TokenPosition(t, positions, clock);
    }
  }

  /** Every box is its machine's, sits at that machine's position and shows the idle state with an empty queue. */
  ghost predicate IdleBoxes(items: map<string, MachineItem>, positions: map<string, Point>)
    reads items.Values
  {
    forall m :: m in items ==>
      && items[m].machine == m
      && m in positions
      && items[m].position == positions[m]
      && items[m].brushColor == Colors[Idle]
      && items[m].indicatorColor == Colors[Idle]
      && items[m].queueLabel == 0
  }

  /** One fresh box per placed machine, each at its own position. */
  method MakeItems(positions: map<string, Point>) returns (items: map<string, MachineItem>)
    ensures items.Keys == positions.Keys
    ensures Injective(items)
    ensures forall m :: m in items ==> fresh(items[m])
    ensures IdleBoxes(items, positions)
  {
    items := map[];
    var pending := positions.Keys;
    while pending != {}
      invariant pending <= positions.Keys
      invariant items.Keys == positions.Keys - pending
      invariant Injective(items)
      invariant forall m :: m in items ==> fresh(items[m])
      invariant IdleBoxes(items, positions)
      decreases pending
    {
      var name :| name in pending;
      var item := new MachineItem(name, positions[name]);
      items := items[name := item];
      pending := pending - {name};
    }
  }

  /** The layout of `machines` and one fresh idle box per machine. */
  method Populate(machines: seq<string>) returns (positions: map<string, Point>, items: map<string, MachineItem>)
    requires StrictlySorted(machines)
    ensures GridLayoutOf(machines, positions)
    ensures items.Keys == positions.Keys
    ensures Injective(items)
    ensures fresh(items.Values)
    ensures IdleBoxes(items, positions)
  {
    StrictlySortedDistinct(machines);
    SortedUniqueOfSorted(machines);
    positions := BuildLayout(machines);
    items := MakeItems(positions);
    forall v | v in items.Values ensures fresh(v) {
      var m :| m in items && items[m] == v;
    }
  }

  /** Dropping a key from an injective map drops exactly that key's value. */
  lemma TokenRemoval<K, V>(m: map<K, V>, key: K)
    requires Injective(m) && key in m
    ensures (m - {key}).Values == m.Values - {m[key]}
    ensures Injective(m - {key})
  {
    forall v | v in m.Values - {m[key]} ensures v in (m - {key}).Values {
      var k :| k in m && m[k] == v;
      assert k != key && (m - {key})[k] == v;
    }
  }

  /** Adding a new key extends the map's values by exactly the new value. */
  lemma NewTokenValues<K, V>(m: map<K, V>, key: K, v: V)
    requires key !in m
    ensures m[key := v].Values == m.Values + {v}
  {
    forall w | w in m.Values ensures w in m[key := v].Values {
      var k :| k in m && m[k] == w;
      assert m[key := v][k] == w;
    }
    assert m[key := v][key] == v;
  }

  class SimulationScene {
    const machinePositions: map<string, Point>
    var machineItems: map<string, MachineItem>
    var transportItems: map<Controller.TransportKey, TransportToken>
    /** The tokens currently added to the scene. */
    var tokensOnScene: set<TransportToken>

    /** Every box of a machine named in `states` shows that machine's state. */
    ghost predicate ShowsStates(states: map<string, MachineState>)
      reads this`machineItems, machineItems.Values
    {
      forall m :: m in machineItems && m in states ==> machineItems[m].Shows(states[m])
    }

    /** Every token of a transport in `transports` sits where that transport is at `clock`. */
    ghost predicate TokensPlaced(transports: map<Controller.TransportKey, Transport>, clock: real)
      reads this`transportItems, transportItems.Values
    {
      forall k :: k in transports && k in transportItems ==>
        transportItems[k].position == TokenPosition(transports[k], machinePositions, clock)
    }

    ghost predicate Valid()
      reads this
    {
      && machineItems.Keys == machinePositions.Keys
      && Injective(machineItems)
      && Injective(transportItems)
      && tokensOnScene == transportItems.Values
    }

    /** One box per machine of the data set, at its grid position. */
    constructor (data: SimulationData)
      requires StrictlySorted(data.machines)
      ensures Valid()
      ensures GridLayoutOf(data.machines, machinePositions)
      ensures fresh(machineItems.Values)
      ensures IdleBoxes(machineItems, machinePositions)
      ensures transportItems == map[] && tokensOnScene == {}
    {
      var positions, items := Populate(data.machines);
      machinePositions := positions;
      machineItems := items;
      transportItems := map[];
      tokensOnScene := {};
      new;
      assert GridLayoutOf(data.machines, machinePositions);
      assert IdleBoxes(machineItems, machinePositions);
    }

    /** The first half of `sync_states`: recolour the boxes of the machines on the scene. */
    method RecolorMachines(states: map<string, MachineState>)
      requires Valid()
      modifies machineItems.Values
      ensures ShowsStates(states)
      ensures forall m :: m in machineItems && m !in states ==> unchanged(machineItems[m])
    {
      var pending := states.Keys;
      while pending != {}
        invariant pending <= states.Keys
        invariant forall m :: m in machineItems && m in states && m !in pending ==> machineItems[m].Shows(states[m])
        invariant forall m :: m in machineItems && (m !in states || m in pending) ==> unchanged(machineItems[m])
        decreases pending
      {
        var name :| name in pending;
        if name in machineItems {
          machineItems[name].UpdateState(states[name]);
        }
        pending := pending - {name};
      }
    }

    /** The token drawn for `key`: the one already on the scene, or a new one added to it. */
    method TokenFor(key: Controller.TransportKey) returns (token: TransportToken)
      requires Valid()
      modifies this`transportItems, this`tokensOnScene
      ensures Valid()
      ensures machineItems == old(machineItems)
      ensures transportItems == old(transportItems)[key := token]
      ensures key in old(transportItems) ==> token == old(transportItems)[key]
      ensures key !in old(transportItems) ==> fresh(token)
    {
      if key in transportItems {
        token := transportItems[key];
        assert transportItems[key := token] == transportItems;
      } else {
        token := new TransportToken();
        NewTokenValues(transportItems, key, token);
        transportItems := transportItems[key := token];
        tokensOnScene := tokensOnScene + {token};
      }
    }

    /** The second half of `sync_states`: one token per active transport, reusing existing ones, placed by its progress. */
    method PlaceTokens(transports: map<Controller.TransportKey, Transport>, clock: real)
      requires Valid()
      modifies this`transportItems, this`tokensOnScene, transportItems.Values
      ensures Valid()
      ensures machineItems == old(machineItems)
      ensures transportItems.Keys == old(transportItems).Keys + transports.Keys
      ensures forall k :: k in old(transportItems) ==> transportItems[k] == old(transportItems)[k]
      ensures forall k :: k in transports && k !in old(transportItems) ==> fresh(transportItems[k])
      ensures TokensPlaced(transports, clock)
    {
      var pending := transports.Keys;
      while pending != {}
        invariant pending <= transports.Keys
        invariant Valid()
        invariant machineItems == old(machineItems)
        invariant transportItems.Keys == old(transportItems).Keys + (transports.Keys - pending)
        invariant forall k :: k in old(transportItems) ==> transportItems[k] == old(transportItems)[k]
        invariant forall k :: k in transportItems && k !in old(transportItems) ==> fresh(transportItems[k])
        invariant forall k :: k in transports && k !in pending ==>
          transportItems[k].position == TokenPosition(transports[k], machinePositions, clock)
        decreases pending
      {
        var key :| key in pending;
        var token := TokenFor(key);
        token.UpdateProgress(transports[key], machinePositions, clock);
        pending := pending - {key};
      }
    }

    /** The tail of `sync_states`: take the tokens of the keys in `stale` off the scene. */
    method RemoveTokens(stale: set<Controller.TransportKey>)
      requires Valid()
      modifies this`transportItems, this`tokensOnScene
      ensures Valid()
      ensures machineItems == old(machineItems)
      ensures transportItems == old(transportItems) - stale
      ensures forall k :: k in old(transportItems) && k in stale ==> old(transportItems)[k] !in tokensOnScene
    {
      var pending := stale;
      while pending != {}
        invariant pending <= stale
        invariant Valid()
        invariant machineItems == old(machineItems)
        invariant transportItems == old(transportItems) - (stale - pending)
        invariant forall k :: k in old(transportItems) && k in stale - pending ==> old(transportItems)[k] !in tokensOnScene
        decreases pending
      {
        var key :| key in pending;
        if key in transportItems {
          var token := transportItems[key];
          TokenRemoval(transportItems, key);
          transportItems := transportItems - {key};
          tokensOnScene := tokensOnScene - {token};
        }
        pending := pending - {key};
      }
    }

    /** The token half of `sync_states`: place a token per active transport, then drop the others. */
    method SyncTokens(transports: map<Controller.TransportKey, Transport>, clock: real)
      requires Valid()
      modifies this`transportItems, this`tokensOnScene, transportItems.Values
      ensures Valid()
      ensures transportItems.Keys == transports.Keys
      ensures forall k :: k in transports && k in old(transportItems) ==> transportItems[k] == old(transportItems)[k]
      ensures forall k :: k in transports && k !in old(transportItems) ==> fresh(transportItems[k])
      ensures TokensPlaced(transports, clock)
      ensures forall k :: k in old(transportItems) && k !in transports ==> old(transportItems)[k] !in tokensOnScene
    {
      var existing := transportItems.Keys;
      PlaceTokens(transports, clock);
      RemoveTokens(existing - transports.Keys);
    }

    /**
     * `sync_states`: recolour the boxes of known machines, keep exactly one
     * token per active transport (reusing the ones already drawn) at its
     * current position, and take the others off the scene.
     */
    method SyncStates(
      states: map<string, MachineState>,
      transports: map<Controller.TransportKey, Transport>,
      clock: real)
      requires Valid()
      modifies this, machineItems.Values, transportItems.Values
      ensures Valid()
      ensures machineItems == old(machineItems)
      ensures ShowsStates(states)
      ensures forall m :: m in machineItems && m !in states ==> unchanged(machineItems[m])
      ensures transportItems.Keys == transports.Keys
      ensures forall k :: k in transports && k in old(transportItems) ==> transportItems[k] == old(transportItems)[k]
      ensures forall k :: k in transports && k !in old(transportItems) ==> fresh(transportItems[k])
      ensures TokensPlaced(transports, clock)
      ensures forall k :: k in old(transportItems) && k !in transports ==> old(transportItems)[k] !in tokensOnScene
    {
      RecolorMachines(states);
      SyncTokens(transports, clock);
    }
  }
}
