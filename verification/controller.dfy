/**
 * The playback controller (desktop_app/controller.py): a cursor into the
 * time-sorted event list, the current time, a state per machine and a
 * table of transports keyed by (product, entity).
 *
 * The class `SimulationController` changes its fields in place as the
 * Python player does; each of its methods is proved against a function on
 * `Snapshot` values, and the properties of playback are lemmas about those
 * functions.
 */
module Controller {
  import opened Wrappers
  import opened Sorting
  import opened Model

  type TransportKey = (string, string)

  const QueueIn := "QUEUE_IN"
  const QueueOut := "QUEUE_OUT"
  const ProcStart := "PROC_START"
  const ProcEnd := "PROC_END"
  const ProcComplete := "PROC_COMPLETE"
  const BreakdownStart := "BREAKDOWN_START"
  const BreakdownEnd := "BREAKDOWN_END"
  const BreakdownClear := "BREAKDOWN_CLEAR"
  const TransportPrefix := "TRANSPORT_"
  const TransportStart := "TRANSPORT_START"
  const TransportEnd := "TRANSPORT_END"
  const TransportCancel := "TRANSPORT_CANCEL"

  /** Minutes a finished transport stays visible after its end time. */
  const Grace: real := 0.1

  /** The tables that events change: machine states and transports. */
  datatype Store = Store(
    machineStates: map<string, MachineState>,
    transports: map<TransportKey, Transport>)

  /** Everything the controller holds besides its data set. */
  datatype Snapshot = Snapshot(
    currentTime: real,
    pointer: nat,
    store: Store,
    active: map<TransportKey, Transport>)

  function Max(a: int, b: int): int
  {
    if a < b then b else a
  }

  predicate StartsWith(s: string, prefix: string)
  {
    |prefix| <= |s| && s[..|prefix|] == prefix
  }

  /** Of the kinds `_apply_event` names, exactly the three transport kinds carry the `TRANSPORT_` prefix. */
  lemma KindsByPrefix()
    ensures StartsWith(TransportStart, TransportPrefix)
    ensures StartsWith(TransportEnd, TransportPrefix)
    ensures StartsWith(TransportCancel, TransportPrefix)
    ensures !StartsWith(QueueIn, TransportPrefix) && !StartsWith(QueueOut, TransportPrefix)
    ensures !StartsWith(ProcStart, TransportPrefix) && !StartsWith(ProcEnd, TransportPrefix)
    ensures !StartsWith(ProcComplete, TransportPrefix)
    ensures !StartsWith(BreakdownStart, TransportPrefix) && !StartsWith(BreakdownEnd, TransportPrefix)
    ensures !StartsWith(BreakdownClear, TransportPrefix)
  {
    assert QueueIn[0] != TransportPrefix[0] && QueueOut[0] != TransportPrefix[0];
    assert ProcStart[0] != TransportPrefix[0] && ProcEnd[0] != TransportPrefix[0];
    assert ProcComplete[0] != TransportPrefix[0];
    assert BreakdownStart[0] != TransportPrefix[0] && BreakdownEnd[0] != TransportPrefix[0];
    assert BreakdownClear[0] != TransportPrefix[0];
  }

  // ---------------------------------------------------------------------
  // One event

  /** The queue length after the optional last-write value and before the ±1 of the kind. */
  function ObservedQueue(s: MachineState, e: MachineEvent): int
  {
    if e.queueLength.Some? then Max(0, e.queueLength.value) else s.queue
  }

  /** `_apply_event` on the state of the event's machine. */
  function StepMachine(s: MachineState, e: MachineEvent): (r: MachineState)
    ensures r.machine == s.machine
    ensures r.lastEvent == Some(e.event)
    ensures e.event == QueueIn ==> r.queue == Max(0, ObservedQueue(s, e) + 1)
    ensures e.event == QueueOut ==> r.queue == Max(0, ObservedQueue(s, e) - 1)
    ensures e.event != QueueIn && e.event != QueueOut ==> r.queue == ObservedQueue(s, e)
    ensures 0 <= s.queue ==> 0 <= r.queue
    ensures e.event == ProcStart ==> r.status == Processing
    ensures e.event in {ProcEnd, ProcComplete, BreakdownEnd, BreakdownClear} ==> r.status == Idle
    ensures e.event == BreakdownStart ==> r.status == Breakdown
    ensures e.event !in {ProcStart, ProcEnd, ProcComplete, BreakdownStart, BreakdownEnd, BreakdownClear} ==>
      r.status == s.status
  {
    var q := ObservedQueue(s, e);
    var queue :=
      if e.event == QueueIn then Max(0, q + 1)
      else if e.event == QueueOut then Max(0, q - 1)
      else q;
    var status :=
      if e.event == ProcStart then Processing
      else if e.event in {ProcEnd, ProcComplete} then Idle
      else if e.event == BreakdownStart then Breakdown
      else if e.event in {BreakdownEnd, BreakdownClear} then Idle
      else s.status;
    MachineState(s.machine, queue, status, Some(e.event))
  }

  /** `(product_id or entity_id, entity_id or product_id)`. */
  function KeyOf(e: MachineEvent): (k: TransportKey)
    ensures e.productId != "" ==> k.0 == e.productId
    ensures e.entityId != "" ==> k.1 == e.entityId
    ensures e.productId == "" ==> k.0 == e.entityId
    ensures e.entityId == "" ==> k.1 == e.productId
    ensures k.0 == "" <==> e.productId == "" && e.entityId == ""
    ensures k.1 == "" <==> k.0 == ""
  {
    (StrOr(e.productId, e.entityId), StrOr(e.entityId, e.productId))
  }

  /** `_handle_transport` on the transport table. */
  function AfterTransportEvent(ts: map<TransportKey, Transport>, e: MachineEvent): (r: map<TransportKey, Transport>)
    ensures forall k :: k != KeyOf(e) ==> (k in r <==> k in ts) && (k in r ==> r[k] == ts[k])
    ensures e.event == TransportStart ==>
      && KeyOf(e) in r
      && r[KeyOf(e)] == Transport(e.productId, e.entityId, OrElse(e.fromMachine, Some(e.machine)),
                                  e.toMachine, e.timeMin, None)
    ensures e.event == TransportEnd && KeyOf(e) in ts ==>
      && KeyOf(e) in r
      && r[KeyOf(e)].endTime == Some(e.timeMin)
      && r[KeyOf(e)].toMachine ==
           (if Present(ts[KeyOf(e)].toMachine) then ts[KeyOf(e)].toMachine
            else OrElse(Some(e.machine), e.toMachine))
      && r[KeyOf(e)].(endTime := None, toMachine := None) == ts[KeyOf(e)].(endTime := None, toMachine := None)
    ensures e.event == TransportCancel ==> KeyOf(e) !in r
    ensures e.event != TransportStart && KeyOf(e) !in ts ==> r == ts
    ensures e.event !in {TransportStart, TransportEnd, TransportCancel} ==> r == ts
  {
    var key := KeyOf(e);
    if e.event == TransportStart then
      ts[key := Transport(e.productId, e.entityId, OrElse(e.fromMachine, Some(e.machine)), e.toMachine, e.timeMin, None)]
    else if e.event == TransportEnd && key in ts then
      var t := ts[key];
      var to := if Present(t.toMachine) then t.toMachine else OrElse(Some(e.machine), e.toMachine);
      ts[key := t.(toMachine := to, endTime := Some(e.timeMin))]
    else if e.event == TransportCancel && key in ts then
      ts - {key}
    else ts
  }

  /** The state stored for a machine, or the default one `_apply_event` would create. */
  function StateOf(states: map<string, MachineState>, name: string): MachineState
  {
    if name in states then states[name] else DefaultState(name)
  }

  /** `_apply_event`: update (or create) the event's machine, then the transports for TRANSPORT_ kinds. */
  function AfterEvent(st: Store, e: MachineEvent): (r: Store)
    ensures r.machineStates.Keys == st.machineStates.Keys + {e.machine}
    ensures r.machineStates[e.machine] == StepMachine(StateOf(st.machineStates, e.machine), e)
    ensures forall m :: m in st.machineStates && m != e.machine ==> r.machineStates[m] == st.machineStates[m]
    ensures r.transports == if StartsWith(e.event, TransportPrefix) then AfterTransportEvent(st.transports, e) else st.transports
  {
    Store(
      st.machineStates[e.machine := StepMachine(StateOf(st.machineStates, e.machine), e)],
      if StartsWith(e.event, TransportPrefix) then AfterTransportEvent(st.transports, e) else st.transports)
  }

  /** Applies `evs` one after another, first to last. */
  function Replay(st: Store, evs: seq<MachineEvent>): Store
    decreases |evs|
  {
    if evs == [] then st else Replay(AfterEvent(st, evs[0]), evs[1..])
  }

  /** Replaying two runs of events one after the other is replaying their concatenation. */
  lemma {:induction false} ReplayAppend(st: Store, a: seq<MachineEvent>, b: seq<MachineEvent>)
    ensures Replay(st, a + b) == Replay(Replay(st, a), b)
    decreases |a|
  {
    if a != [] {
      assert (a + b)[0] == a[0] && (a + b)[1..] == a[1..] + b;
      ReplayAppend(AfterEvent(st, a[0]), a[1..], b);
    } else {
      assert a + b == b;
    }
  }

  ghost predicate QueuesNonNegative(states: map<string, MachineState>)
  {
    forall m :: m in states ==> 0 <= states[m].queue
  }

  /** No replay makes a queue negative, and no replay forgets a machine. */
  lemma {:induction false} ReplayKeepsInvariants(st: Store, evs: seq<MachineEvent>)
    requires QueuesNonNegative(st.machineStates)
    ensures QueuesNonNegative(Replay(st, evs).machineStates)
    ensures st.machineStates.Keys <= Replay(st, evs).machineStates.Keys
    decreases |evs|
  {
    if evs != [] {
      var next := AfterEvent(st, evs[0]);
      assert 0 <= StateOf(st.machineStates, evs[0].machine).queue;
      ReplayKeepsInvariants(next, evs[1..]);
    }
  }

  // ---------------------------------------------------------------------
  // Pruning finished transports

  predicate Expired(t: Transport, clock: real)
  {
    t.endTime.Some? && clock > t.endTime.value + Grace
  }

  /** The transports `_refresh_active_transports` keeps. */
  function Survivors(ts: map<TransportKey, Transport>, clock: real): (r: map<TransportKey, Transport>)
    ensures forall k :: k in r <==> k in ts && !Expired(ts[k], clock)
    ensures forall k :: k in ts && ts[k].endTime.None? ==> k in r
    ensures forall k :: k in r ==> r[k] == ts[k]
  {
    map k | k in ts && !Expired(ts[k], clock) :: ts[k]
  }

  /** The copy shown for a transport: a missing destination defaults to the origin. */
  function WithDestination(t: Transport): (c: Transport)
    ensures t.toMachine.None? ==> c.toMachine == t.fromMachine
    ensures c.toMachine.None? ==> t.toMachine.None? && t.fromMachine.None?
    ensures t.toMachine.Some? ==> c == t
    ensures c.(toMachine := t.toMachine) == t
  {
    if t.toMachine.None? then t.(toMachine := t.fromMachine) else t
  }

  /** The `active_transports` view built from the table. */
  function ActiveView(ts: map<TransportKey, Transport>, clock: real): (r: map<TransportKey, Transport>)
    ensures r.Keys == Survivors(ts, clock).Keys
    ensures forall k :: k in r ==> r[k] == WithDestination(ts[k])
  {
    map k | k in ts && !Expired(ts[k], clock) :: WithDestination(ts[k])
  }

  lemma SurvivorsIdempotent(ts: map<TransportKey, Transport>, clock: real)
    ensures Survivors(Survivors(ts, clock), clock) == Survivors(ts, clock)
    ensures ActiveView(Survivors(ts, clock), clock) == ActiveView(ts, clock)
  {
  }

  // ---------------------------------------------------------------------
  // Playback

  function Clamp(t: real, lo: real, hi: real): (r: real)
    ensures lo <= hi ==> lo <= r <= hi
    ensures lo <= t <= hi ==> r == t
    ensures lo <= hi && t < lo ==> r == lo
    ensures lo <= hi && hi < t ==> r == hi
  {
    var low := if t < lo then lo else t;
    if hi < low then hi else low
  }

  /** The controller right after `reset()`. */
  function Initial(data: SimulationData): Snapshot
  {
    Snapshot(data.startTime, 0, Store(map m | m in data.machines :: DefaultState(m), map[]), map[])
  }

  /** The `while` loop of `advance_to`: apply events from the cursor while they are due. */
  function Drain(data: SimulationData, s: Snapshot, target: real): (d: Snapshot)
    requires s.pointer <= |data.events|
    ensures s.pointer <= d.pointer <= |data.events|
    ensures d.currentTime == s.currentTime && d.active == s.active
    ensures d.store == Replay(s.store, data.events[s.pointer..d.pointer])
    ensures forall i :: s.pointer <= i < d.pointer ==> data.events[i].timeMin <= target
    ensures d.pointer < |data.events| ==> target < data.events[d.pointer].timeMin
    decreases |data.events| - s.pointer
  {
    if s.pointer < |data.events| && data.events[s.pointer].timeMin <= target then
      var next := s.(store := AfterEvent(s.store, data.events[s.pointer]), pointer := s.pointer + 1);
      var d := Drain(data, next, target);
      ghost var consumed := data.events[s.pointer..d.pointer];
      assert consumed[0] == data.events[s.pointer] && consumed[1..] == data.events[s.pointer + 1..d.pointer];
      assert Replay(s.store, consumed) == Replay(next.store, consumed[1..]);
      d
    else
      assert data.events[s.pointer..s.pointer] == [];
      s
  }

  /** One round of the `advance_to` loop: a due event under the cursor is applied and the cursor moves on. */
  lemma DrainStep(data: SimulationData, s: Snapshot, target: real)
    requires s.pointer < |data.events| && data.events[s.pointer].timeMin <= target
    ensures Drain(data, s, target)
      == Drain(data, s.(store := AfterEvent(s.store, data.events[s.pointer]), pointer := s.pointer + 1), target)
  {
  }

  /** The `advance_to` loop stops at the end of the list or at an event that is not due. */
  lemma DrainStop(data: SimulationData, s: Snapshot, target: real)
    requires s.pointer <= |data.events|
    requires !(s.pointer < |data.events| && data.events[s.pointer].timeMin <= target)
    ensures Drain(data, s, target) == s
  {
  }

  /** The pruning step that closes `advance_to`. */
  function Refresh(s: Snapshot): (r: Snapshot)
    ensures r.currentTime == s.currentTime && r.pointer == s.pointer
    ensures r.store.machineStates == s.store.machineStates
    ensures r.store.transports == Survivors(s.store.transports, s.currentTime)
    ensures r.active == ActiveView(s.store.transports, s.currentTime)
  {
    s.(store := s.store.(transports := Survivors(s.store.transports, s.currentTime)),
       active := ActiveView(s.store.transports, s.currentTime))
  }

  /** `advance_to(target)`. */
  function AfterAdvanceTo(data: SimulationData, s: Snapshot, target: real): (r: Snapshot)
    requires s.pointer <= |data.events|
    ensures r.currentTime == Clamp(target, data.startTime, data.endTime)
    ensures s.pointer <= r.pointer <= |data.events|
  {
    var t := Clamp(target, data.startTime, data.endTime);
    Refresh(Drain(data, s, t).(currentTime := t))
  }

  /** `seek(target)`: reset first only when going backwards. */
  function AfterSeek(data: SimulationData, s: Snapshot, target: real): Snapshot
    requires s.pointer <= |data.events|
  {
    if target < s.currentTime then AfterAdvanceTo(data, Initial(data), target) else AfterAdvanceTo(data, s, target)
  }

  /** Every transport left in the table is one the last refresh kept, and the view mirrors the table. */
  ghost predicate Settled(s: Snapshot)
  {
    && (forall k :: k in s.store.transports ==> !Expired(s.store.transports[k], s.currentTime))
    && s.active == ActiveView(s.store.transports, s.currentTime)
  }

  /** What holds of the controller between public calls. */
  ghost predicate WellFormed(data: SimulationData, s: Snapshot)
  {
    && ValidData(data)
    && s.pointer <= |data.events|
    && data.startTime <= s.currentTime <= data.endTime
    && QueuesNonNegative(s.store.machineStates)
    && Elems(data.machines) <= s.store.machineStates.Keys
    && Settled(s)
  }

  /** Every applied event is due at the current time. */
  ghost predicate InSync(data: SimulationData, s: Snapshot)
    requires s.pointer <= |data.events|
  {
    forall i :: 0 <= i < s.pointer ==> data.events[i].timeMin <= s.currentTime
  }

  /** The event under the cursor, if any, is not yet due. */
  ghost predicate Ahead(data: SimulationData, s: Snapshot)
    requires s.pointer <= |data.events|
  {
    s.pointer < |data.events| ==> s.currentTime < data.events[s.pointer].timeMin
  }

  lemma InitialWellFormed(data: SimulationData)
    requires ValidData(data)
    ensures WellFormed(data, Initial(data))
    ensures Initial(data).pointer == 0 && Initial(data).store.transports == map[]
  {
  }

  /** `advance_to` keeps the controller well formed and moves the cursor exactly past the due events. */
  lemma AdvanceToProperties(data: SimulationData, s: Snapshot, target: real)
    requires WellFormed(data, s)
    ensures WellFormed(data, AfterAdvanceTo(data, s, target))
    ensures var r := AfterAdvanceTo(data, s, target);
      && (forall i :: s.pointer <= i < r.pointer ==> data.events[i].timeMin <= r.currentTime)
      && Ahead(data, r)
      && r.store.machineStates == Replay(s.store, data.events[s.pointer..r.pointer]).machineStates
      && r.store.transports == Survivors(Replay(s.store, data.events[s.pointer..r.pointer]).transports, r.currentTime)
      && (InSync(data, s) && s.currentTime <= r.currentTime ==> InSync(data, r))
  {
    var t := Clamp(target, data.startTime, data.endTime);
    var d := Drain(data, s, t);
    ReplayKeepsInvariants(s.store, data.events[s.pointer..d.pointer]);
    SurvivorsIdempotent(d.store.transports, t);
  }

  /** After `seek(t)` from a well-formed state the cursor sits exactly after the events due at the clamped time. */
  lemma SeekInSync(data: SimulationData, s: Snapshot, target: real)
    requires WellFormed(data, s) && InSync(data, s)
    ensures var r := AfterSeek(data, s, target);
      && WellFormed(data, r)
      && InSync(data, r)
      && Ahead(data, r)
      && r.currentTime == Clamp(target, data.startTime, data.endTime)
  {
    InitialWellFormed(data);
    if target < s.currentTime {
      AdvanceToProperties(data, Initial(data), target);
    } else {
      AdvanceToProperties(data, s, target);
    }
  }

  /** A seek to a time before the current one gives the same state as a fresh replay to that time. */
  lemma SeekBackIsFreshReplay(data: SimulationData, s: Snapshot, target: real)
    requires WellFormed(data, s)
    requires target < s.currentTime
    ensures var r := AfterSeek(data, s, target);
      && r.pointer == Drain(data, Initial(data), r.currentTime).pointer
      && r.store.machineStates == Replay(Initial(data).store, data.events[..r.pointer]).machineStates
      && r.store.transports == Survivors(Replay(Initial(data).store, data.events[..r.pointer]).transports, r.currentTime)
  {
    InitialWellFormed(data);
    AdvanceToProperties(data, Initial(data), target);
  }

  /** Calling `seek(t)` twice in a row leaves the state of the first call. */
  lemma {:induction false} SeekIdempotent(data: SimulationData, s: Snapshot, target: real)
    requires WellFormed(data, s)
    ensures AfterSeek(data, s, target).pointer <= |data.events|
    ensures AfterSeek(data, AfterSeek(data, s, target), target) == AfterSeek(data, s, target)
  {
    var s1 := AfterSeek(data, s, target);
    var t := Clamp(target, data.startTime, data.endTime);
    if target < s1.currentTime {
      // only a target before the start is clamped upwards, and then both calls reset
      assert target < data.startTime;
    } else {
      var d := Drain(data, s1, t);
      assert d == s1;
      SurvivorsIdempotent(Drain(data, if target < s.currentTime then Initial(data) else s, t).store.transports, t);
    }
  }

  // A three-event log: a transport starts at 0, ends at 1, and ends again at 5.
  const ExampleStart := MachineEvent(0.0, "", "m1", TransportStart, "p", "e", None, Some("m2"), None)
  const ExampleEnd := MachineEvent(1.0, "", "m2", TransportEnd, "p", "e", None, None, None)
  const ExampleLateEnd := MachineEvent(5.0, "", "m2", TransportEnd, "p", "e", None, None, None)

  function ExampleData(): SimulationData
  {
    SimulationData([ExampleStart, ExampleEnd, ExampleLateEnd], 0.0, 5.0, ["m1", "m2"],
                   map["m1" := DefaultState("m1"), "m2" := DefaultState("m2")])
  }

  lemma ExampleValid()
    ensures ValidData(ExampleData())
  {
    assert StrLess("m1", "m2") by {
      assert "m1"[1..] == "1" && "m2"[1..] == "2";
    }
  }

  lemma ExampleTables()
    ensures StartsWith(TransportStart, TransportPrefix) && StartsWith(TransportEnd, TransportPrefix)
    ensures KeyOf(ExampleStart) == ("p", "e") && KeyOf(ExampleEnd) == ("p", "e") && KeyOf(ExampleLateEnd) == ("p", "e")
    ensures AfterEvent(Initial(ExampleData()).store, ExampleStart).transports
      == map[("p", "e") := Transport("p", "e", Some("m1"), Some("m2"), 0.0, None)]
  {
  }

  lemma ExampleReplayToTwo()
    ensures Replay(Initial(ExampleData()).store, [ExampleStart, ExampleEnd]).transports
      == map[("p", "e") := Transport("p", "e", Some("m1"), Some("m2"), 0.0, Some(1.0))]
  {
    ExampleTables();
    var st := AfterEvent(Initial(ExampleData()).store, ExampleStart);
    assert [ExampleStart, ExampleEnd][1..] == [ExampleEnd];
    assert [ExampleEnd][1..] == [];
    assert Replay(st, [ExampleEnd]) == AfterEvent(st, ExampleEnd);
  }

  /** The late END finds the finished record and moves its end time to 5.0. */
  lemma ExampleLateEndKeeps(st: Store)
    requires st.transports == map[("p", "e") := Transport("p", "e", Some("m1"), Some("m2"), 0.0, Some(1.0))]
    ensures AfterEvent(st, ExampleLateEnd).transports
      == map[("p", "e") := Transport("p", "e", Some("m1"), Some("m2"), 0.0, Some(5.0))]
  {
    ExampleTables();
  }

  lemma ExampleReplayToFive()
    ensures Replay(Initial(ExampleData()).store, [ExampleStart, ExampleEnd, ExampleLateEnd]).transports
      == map[("p", "e") := Transport("p", "e", Some("m1"), Some("m2"), 0.0, Some(5.0))]
  {
    var init := Initial(ExampleData()).store;
    assert [ExampleStart, ExampleEnd, ExampleLateEnd] == [ExampleStart, ExampleEnd] + [ExampleLateEnd];
    ReplayAppend(init, [ExampleStart, ExampleEnd], [ExampleLateEnd]);
    ExampleReplayToTwo();
    var st2 := Replay(init, [ExampleStart, ExampleEnd]);
    assert [ExampleLateEnd][1..] == [];
    assert Replay(st2, [ExampleLateEnd]) == AfterEvent(st2, ExampleLateEnd);
    ExampleLateEndKeeps(st2);
  }

  /** Advancing to 2.0 applies the first START and END and then prunes the finished transport. */
  lemma ExampleFirstStep()
    ensures AfterAdvanceTo(ExampleData(), Initial(ExampleData()), 2.0).pointer == 2
    ensures AfterAdvanceTo(ExampleData(), Initial(ExampleData()), 2.0).store.transports == map[]
  {
    var data := ExampleData();
    var d1 := Drain(data, Initial(data), 2.0);
    assert data.events[0].timeMin == 0.0 && data.events[1].timeMin == 1.0 && data.events[2].timeMin == 5.0;
    assert d1.pointer != 3;
    assert d1.pointer != 0 && d1.pointer != 1;
    assert data.events[0..2] == [ExampleStart, ExampleEnd];
    ExampleReplayToTwo();
  }

  /** From there, the late END at 5.0 finds no record and changes nothing. */
  lemma ExampleSecondStep(s: Snapshot)
    requires s.pointer == 2 && s.store.transports == map[]
    ensures AfterAdvanceTo(ExampleData(), s, 5.0).store.transports == map[]
  {
    var data := ExampleData();
    ExampleTables();
    var d2 := Drain(data, s, 5.0);
    assert d2.pointer == 3;
    assert data.events[2..3] == [ExampleLateEnd];
    assert [ExampleLateEnd][1..] == [];
    assert Replay(s.store, [ExampleLateEnd]) == AfterEvent(s.store, ExampleLateEnd);
  }

  /** Two steps, to 2.0 and then to 5.0, leave no transport. */
  lemma ExampleStepped()
    ensures AfterAdvanceTo(ExampleData(), AfterAdvanceTo(ExampleData(), Initial(ExampleData()), 2.0), 5.0).store.transports == map[]
  {
    ExampleFirstStep();
    ExampleSecondStep(AfterAdvanceTo(ExampleData(), Initial(ExampleData()), 2.0));
  }

  /** Draining the example log up to 5.0 applies all three events. */
  lemma ExampleDrainToFive()
    ensures Drain(ExampleData(), Initial(ExampleData()), 5.0).store.transports
      == map[("p", "e") := Transport("p", "e", Some("m1"), Some("m2"), 0.0, Some(5.0))]
  {
    var data := ExampleData();
    var d := Drain(data, Initial(data), 5.0);
    assert data.events[0].timeMin == 0.0 && data.events[1].timeMin == 1.0 && data.events[2].timeMin == 5.0;
    assert d.pointer != 0 && d.pointer != 1 && d.pointer != 2;
    assert data.events[0..3] == [ExampleStart, ExampleEnd, ExampleLateEnd];
    ExampleReplayToFive();
  }

  /** One seek to 5.0: the late END moves the end time to 5.0 and the transport stays. */
  lemma ExampleSeek()
    ensures ("p", "e") in AfterSeek(ExampleData(), Initial(ExampleData()), 5.0).store.transports
  {
    var data := ExampleData();
    ExampleDrainToFive();
    assert Clamp(5.0, data.startTime, data.endTime) == 5.0;
    assert AfterSeek(data, Initial(data), 5.0).store.transports
      == Survivors(Drain(data, Initial(data), 5.0).store.transports, 5.0);
  }

  /**
   * Playing in steps need not end where one seek ends: a transport pruned
   * at an intermediate time ignores a later TRANSPORT_END for its key,
   * while a single replay sees that END and keeps the transport.
   */
  lemma SteppedPlayCanDifferFromSeek()
    ensures exists data: SimulationData, t1: real, t2: real ::
      && ValidData(data)
      && t1 <= t2
      && AfterAdvanceTo(data, AfterAdvanceTo(data, Initial(data), t1), t2) != AfterSeek(data, Initial(data), t2)
  {
    ExampleValid();
    ExampleStepped();
    ExampleSeek();
    var data := ExampleData();
    assert AfterAdvanceTo(data, AfterAdvanceTo(data, Initial(data), 2.0), 5.0) != AfterSeek(data, Initial(data), 5.0);
  }

  // ---------------------------------------------------------------------
  // The controller object

  class SimulationController {
    const data: SimulationData
    var currentTime: real
    var pointer: nat
    var machineStates: map<string, MachineState>
    var transports: map<TransportKey, Transport>
    var activeTransports: map<TransportKey, Transport>

    function Snap(): Snapshot
      reads this
    {
      Snapshot(currentTime, pointer, Store(machineStates, transports), activeTransports)
    }

    ghost predicate Valid()
      reads this
    {
      WellFormed(data, Snap())
    }

    constructor (data: SimulationData)
      requires ValidData(data)
      ensures this.data == data
      ensures Valid() && InSync(data, Snap())
      ensures Snap() == Initial(data)
    {
      this.data := data;
      currentTime := data.startTime;
      pointer := 0;
      machineStates := map m | m in data.machines :: DefaultState(m);
      transports := map[];
      activeTransports := map[];
      InitialWellFormed(data);
    }

    /** Back to the start: default machine states, no transports. */
    method Reset()
      requires Valid()
      modifies this
      ensures Valid() && InSync(data, Snap())
      ensures Snap() == Initial(data)
    {
      currentTime := data.startTime;
      pointer := 0;
      machineStates := map m | m in data.machines :: DefaultState(m);
      transports := map[];
      activeTransports := map[];
      InitialWellFormed(data);
    }

    /** Jump to `target`, replaying from the start when it lies in the past. */
    method Seek(target: real)
      requires Valid()
      modifies this
      ensures Valid()
      ensures Snap() == AfterSeek(data, old(Snap()), target)
      ensures currentTime == Clamp(target, data.startTime, data.endTime)
      ensures Ahead(data, Snap())
      ensures old(InSync(data, Snap())) ==> InSync(data, Snap())
    {
      ghost var s0 := Snap();
      if target < currentTime {
        Reset();
      }
      AdvanceTo(target);
      if InSync(data, s0) {
        SeekInSync(data, s0, target);
      }
    }

    /** Move the clock by `delta` minutes. */
    method Advance(delta: real)
      requires Valid()
      modifies this
      ensures Valid()
      ensures Snap() == AfterAdvanceTo(data, old(Snap()), old(currentTime) + delta)
    {
      AdvanceTo(currentTime + delta);
    }

    /** Apply every due event in list order, then set the clock and prune transports. */
    method AdvanceTo(target: real)
      requires Valid()
      modifies this
      ensures Valid()
      ensures Snap() == AfterAdvanceTo(data, old(Snap()), target)
      ensures old(pointer) <= pointer <= |data.events|
      ensures currentTime == Clamp(target, data.startTime, data.endTime)
      ensures forall i :: old(pointer) <= i < pointer ==> data.events[i].timeMin <= currentTime
      ensures Ahead(data, Snap())
      ensures old(InSync(data, Snap())) && old(currentTime) <= currentTime ==> InSync(data, Snap())
    {
      ghost var s0 := Snap();
      var t := Clamp(target, data.startTime, data.endTime);
      ApplyDue(t);
      ghost var drained := Snap();
      currentTime := t;
      RefreshActiveTransports();
      assert Snap() == Refresh(drained.(currentTime := t));
      AdvanceToProperties(data, s0, target);
    }

    /** The loop of `advance_to`: apply, in list order, every event not later than `t`. */
    method ApplyDue(t: real)
      requires pointer <= |data.events|
      modifies this
      ensures Snap() == Drain(data, old(Snap()), t)
    {
      ghost var s0 := Snap();
      while pointer < |data.events| && data.events[pointer].timeMin <= t
        invariant pointer <= |data.events|
        invariant Drain(data, Snap(), t) == Drain(data, s0, t)
        decreases |data.events| - pointer
      {
        ghost var before := Snap();
        DrainStep(data, before, t);
        ApplyEvent(data.events[pointer]);
        pointer := pointer + 1;
        assert Snap() == before.(store := AfterEvent(before.store, data.events[before.pointer]), pointer := before.pointer + 1);
      }
      DrainStop(data, Snap(), t);
    }

    /** Record the event on its machine (creating a state if needed) and on the transport table. */
    method ApplyEvent(e: MachineEvent)
      modifies this
      ensures Store(machineStates, transports) == AfterEvent(old(Store(machineStates, transports)), e)
      ensures currentTime == old(currentTime) && pointer == old(pointer)
      ensures activeTransports == old(activeTransports)
    {
      var state: MachineState;
      if e.machine in machineStates {
        state := machineStates[e.machine];
      } else {
        state := DefaultState(e.machine);
        machineStates := machineStates[e.machine := state];
      }
      ghost var created := machineStates;
      ghost var stepped := StepMachine(state, e);
      ghost var moved := AfterEvent(old(Store(machineStates, transports)), e);
      assert moved.machineStates == old(machineStates)[e.machine := stepped];
      KindsByPrefix();
      state := state.(lastEvent := Some(e.event));
      if e.queueLength.Some? {
        state := state.(queue := Max(0, e.queueLength.value));
      }
      if e.event == QueueIn {
        state := state.(queue := Max(0, state.queue + 1));
      } else if e.event == QueueOut {
        state := state.(queue := Max(0, state.queue - 1));
      } else if e.event == ProcStart {
        state := state.(status := Processing);
      } else if e.event in {ProcEnd, ProcComplete} {
        state := state.(status := Idle);
      } else if e.event == BreakdownStart {
        state := state.(status := Breakdown);
      } else if e.event in {BreakdownEnd, BreakdownClear} {
        state := state.(status := Idle);
      } else if StartsWith(e.event, TransportPrefix) {
        HandleTransport(e);
      }
      assert state == stepped;
      assert transports == moved.transports;
      assert created[e.machine := state] == moved.machineStates;
      machineStates := machineStates[e.machine := state];
    }

    /** START overwrites the record, END completes an existing one, CANCEL drops it. */
    method HandleTransport(e: MachineEvent)
      modifies this
      ensures transports == AfterTransportEvent(old(transports), e)
      ensures machineStates == old(machineStates) && activeTransports == old(activeTransports)
      ensures currentTime == old(currentTime) && pointer == old(pointer)
    {
      var key := KeyOf(e);
      var found := if key in transports then Some(transports[key]) else None;
      if e.event == TransportStart {
        var transport := Transport(e.productId, e.entityId, OrElse(e.fromMachine, Some(e.machine)),
                                   e.toMachine, e.timeMin, None);
        transports := transports[key := transport];
      } else if e.event == TransportEnd && found.Some? {
        var transport := found.value;
        if !Present(transport.toMachine) {
          transport := transport.(toMachine := OrElse(Some(e.machine), e.toMachine));
        }
        transport := transport.(endTime := Some(e.timeMin));
        transports := transports[key := transport];
      } else if e.event == TransportCancel && found.Some? {
        transports := transports - {key};
      }
    }

    /** Drop transports finished more than `Grace` minutes ago and rebuild the view of the rest. */
    method RefreshActiveTransports()
      modifies this
      ensures transports == Survivors(old(transports), currentTime)
      ensures activeTransports == ActiveView(old(transports), currentTime)
      ensures machineStates == old(machineStates)
      ensures currentTime == old(currentTime) && pointer == old(pointer)
    {
      var toRemove := CollectActive();
      DropKeys(toRemove);
      assert transports == Survivors(old(transports), currentTime);
    }

    /** The first loop of `_refresh_active_transports`: copy the kept transports, list the expired keys. */
    method CollectActive() returns (toRemove: seq<TransportKey>)
      modifies this`activeTransports
      ensures activeTransports == ActiveView(transports, currentTime)
      ensures forall k :: k in toRemove <==> k in transports && Expired(transports[k], currentTime)
    {
      activeTransports := map[];
      toRemove := [];
      var pending := transports.Keys;
      while pending != {}
        invariant pending <= transports.Keys
        invariant forall k :: k in activeTransports <==>
          k in transports && k !in pending && !Expired(transports[k], currentTime)
        invariant forall k :: k in activeTransports ==> activeTransports[k] == WithDestination(transports[k])
        invariant forall k :: k in toRemove <==>
          k in transports && k !in pending && Expired(transports[k], currentTime)
        decreases pending
      {
        var key :| key in pending;
        var transport := transports[key];
        if transport.endTime.Some? && currentTime > transport.endTime.value + Grace {
          toRemove := toRemove + [key];
        } else {
          var clone := transport;
          if clone.toMachine.None? {
            clone := clone.(toMachine := transport.fromMachine);
          }
          activeTransports := activeTransports[key := clone];
        }
        pending := pending - {key};
      }
    }

    /** The second loop of `_refresh_active_transports`: pop every listed key. */
    method DropKeys(keys: seq<TransportKey>)
      modifies this`transports
      ensures transports == old(transports) - Elems(keys)
    {
      var i := 0;
      while i < |keys|
        invariant i <= |keys|
        invariant transports == old(transports) - Elems(keys[..i])
      {
        assert Elems(keys[..i + 1]) == Elems(keys[..i]) + {keys[i]};
        transports := transports - {keys[i]};
        i := i + 1;
      }
      assert keys[..i] == keys;
    }

    /** The copies shown to the view: exactly the kept transports, with a default destination. */
    function ActiveTransports(): (r: map<TransportKey, Transport>)
      reads this
      requires Valid()
      ensures r.Keys == transports.Keys
      ensures forall k :: k in r ==> r[k] == WithDestination(transports[k])
      ensures forall k :: k in r ==> r[k].(toMachine := transports[k].toMachine) == transports[k]
    {
      activeTransports
    }
  }
}
