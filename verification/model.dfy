/**
 * The player's records: machine events, transports, per-machine state and
 * the loaded data set (desktop_app/model.py).
 */
module Model {
  import opened Wrappers
  import opened Sorting

  /** One row of the machine event log. `machine` may be empty. */
  datatype MachineEvent = MachineEvent(
    timeMin: real,
    timeTs: string,
    machine: string,
    event: string,
    productId: string,
    entityId: string,
    fromMachine: Option<string>,
    toMachine: Option<string>,
    queueLength: Option<int>)

  function TimeOf(e: MachineEvent): real
  {
    e.timeMin
  }

  /** A product moving between two machines; `endTime` is unset until it arrives. */
  datatype Transport = Transport(
    productId: string,
    entityId: string,
    fromMachine: Option<string>,
    toMachine: Option<string>,
    startTime: real,
    endTime: Option<real>)
  {
    /** Fraction of the trip done at `clock`: a linear ratio clamped to [0, 1]. */
    function Progress(clock: real): (p: real)
      ensures 0.0 <= p <= 1.0
      ensures endTime.None? ==> p == 0.0
      ensures endTime.Some? && endTime.value - startTime <= 0.0 ==> p == 1.0
      ensures endTime.Some? && startTime < endTime.value ==>
        (clock <= startTime ==> p == 0.0) &&
        (endTime.value <= clock ==> p == 1.0) &&
        (startTime < clock < endTime.value ==> p * (endTime.value - startTime) == clock - startTime)
    {
      if endTime.None? then 0.0
      else
        var duration := endTime.value - startTime;
        if duration <= 0.0 then 1.0
        else
          var ratio := (clock - startTime) / duration;
          var upper := if 1.0 < ratio then 1.0 else ratio;
          if upper < 0.0 then 0.0 else upper
    }
  }

  /** For a fixed trip, progress never goes backwards as the clock advances. */
  lemma ProgressMonotone(t: Transport, c1: real, c2: real)
    requires c1 <= c2
    ensures t.Progress(c1) <= t.Progress(c2)
  {
    if t.endTime.Some? && t.endTime.value - t.startTime > 0.0 {
      var d := t.endTime.value - t.startTime;
      assert (c1 - t.startTime) / d <= (c2 - t.startTime) / d by {
        assert (c2 - t.startTime) / d - (c1 - t.startTime) / d == (c2 - c1) / d;
      }
    }
  }

  const Breakdown := "breakdown"
  const Processing := "processing"
  const Queue := "queue"
  const Idle := "idle"

  /** The live state of one machine. `status` is a free-text label. */
  datatype MachineState = MachineState(
    machine: string,
    queue: int,
    status: string,
    lastEvent: Option<string>)
  {
    /** The colour class shown for the machine: breakdown, then processing, then a waiting queue, else idle. */
    function ColorKey(): (k: string)
      ensures k in {Breakdown, Processing, Queue, Idle}
      ensures k == Breakdown <==> status == Breakdown
      ensures k == Processing <==> status == Processing
      ensures k == Queue <==> status != Breakdown && status != Processing && queue > 0
      ensures k == Idle <==> status != Breakdown && status != Processing && queue <= 0
    {
      if status == Breakdown then Breakdown
      else if status == Processing then Processing
      else if queue > 0 then Queue
      else Idle
    }
  }

  /** `MachineState(name)`: empty queue, idle, no event seen. */
  function DefaultState(name: string): (s: MachineState)
    ensures s.machine == name && s.queue == 0 && s.lastEvent.None?
    ensures s.ColorKey() == Idle
  {
    MachineState(name, 0, Idle, None)
  }

  /** The events of a data set, with the time span and the machines derived from them. */
  datatype SimulationData = SimulationData(
    events: seq<MachineEvent>,
    startTime: real,
    endTime: real,
    machines: seq<string>,
    machineStates: map<string, MachineState>)

  /** What every data set built by `NewSimulationData` satisfies. */
  ghost predicate ValidData(d: SimulationData)
  {
    && |d.events| > 0
    && SortedBy(d.events, TimeOf)
    && d.startTime == d.events[0].timeMin
    && d.endTime == d.events[|d.events| - 1].timeMin
    && d.startTime <= d.endTime
    && StrictlySorted(d.machines)
  }

  /** The non-empty machine names that occur in `events`. */
  ghost function NameSet(events: seq<MachineEvent>): set<string>
  {
    set e | e in events && e.machine != "" :: e.machine
  }

  /** The machine names of the events that are not empty, in event order. */
  function NamedMachines(events: seq<MachineEvent>): (r: seq<string>)
    ensures Elems(r) == NameSet(events)
  {
    if events == [] then []
    else
      var rest := NamedMachines(events[1..]);
      assert events == [events[0]] + events[1..];
      assert NameSet(events) == NameSet([events[0]]) + NameSet(events[1..]);
      if events[0].machine != "" then
        assert Elems([events[0].machine] + rest) == {events[0].machine} + Elems(rest);
        [events[0].machine] + rest
      else rest
  }

  lemma SameElements(a: seq<MachineEvent>, b: seq<MachineEvent>)
    requires multiset(a) == multiset(b)
    ensures forall e :: e in a <==> e in b
  {
    forall e ensures e in a <==> e in b {
      assert e in a <==> e in multiset(a);
      assert e in b <==> e in multiset(b);
    }
  }

  lemma SortedBounds(events: seq<MachineEvent>)
    requires |events| > 0 && SortedBy(events, TimeOf)
    ensures forall e :: e in events ==> events[0].timeMin <= e.timeMin <= events[|events| - 1].timeMin
  {
    forall e | e in events ensures events[0].timeMin <= e.timeMin <= events[|events| - 1].timeMin {
      var i :| 0 <= i < |events| && events[i] == e;
      assert TimeOf(events[0]) <= TimeOf(events[i]) <= TimeOf(events[|events| - 1]);
    }
  }

  const NoEventsError := "No events available in the dataset"

  /** `SimulationData(events)`: sorts the events by time and derives bounds and machines; fails on an empty list. */
  function NewSimulationData(input: seq<MachineEvent>): (r: Result<SimulationData, string>)
    ensures r.Failure? <==> input == []
    ensures r.Failure? ==> r.error == NoEventsError
    ensures r.Success? ==>
      && ValidData(r.value)
      && multiset(r.value.events) == multiset(input)
      && (forall e :: e in input ==> r.value.startTime <= e.timeMin <= r.value.endTime)
      && Elems(r.value.machines) == NameSet(input)
      && r.value.machineStates.Keys == Elems(r.value.machines)
      && (forall m :: m in r.value.machineStates ==> r.value.machineStates[m] == DefaultState(m))
  {
    var events := SortByKey(input, TimeOf);
    if events == [] then Failure(NoEventsError)
    else
      var machines := SortedUnique(NamedMachines(events));
      SameElements(input, events);
      SortedBounds(events);
      assert NameSet(input) == NameSet(events);
      Success(SimulationData(
        events,
        events[0].timeMin,
        events[|events| - 1].timeMin,
        machines,
        map m | m in machines :: DefaultState(m)))
  }

  /** The stored events keep the input order among events with the same time (Python's sort is stable). */
  lemma NewSimulationDataStable(input: seq<MachineEvent>, t: real)
    requires input != []
    ensures NewSimulationData(input).Success?
    ensures WithKey(NewSimulationData(input).value.events, TimeOf, t) == WithKey(input, TimeOf, t)
  {
    SortByKeyStable(input, TimeOf, t);
  }
}
