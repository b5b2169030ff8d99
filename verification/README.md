# Replay of a manufacturing-flow simulation: a Dafny model

The repository plays back a recorded manufacturing simulation. Its input is a
log of machine events: queue changes, processing, breakdowns and product
transports between machines. A desktop player shows machines on a grid, each
coloured by its state, and moves one token per product in transit. A backend
serves the same log to a web client: a grid layout of the machines, the
transport edges between them, time-range event queries and a time window.

This project models the engine of that player in Dafny and proves the
properties of playback:

- `wrappers.dfy`: `Option` and `Result`, plus Python's `a or b` on optional
  strings.
- `sorting.dfy`: Python's stable `sorted(..., key=...)`, Python's
  code-point order on strings, and `sorted(set(...))`.
- `int_sqrt.dfy`: integer floor and ceiling square roots. They stand for
  `int(n ** 0.5)` and `ceil(sqrt(n))`.
- `model.dfy`: the event, transport and machine-state records, and the
  building of the desktop data set (`SimulationData.__init__`).
- `controller.dfy`: the playback controller, which keeps a cursor, a clock,
  a state per machine and a transport table.
  - The class `Controller.SimulationController` updates these fields in
    place, as the Python player does.
  - Each method is proved against a function on `Snapshot` values:
    `Drain`, `Refresh`, `AfterAdvanceTo` and `AfterSeek`.
  - The properties of playback are lemmas about those functions: clamping,
    the cursor, seek idempotence, and a backward seek equalling a fresh
    replay.
- `clock.dfy`: `format_clock`, with a parser that proves the formatted
  string gives back the seconds it shows.
- `data_loader.dfy`: the backend loader over an in-memory sequence of rows
  standing for the event CSV. It covers the grid layout and its cache, the
  memoised metadata with its de-duplicated edges, `iter_events` and
  `time_window`.
- `view.dfy`: the desktop scene.
  - The machine grid, the box colours with their idle fallback, and where a
    transport token is drawn.
  - `sync_states`, which keeps exactly one token per active transport,
    reuses the tokens already drawn and removes the rest.

## Stepped play, seek and the two grids

- Playing in steps to a time `T` need not end in the state that a single
  `seek(T)` reaches. `_refresh_active_transports` deletes a transport once
  the clock is more than 0.1 minutes past its end time. A later
  `TRANSPORT_END` for the same key then finds no record and does nothing.
  A single replay instead sees that `TRANSPORT_END` while the record still
  exists, and keeps the transport.
  `Controller.SteppedPlayCanDifferFromSeek` exhibits a three-event log where
  the two differ.
- `advance_to` with a target earlier than the current clock (a negative
  `advance` delta) leaves events before the cursor that are later than the
  new clock. So only `seek` guarantees that every applied event is due.
  `Controller.SimulationController.AdvanceTo` states this property only when
  the clock does not go back.
- The backend grid uses the floor of the square root for its column count,
  while the desktop grid uses the ceiling. Both are modelled as written.

## Model

| member | source | states |
|---|---|---|
| Sorting.SortByKey | desktop_app/model.py:62 | the result is sorted by the key and is a permutation of the input |
| Sorting.SortByKeyStable | desktop_app/model.py:62 | elements with equal keys keep their input order (stability) |
| Sorting.InsertByKey | desktop_app/model.py:62 | inserting into a sorted list keeps it sorted and adds exactly one element |
| Sorting.StrLessTransitive | desktop_app/model.py:67 | Python's string order is transitive |
| Sorting.StrLessTotal | desktop_app/model.py:67 | any two different strings are ordered one way or the other |
| Sorting.StrLessIrreflexive | desktop_app/model.py:67 | no string is less than itself |
| Sorting.SortedUnique | desktop_app/model.py:67 | `sorted(set(names))` is strictly increasing and has exactly the elements of the input |
| Sorting.InsertUnique | desktop_app/model.py:67 | adding a name to a strictly sorted list keeps it strictly sorted, with that name added |
| Sorting.SortedUniqueOfSorted | desktop_app/model.py:67 | `sorted(set(names))` of a strictly sorted list is that list |
| Sorting.SortedUniqueOfDistinct | desktop_app/view.py:125 | sorting distinct names keeps all of them and introduces no duplicate |
| Sorting.StrictlySortedDistinct | desktop_app/model.py:67 | a strictly sorted list has no duplicates |
| Sorting.DistinctCard | desktop_app/model.py:67 | a duplicate-free list has as many elements as its set |
| IntSqrt.FloorSqrt | backend/app/services/data_loader.py:66 | the largest r with r*r <= n |
| IntSqrt.CeilSqrt | desktop_app/view.py:121 | the smallest r with r*r >= n |
| Model.Transport.Progress | desktop_app/model.py:31-37 | in [0, 1]; 0 with no end time; 1 for a non-positive duration; 0 before the start and 1 after the end; otherwise the elapsed fraction of the trip |
| Model.ProgressMonotone | desktop_app/model.py:34-37 | progress never decreases as the clock advances |
| Model.MachineState.ColorKey | desktop_app/model.py:48-55 | one of the four colour classes, with priority breakdown, then processing, then a positive queue, then idle (each class if and only if its condition) |
| Model.DefaultState | desktop_app/model.py:40-45 | `MachineState(name)` names the machine, has an empty queue and no event seen, and shows the idle colour class |
| Model.NamedMachines | desktop_app/model.py:67 | exactly the non-empty machine names of the events |
| Model.SortedBounds | desktop_app/model.py:65-66 | in a time-sorted list, the first and last times bound every event |
| Model.NewSimulationData | desktop_app/model.py:61-70 | fails with "No events available in the dataset" exactly on empty input; otherwise the events are a time-sorted permutation of the input, the start and end times are the first and last times and bound every event, the machines are the sorted distinct non-empty names, and each has a default state |
| Model.NewSimulationDataStable | desktop_app/model.py:62 | events with equal times keep their input order |
| Controller.KindsByPrefix | desktop_app/controller.py:52-65 | of the kinds `_apply_event` names, exactly the three transport kinds carry the `TRANSPORT_` prefix |
| Controller.StepMachine | desktop_app/controller.py:49-63 | last event always set; a given queue length overwrites the queue, floored at 0, before the ±1 of QUEUE_IN/QUEUE_OUT, which is floored at 0; the queue stays non-negative; the status changes by event kind and no other kind changes it |
| Controller.KeyOf | desktop_app/controller.py:68 | `(product_id or entity_id, entity_id or product_id)`: a present id fills its own component and an empty one falls back to the other id; a component is empty exactly when both ids are |
| Controller.AfterTransportEvent | desktop_app/controller.py:67-84 | START writes a fresh record under (product or entity, entity or product) with `from = from_machine or machine`; END on a record sets its end time and fills a missing destination; CANCEL removes the record; END or CANCEL without a record and other kinds change nothing; other keys are untouched |
| Controller.AfterEvent | desktop_app/controller.py:44-65 | the event's machine gets a state (a default one if unseen), stepped by the event; other machines are unchanged; transports change only for TRANSPORT_ kinds |
| Controller.Replay | desktop_app/controller.py:37-40 | no ensures of its own (the effect of applying events in order); `ReplayAppend`, `ReplayKeepsInvariants` and `Drain` state its properties |
| Controller.ReplayAppend | desktop_app/controller.py:37-40 | applying two runs of events one after the other equals applying their concatenation |
| Controller.ReplayKeepsInvariants | desktop_app/controller.py:44-55 | no sequence of events makes a queue negative or forgets a machine |
| Controller.Survivors | desktop_app/controller.py:89-98 | a transport is kept if and only if it is not finished more than 0.1 minutes ago; unfinished transports are always kept; kept records are unchanged |
| Controller.WithDestination | desktop_app/controller.py:93-95 | the copy differs from the original at most in the destination; a named destination is kept, and a missing one becomes the origin |
| Controller.ActiveView | desktop_app/controller.py:86-96 | the view has exactly the kept keys, each a copy with a default destination |
| Controller.SurvivorsIdempotent | desktop_app/controller.py:86-98 | pruning twice at the same time equals pruning once |
| Controller.Clamp | desktop_app/controller.py:36 | the target is clamped into [start, end]: a target in range is kept, one below the start becomes the start, one above the end becomes the end |
| Controller.Initial | desktop_app/controller.py:18-25 | no ensures of its own (the state after `reset()`); `InitialWellFormed` and `SimulationController.Reset` state its properties |
| Controller.Drain | desktop_app/controller.py:37-40 | the cursor only moves forward, within the list; the events it passes are applied in list order, each once, and all are due; the event under the new cursor is not due |
| Controller.DrainStep | desktop_app/controller.py:37-39 | while the event under the cursor is due, one round of the loop applies it and moves the cursor without changing where the loop ends |
| Controller.DrainStop | desktop_app/controller.py:37 | the loop stops at the end of the list or at the first event that is not due |
| Controller.Refresh | desktop_app/controller.py:86-98 | the transport table becomes the kept transports and the view their copies; nothing else changes |
| Controller.AfterAdvanceTo | desktop_app/controller.py:35-42 | the clock becomes the clamped target and the cursor does not move back |
| Controller.AfterSeek | desktop_app/controller.py:27-30 | no ensures of its own (`seek(target)` on values); `SeekInSync`, `SeekIdempotent` and `SeekBackIsFreshReplay` state its properties |
| Controller.InitialWellFormed | desktop_app/controller.py:18-25 | the reset state satisfies the controller invariant, with cursor 0 and no transports |
| Controller.AdvanceToProperties | desktop_app/controller.py:35-42 | `advance_to` keeps the invariant (non-negative queues, known machines present, clock in range, pruned table, view in step); it applies exactly the due events from the cursor and leaves the next event not due; with a clock that does not go back, every applied event stays due |
| Controller.SeekInSync | desktop_app/controller.py:27-30 | after `seek(t)` the clock is the clamped target, every applied event is due and the next one is not |
| Controller.SeekBackIsFreshReplay | desktop_app/controller.py:27-30 | a seek back in time gives the state of a fresh replay from the first event to the new cursor |
| Controller.SeekIdempotent | desktop_app/controller.py:27-30 | calling `seek(t)` twice in a row leaves the state of the first call |
| Controller.ExampleStepped | desktop_app/controller.py:79-98 | on the example log, advancing to 2.0 and then to 5.0 leaves no transport |
| Controller.ExampleSeek | desktop_app/controller.py:79-82 | on the example log, one seek to 5.0 keeps the transport |
| Controller.SteppedPlayCanDifferFromSeek | desktop_app/controller.py:27-42 | there is a valid data set and times t1 <= t2 for which stepping to t1 and then to t2 differs from one seek to t2 |
| Controller.SimulationController.constructor | desktop_app/controller.py:14-16 | the controller starts in the reset state |
| Controller.SimulationController.Reset | desktop_app/controller.py:18-25 | clock at the start time, cursor 0, a default state for every known machine, no transports and an empty view |
| Controller.SimulationController.Seek | desktop_app/controller.py:27-30 | the state is `AfterSeek` of the old state: reset only for an earlier target, then `advance_to`; the invariant is kept, the clock is the clamped target, and the next event is not due |
| Controller.SimulationController.Advance | desktop_app/controller.py:32-33 | `advance_to(current_time + delta)` |
| Controller.SimulationController.AdvanceTo | desktop_app/controller.py:35-42 | the state is `AfterAdvanceTo` of the old state; the invariant is kept; the clock is the clamped target; the cursor moves forward past exactly the due events |
| Controller.SimulationController.ApplyDue | desktop_app/controller.py:37-40 | the loop ends in the state `Drain` specifies |
| Controller.SimulationController.ApplyEvent | desktop_app/controller.py:44-65 | the machine and transport tables become `AfterEvent` of the old ones; clock, cursor and view are untouched |
| Controller.SimulationController.HandleTransport | desktop_app/controller.py:67-84 | the transport table becomes `AfterTransportEvent` of the old one; nothing else changes |
| Controller.SimulationController.RefreshActiveTransports | desktop_app/controller.py:86-98 | the table becomes the kept transports and the view their copies with a default destination; nothing else changes |
| Controller.SimulationController.CollectActive | desktop_app/controller.py:87-96 | the view is rebuilt from the table, and the listed keys are exactly the expired ones |
| Controller.SimulationController.DropKeys | desktop_app/controller.py:97-98 | exactly the listed keys are removed from the table |
| Controller.SimulationController.ActiveTransports | desktop_app/controller.py:100-102 | the view has exactly the table's keys, and each entry differs from its record at most in a defaulted destination |
| Clock.Truncate | desktop_app/main.py:40 | `int(x)` truncates toward zero: the floor for non-negative x; for negative x a value in [x, 0]; always within 1 of x |
| Clock.TotalSeconds | desktop_app/main.py:40 | 0 for non-positive minutes, else the floor of minutes*60 |
| Clock.Fields | desktop_app/main.py:41-43 | minutes and seconds are below 60, and hours*3600 + minutes*60 + seconds equals the total |
| Clock.Decimal | desktop_app/main.py:44 | decimal digits only, at least one, a single one exactly below 10, and no leading zero from 10 up |
| Clock.Pad2 | desktop_app/main.py:44 | digits only, at least two, exactly two below 100, and no leading zero when longer than two |
| Clock.ClockString | desktop_app/main.py:41-44 | at least 8 characters, exactly 8 when hours < 100, with ':' separating the last two two-digit fields |
| Clock.FormatClock | desktop_app/main.py:39-44 | at least 8 characters, exactly 8 when hours < 100, with ':' separating the last two two-digit fields |
| Clock.DecimalRoundTrip | desktop_app/main.py:44 | reading back the decimal digits gives the number |
| Clock.Pad2RoundTrip | desktop_app/main.py:44 | reading back a zero-padded field gives the number |
| Clock.ParseJoined | desktop_app/main.py:44 | a string joined with ':' from an hours field and two two-character fields splits back into those fields |
| Clock.ClockStringRoundTrip | desktop_app/main.py:41-44 | the `HH:MM:SS` string of a number of seconds parses back to it under a reader that accepts only the canonical form (minutes and seconds below 60, hours without extra padding) |
| Clock.PaddedFieldsRoundTrip | desktop_app/main.py:41-44 | zero-padded hours, minutes below 60 and seconds below 60 read back as hours*3600 + minutes*60 + seconds |
| Clock.TwoDigitValue | desktop_app/main.py:44 | a two-digit field reads as tens*10 + units |
| Clock.ParseClockRefusesOverflow | desktop_app/main.py:41-44 | the reader refuses "00:00:90" and "00:75:00", which no clock string shows |
| Clock.ParseClockRefusesPaddedHours | desktop_app/main.py:44 | the reader refuses "0100:00:00", since `{:02}` pads only to two digits |
| Clock.FormatClockRoundTrip | desktop_app/main.py:39-44 | the formatted clock parses back, under that canonical reader, to the whole seconds of the time |
| Clock.FormatClockNegative | desktop_app/main.py:40 | a negative time shows as "00:00:00" |
| Clock.FormatClockExample | desktop_app/main.py:39-44 | 90.5 minutes shows as "01:30:30" |
| DataLoader.GridColumns | backend/app/services/data_loader.py:66 | at least 1; exactly 1 for no machines; cols*cols <= count for a non-empty list, and count < (cols+1)^2 |
| DataLoader.LayoutAt | backend/app/services/data_loader.py:75-79 | the layout carries the machine's name |
| DataLoader.LayoutAtCell | backend/app/services/data_loader.py:75-79 | the column is below the column count, row*cols+col is the sorted index, x = 100 + 180*col and y = 100 + 140*row, both at least 100 |
| DataLoader.LayoutPositionsDistinct | backend/app/services/data_loader.py:74-79 | different sorted indices get different (x, y) |
| DataLoader.GridLayouts | backend/app/services/data_loader.py:73-80 | one layout per sorted name, at its index |
| DataLoader.GridLayoutsMachines | backend/app/services/data_loader.py:74-79 | the layouts of distinct names name distinct machines, exactly those names |
| DataLoader.ValuesInOrder | backend/app/services/data_loader.py:62 | the cached layouts, in the cache's insertion order |
| DataLoader.SimulationData.CachedLayouts | backend/app/services/data_loader.py:62 | no ensures of its own (`list(self._machine_index.values())`); `MachineLayouts` and `EmptyCacheWrites` state what it returns |
| DataLoader.WriteLayoutsKeys | backend/app/services/data_loader.py:81 | writing the layouts adds exactly their machines to the cache |
| DataLoader.WriteLayoutsLookup | backend/app/services/data_loader.py:81 | after the writes, each machine's entry is its layout, and the other entries are unchanged |
| DataLoader.Dedup | backend/app/services/data_loader.py:111 | `unique()`: no duplicates, and the same elements |
| DataLoader.EdgeCandidates | backend/app/services/data_loader.py:106-110 | exactly the (machine, to_machine) pairs of TRANSPORT_START rows with both cells present |
| DataLoader.EdgesOf | backend/app/services/data_loader.py:106-117 | those pairs, without duplicates |
| DataLoader.PresentMachines | backend/app/services/data_loader.py:101-102 | exactly the present machine cells |
| DataLoader.MachinesOf | backend/app/services/data_loader.py:101-102 | the distinct present machine names |
| DataLoader.InRange | backend/app/services/data_loader.py:144-145 | exactly the rows with start <= time < end, each as many times as it occurs in the table |
| DataLoader.IterEvents | backend/app/services/data_loader.py:137-152 | nothing when end <= start; otherwise exactly the rows with start <= time < end, each as many times as in the table, sorted by time, as a permutation of the filtered rows |
| DataLoader.TimeWindow | backend/app/services/data_loader.py:166-168 | the start is at least 0; the window is no wider than its width; it contains a non-negative current time; the end is half a width after the current time; the start is half a width before it, or 0 when that would be negative |
| DataLoader.SimulationData.constructor | backend/app/services/data_loader.py:43-48 | both caches start empty |
| DataLoader.SimulationData.MachineLayouts | backend/app/services/data_loader.py:60-82 | when the cache holds as many machines as asked for, the cached layouts and an unchanged cache; otherwise the grid of the sorted names, every one written to the cache, other cache entries untouched, and the insertion order that those writes give; from an empty cache, the cache's insertion order is the sorted names and reading the cache back gives the grid |
| DataLoader.SimulationData.RecordLayout | backend/app/services/data_loader.py:81 | the cache maps the machine to the layout; a new machine is appended to the insertion order, an existing one keeps its place |
| DataLoader.SimulationData.PlaceAll | backend/app/services/data_loader.py:73-82 | the grid layouts of the sorted names, written to the cache one after another, with the insertion order those writes give |
| DataLoader.MachineNames | backend/app/services/data_loader.py:74-79 | the machine of each layout, in order |
| DataLoader.WriteOrderFresh | backend/app/services/data_loader.py:81 | writing layouts of distinct machines not yet cached appends their machines to the insertion order, in order |
| DataLoader.EmptyCacheWrites | backend/app/services/data_loader.py:62-81 | from an empty cache, the grid's writes leave the sorted names as insertion order, and `list(values())` gives back the grid |
| DataLoader.SimulationData.Metadata | backend/app/services/data_loader.py:86-135 | the first call computes the de-duplicated edges, the window size and (from an empty cache) the grid of the sorted machines, and caches them; later calls return the cache unchanged |
| View.ColorFor | desktop_app/view.py:46-49 | the colour of a known class, else the idle colour |
| View.ColorKeyHasColor | desktop_app/view.py:18-23 | every colour class a machine can be in has its own colour, distinct from idle unless it is idle |
| View.LayoutColumns | desktop_app/view.py:121 | at least 1; columns*columns >= n; and the smallest such, for n > 1 |
| View.PositionAt | desktop_app/view.py:126-128 | no ensures of its own (the cell of a sorted index); `PositionDeterminesIndex`, `PositionsDistinct` and `PlaceOnGrid` state its properties |
| View.PositionDeterminesIndex | desktop_app/view.py:126-128 | a cell determines the sorted index it came from |
| View.PositionsDistinct | desktop_app/view.py:125-128 | cells lie in the first `columns` columns, and different indices give different cells |
| View.PlaceOnGrid | desktop_app/view.py:122-128 | every sorted name, and nothing else, gets the cell (col*240, row*160) of its index |
| View.GridInjective | desktop_app/view.py:125-128 | no two machines share a position |
| View.BuildLayout | desktop_app/view.py:116-129 | empty for no machines; otherwise each machine gets the cell of its sorted index in a grid `max(1, ceil(sqrt(n)))` wide, and no two share a cell |
| View.TokenStart | desktop_app/view.py:61-68 | the origin machine's cell, or the scene origin when it has none on the grid |
| View.TokenEnd | desktop_app/view.py:62-70 | the destination's cell when it is on the grid; the scene origin for a named destination off the grid; otherwise (no destination named) the origin machine's cell, or the scene origin when that is off the grid too |
| View.TokenPosition | desktop_app/view.py:60-77 | no ensures of its own (where a token is drawn); `TokenOnSegment`, `TokenOffGrid` and `TransportToken.UpdateProgress` state its properties |
| View.TokenOnSegment | desktop_app/view.py:71-76 | with both ends on the grid, the token lies between their box centres, at the origin for progress 0 and at the destination for progress 1 |
| View.TokenOffGrid | desktop_app/view.py:60-77 | with neither end on the grid, the token sits at the centre of the cell at the scene origin |
| View.LerpBetween | desktop_app/view.py:72-75 | a point a fraction of the way between two coordinates lies between them |
| View.MachineItem.constructor | desktop_app/view.py:30-43 | a new box shows the idle colour and an empty queue |
| View.MachineItem.UpdateState | desktop_app/view.py:45-50 | fill and state bar take the colour of the state's class, falling back to idle; the label shows the queue |
| View.TransportToken.constructor | desktop_app/view.py:54-58 | a new token starts at the scene origin |
| View.TransportToken.UpdateProgress | desktop_app/view.py:60-77 | the token moves to `TokenPosition` of its transport at the clock |
| View.MakeItems | desktop_app/view.py:86-89 | one fresh box per placed machine, at its position, with idle fill, idle state bar and an empty queue |
| View.Populate | desktop_app/view.py:85-89 | the positions are the `_build_layout` grid of the machines (each at the cell of its sorted index, no two sharing a cell), with one fresh box for each showing idle fill, idle state bar and an empty queue |
| View.TokenRemoval | desktop_app/view.py:112-114 | removing a key from the token table removes exactly its token from the scene |
| View.NewTokenValues | desktop_app/view.py:106-109 | adding a key adds exactly its new token to the scene |
| View.SimulationScene.constructor | desktop_app/view.py:81-89 | the positions are the `_build_layout` grid of the machines, one fresh box per machine at its position with idle fill, idle state bar and an empty queue, and no tokens |
| View.SimulationScene.RecolorMachines | desktop_app/view.py:98-100 | every box of a machine named in the states shows that state; boxes of other machines are unchanged, and unknown names are ignored |
| View.SimulationScene.TokenFor | desktop_app/view.py:105-109 | the existing token for the key, else a fresh one added to the scene |
| View.SimulationScene.PlaceTokens | desktop_app/view.py:103-110 | every active key has a token placed at its transport's position; existing tokens are reused and new ones are fresh |
| View.SimulationScene.RemoveTokens | desktop_app/view.py:111-114 | the tokens of the stale keys are taken off the scene, and exactly those keys are dropped |
| View.SimulationScene.SyncTokens | desktop_app/view.py:101-114 | the token keys become exactly the active keys; tokens of keys still active are reused; every token is placed; tokens of inactive keys leave the scene |
| View.SimulationScene.SyncStates | desktop_app/view.py:92-114 | recolours the known machines, and keeps exactly one placed token per active transport (reused where one existed), removing the others |

## Left out

- The Qt window, timer, slider, menus and snapshot capture of `desktop_app/main.py` are user interface and event loop. Only `format_clock` is modelled.
- Qt items, brushes, pens and `setSceneRect` are rendering. A box is modelled by its colours, position and queue number, and a token by its position.
- `SimulationData.from_csv` and `_parse_optional_int` are file reading and string parsing. Events are given as values.
- Polars scanning, the min/max time aggregation in `metadata`, and `product_timeline` are a foreign library and file reads. The loader works on an in-memory sequence of rows, and its metadata carries no time range.
- The `DataNotReady` file checks in the loader's constructor depend on the file system.
- The FastAPI application, its configuration and its dependency wiring are HTTP and environment plumbing.
- `MachineState.transports_out` is never written by the modelled code. `iter_states` only iterates over the machine table, which the model exposes directly.
- Floating-point numbers are modelled as exact reals. `int(count ** 0.5)` and `ceil(sqrt(n))` are integer square roots. `QPointF` coordinates are reals.
- Dictionaries are values. The model does not capture insertion order, except the layout cache's, which `indexOrder` records and `MachineLayouts` states. It does not capture aliasing either: the machine states and transport records that the controller mutates in place, and the view dictionary returned by `active_transports`.
- Python's `sorted` on the event list, and polars' `sort`, are modelled as a stable sort. The order of `unique()` is modelled as first occurrence.
- DataLoader.MachinesOf: only present machine cells are kept. In the Python loader a missing cell reaches `sorted()` as `None`. Beside a present name the comparison fails. When every machine cell is missing, `sorted([None])` succeeds, and the grid lays out one machine named `None`. The model has no such machine.
- View.SimulationScene.constructor: requires a data set whose machine list is strictly sorted. Every data set built by `Model.NewSimulationData` has one.
- Controller.SimulationController.AdvanceTo: states that every applied event is due only when the clock does not move back. A negative `advance` delta breaks it, as described above.
