# Disk-head simulator: a verified model of its simulation engine

The simulator (a single browser script, `script.js`) generates thirty I/O
requests, each with a surface, a cylinder (0-39) and a sector, and animates a
disk head serving them step by step. The head starts at cylinder 20 heading
towards higher cylinders. Each step serves the next request in index order:
- it adds the seek distance to the track total;
- it flips the direction and counts a change when the seek goes against the
  current direction;
- it records a result;
- after the last request it stops and appends the run's totals to a history.

The script also carries three ordering helpers (FCFS, SSTF, SCAN) that the
step never calls.

This project models that engine in Dafny and proves what the code does.

- `disk_types.dfy` (module `DiskTypes`): requests, step results, history
  entries, the algorithm names, the random draws of a generation, and the
  constants: 30 requests, rounds of 10, 40 cylinders, 10 surfaces,
  16 sectors, home cylinder 20.
- `scheduling.dfy` (module `Scheduling`): `executeFCFS`, `executeSSTF` and
  `executeSCAN` as pure functions, with a stable insertion sort standing in
  for the comparator sort.
- `head_motion.dfy` (module `HeadMotion`): the step rule for the head as
  pure functions.
  - `Move` and `Outcome` give one seek.
  - `Replay` and `After` give a sequence of seeks.
  - The lemmas relate the recorded totals to quantities defined without the
    step rule: the length of the head's path, and the reversals of its
    travel.
- `simulation.dfy` (module `Simulation`): the whole simulator state as one
  value (`Sim`), each operation as a function on it, and the invariant
  `Inv`.
  - `Inv` says the head points up or down on a cylinder of the disk and the
    request list is empty or a full generation. It also says that, from a
    start on, the results and counters are the replay of the served
    requests from the head where the run started.
  - The lemmas show that every operation keeps `Inv`.
  - They also state what a step, a start, a pause and a reset do.
  - `CompleteRun` describes a whole run: it serves the list in index order,
    whatever algorithm is selected, and records the path length and the
    reversals.
- `engine.dfy` (module `Engine`): class `Simulator`.
  - Its fields are the script's global state: the selected algorithm, the
    requests, the simulation record, the results and the history.
  - The methods are imperative code that updates those fields. Most carry
    the name of the script function they model. `SelectAlgorithm` and
    `SetSpeed` are the two event listeners (script.js:51-54, 65-68), and
    `ServeNext` is the serving half of `processNextRequest`
    (script.js:211-253).
  - `ProcessNextRequest`, `StartSimulation`, `TogglePause` and
    `ResetSimulation` are proved to change the state exactly as
    `Simulation.Step`, `Start`, `TogglePause` and `Reset` say, and to keep
    `Inv`.
  - `ServeNext` and `FinishSimulation` are proved equal to `Simulation.Serve`
    and `Simulation.Finish`. They only run inside a step, so they do not
    mention `Inv`.
  - `CheckRoundTransition` states the new round directly.
  - `SelectAlgorithm`, `SetSpeed`, `GenerateRequests` and `ClearHistory`
    have no `Simulation` counterpart. Each states its new state directly and
    keeps `Inv`.
  - A `ghost` field `trace` carries three things: whether the current
    results belong to the run started last, the head at that start, and the
    requests served since.

The script's simulation record is a nested object whose fields the
operations assign one at a time. Here it is the field `simulation` of type
`Run`, and each assignment becomes a field update of that value
(`simulation := simulation.(totalTracks := ...)`).

### Behaviour of the code worth knowing

- **Initial direction.** The direction starts at 1 (up). A first move below
  cylinder 20 therefore counts as a direction change
  (`HeadMotion.FirstMoveDownCounts`).
- **A scripted run.** From cylinder 20 heading up, cylinders 25, 10, 10, 5
  give one change and 25 tracks (`HeadMotion.ScriptedRun`).
- **No arrival waves.** All thirty requests are there from the start and
  none is admitted during a run. A "round" is only the label
  `index / 10 + 1` set before each serve.
- **Service order.** The step serves the requests in index order whatever
  algorithm is selected. The algorithm's name is only written into the
  history entry.
- **Start.** Starting keeps the head's cylinder and direction; only reset
  sends it home. Start is refused only while a run is going on.
- **Reset.** Reset leaves the results, the requests and the history as they
  are.
- **Pause.** Pausing is not guarded: the pause flag flips even when no run
  is going on.
- **Generation.** Generating replaces the global request list in place.
- **Speed.** The speed level is stored as given and is not clamped.
- **Other policies.** NSTEP, CSCAN and ESCHENBACH exist only as names.

## Model

| member | source | states |
|---|---|---|
| Scheduling.Fcfs | script.js:401-404 | the requests come back untouched, in arrival order |
| Scheduling.SortBy | script.js:406-410 | the array sort with a key comparator: a permutation of the input, non-decreasing in the key |
| Scheduling.Filter | script.js:414-415 | `filter`: the result is a subsequence of the input (its elements, in their order, none more often than there) holding every element that passes the test and only those |
| Scheduling.FilterSplits | script.js:414-415 | filtering by `cilindro <= head` and by `cilindro > head` splits the requests with nothing lost or duplicated (as multisets) |
| Scheduling.Sstf | script.js:406-410 | a permutation of the requests, non-decreasing in seek distance from the head, whose first element is nearest the head among all requests |
| Scheduling.Scan | script.js:412-418 | a permutation of the requests; the requests above the head by ascending cylinder, those at or below it by descending cylinder; the upward part first exactly when direction is 1 |
| HeadMotion.Outcome | script.js:234-238 | no contract of its own: the result recorded for one serve (id, distance, change flag); `Simulation.ServeRule`, `HeadMotion.ReplaySnoc` and `HeadMotion.TracksArePathLength` state its behaviour |
| HeadMotion.Move | script.js:222-231 | the head lands on the target; the direction flips exactly when the seek goes against it; it stays 1 or -1 and points the way the head went; a seek to the same cylinder leaves the head unchanged |
| HeadMotion.Replay | script.js:203-253 | serving a sequence gives one result per request, carrying the request ids in order |
| HeadMotion.ReplaySnoc | script.js:214-239 | serving one more request appends its outcome, taken from where the head stood, and moves the head by the step rule |
| HeadMotion.ServeExtends | script.js:214-239 | one serve keeps a run's results, head and counters in agreement with the replay of the served requests |
| HeadMotion.TracksArePathLength | script.js:214-216 | the recorded tracks add up to the length of the head's path through the served cylinders, and the head ends on the last one |
| HeadMotion.ChangesAreReversals | script.js:222-228 | the recorded changes are exactly the reversals of the head's travel (stays on a cylinder skipped, the starting direction counting as the travel before the first move); the final direction is the way it last moved |
| HeadMotion.FirstMoveDownCounts | script.js:20-20 | from cylinder 20 heading up, a first seek to a lower cylinder is recorded as a direction change and turns the head down |
| HeadMotion.ScriptedRun | script.js:214-231 | cylinders 25, 10, 10, 5 from cylinder 20 heading up: one change (25 to 10), 25 tracks, change flags false, true, false, false |
| Simulation.ResetRun | script.js:180-188 | reset values: stopped, unpaused, cylinder 20, direction 1, index, tracks, changes and round 0; speed kept |
| Simulation.ResetRunIdempotent | script.js:180-188 | resetting the record twice is resetting it once |
| Simulation.ResetIdempotent | script.js:180-188 | resetting the simulator twice is resetting it once; results, history, requests and algorithm are untouched |
| Simulation.SpeedDelay | script.js:256-256 | `1000 - (speed - 1) * 100`: 1000 ms at level 1, 100 ms at level 10, between 100 and 1000 for levels 1-10, always a multiple of 100 |
| Simulation.FasterIsShorter | script.js:256-256 | between any two levels the delays differ by 100 ms per level |
| Simulation.RoundBounds | script.js:261-265 | the round of an index is at least 1, holds ten consecutive indices, is at most 3 below index 30, and never decreases as the index grows |
| Simulation.Serve | script.js:211-253 | no contract of its own: serving the request at the index; `Simulation.ServeRule`, `Simulation.ServeKeeps` and `Simulation.ServeRunAfter` state its behaviour |
| Simulation.Finish | script.js:277-291 | no contract of its own: stopping and recording a run; `Simulation.StepAtEndFinishes` and `Simulation.FinishRecordsPath` state its behaviour |
| Simulation.Step | script.js:203-258 | no contract of its own: one call of `processNextRequest`; `Simulation.StepActsIffActive`, `Simulation.StepAtEndFinishes`, `Simulation.StepKeeps` and `Simulation.StepsFromBegin` state its behaviour |
| Simulation.Begin | script.js:141-155 | no contract of its own: the record a start clears; `Simulation.BeginKeeps` and `Simulation.StepsFromBegin` state its behaviour |
| Simulation.Start | script.js:138-162 | no contract of its own: `startSimulation`; `Simulation.StartServesFirst`, `Simulation.StartKeeps` and `Simulation.CompleteRun` state its behaviour |
| Simulation.TogglePause | script.js:165-177 | no contract of its own: `togglePause`; `Simulation.PauseThenResume` and `Simulation.ToggleKeeps` state its behaviour |
| Simulation.Reset | script.js:180-188 | no contract of its own: `resetSimulation`; `Simulation.ResetIdempotent` and `Simulation.ResetKeeps` state its behaviour |
| Simulation.InitialInv | script.js:4-28 | the state at page load satisfies the invariant |
| Simulation.ServeKeeps | script.js:211-253 | serving the request at the index keeps the invariant, the request joining the served ones |
| Simulation.StepKeeps | script.js:203-258 | every step keeps the invariant |
| Simulation.BeginKeeps | script.js:141-155 | the cleared record of a start, with the head where it was, satisfies the invariant with a fresh trace |
| Simulation.StartKeeps | script.js:138-162 | starting keeps the invariant |
| Simulation.ToggleKeeps | script.js:165-177 | pausing or resuming keeps the invariant |
| Simulation.ResetKeeps | script.js:180-188 | resetting keeps the invariant |
| Simulation.StepActsIffActive | script.js:204-204 | a step changes the state if and only if the simulation is running and not paused, and it schedules a next step only then |
| Simulation.ServeRule | script.js:211-253 | a serve adds the seek distance to the tracks and lands on the request's cylinder; the direction flips and one change is counted exactly when the target is above the head heading down or below it heading up, never for the same cylinder; direction stays 1 or -1; exactly one result with the request's id is appended and the index advances by one |
| Simulation.StepAtEndFinishes | script.js:206-209 | at the end of the list a step serves nothing, stops the run and appends one history entry with the algorithm, the tracks and the changes |
| Simulation.FinishRecordsPath | script.js:277-291 | the entry a finished run records holds the length of the head's path over the served requests and the number of reversals of its travel |
| Simulation.TotalsMeasurePath | script.js:214-228 | along a tracked run the counters equal the path length and the reversal count of the served requests |
| Simulation.ResultsMatchServed | script.js:143-155 | from a start on, one result per request served, the result for request i + 1 in place i, and the counters total the results' tracks and change flags |
| Simulation.RoundWhileServing | script.js:261-265 | once a request of a full list has been served, the round is 1, 2 or 3 |
| Simulation.StartServesFirst | script.js:138-162 | starting while running changes nothing; otherwise the first request is served at once from where the head stands (one result, round 1, index 1, running, unpaused); with no requests the run ends at once with an entry of 0 tracks and 0 changes |
| Simulation.PauseThenResume | script.js:165-177 | pausing a running simulation schedules nothing, and resuming it is exactly one step |
| Simulation.ServeRunAfter | script.js:211-253 | serving the next request takes a run that has served the first k requests to one that has served the first k + 1, in closed form |
| Simulation.StepsFromBegin | script.js:203-258 | k steps after a start's cleared record, the run has served the first k requests in index order: results, head and counters are the replay of that prefix |
| Simulation.CompleteRun | script.js:138-291 | a run started and stepped once per request finishes having served the list in FCFS order whatever the algorithm; its results are the replay of the list, and the history gains one entry with the path length and the reversal count |
| Engine.Simulator.constructor | script.js:4-28 | the state at page load: FCFS, no requests, the record of lines 15-25, no results, no history; the invariant holds |
| Engine.Simulator.SelectAlgorithm | script.js:51-54 | only the selected algorithm changes; the invariant holds |
| Engine.Simulator.SetSpeed | script.js:65-68 | only the speed changes; the invariant holds |
| Engine.Simulator.GenerateRequests | script.js:78-91 | the loop leaves thirty requests, the i-th with id i + 1 and the i-th draws; nothing else changes; the invariant holds |
| Engine.Simulator.ClearHistory | script.js:131-135 | the history becomes empty, nothing else changes |
| Engine.Simulator.CheckRoundTransition | script.js:261-274 | the round becomes `index / 10 + 1`, nothing else changes |
| Engine.Simulator.FinishSimulation | script.js:277-296 | the run stops and one history entry with the algorithm, tracks and changes is appended, as `Simulation.Finish` |
| Engine.Simulator.ServeNext | script.js:211-253 | the serving part of a step changes the state exactly as `Simulation.Serve` |
| Engine.Simulator.ProcessNextRequest | script.js:203-258 | the state and the returned delay are those of `Simulation.Step`; the invariant holds |
| Engine.Simulator.StartSimulation | script.js:138-162 | the state and the returned delay are those of `Simulation.Start`; the invariant holds |
| Engine.Simulator.TogglePause | script.js:165-177 | the state and the returned delay are those of `Simulation.TogglePause`; the invariant holds |
| Engine.Simulator.ResetSimulation | script.js:180-200 | the state becomes `Simulation.Reset` of the old one; the invariant holds |

## Left out

- Everything shown on the page is not modelled. That covers tables, metrics, the progress bar, the head drawing, button states, log lines and descriptions (script.js:30-38, 72-75, 92-127, 148-154, 157-158, 167-174, 191-199, 241-250, 266-273, 280-283, 292-296, 299-398). It is presentation only.
- The timer is not modelled. `setTimeout(processNextRequest, speedDelay)` (script.js:257) becomes the delay returned by `ProcessNextRequest`, and the caller takes the next step. So the model does not capture interleavings in which a stale timeout keeps running beside a new step chain, such as a quick pause and resume, or a reset followed by a start.
- `Math.random` (script.js:86-88) is replaced by draws given as input, each with a precondition for its range. `new Date().toLocaleTimeString()` (script.js:289) is an opaque timestamp parameter.
- The event listeners (script.js:48-69) are the two methods `SelectAlgorithm` and `SetSpeed`. `SetSpeed` takes the integer `parseInt` would produce; parsing is not modelled.
- The page-load sequence (script.js:41-45) is not a member. It is the constructor followed by `GenerateRequests`.
- Scheduling.Sstf: the order among requests at equal distance is not stated. It depends on the engine's sort. The model's sort is stable, but that is not promised. The model also returns a new sequence, whereas `requests.sort` reorders the caller's array in place.
- Scheduling.Scan: the order among requests on the same cylinder is not stated. The engine's stable sort keeps their input order; the model's sort is stable too, but that is not promised.
- DiskTypes.Algorithm: the stored algorithm is one of the six names. `state.currentAlgorithm = this.value` (script.js:52) would store whatever string the radio button carries; the model assumes the page offers only those six.
- NSTEP, CSCAN and ESCHENBACH have no code beyond their names (script.js:5-12, 31-38), so only the names are modelled.
- The progress percentage and other floating-point display values (script.js:345, 367-369) are not modelled.
