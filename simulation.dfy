/**
 The simulator's state as one value and its operations as functions on it:
 the reference the engine's methods are proved against. `Inv` is what every
 operation keeps; the lemmas show that each one keeps it and what a run
 records: the totals of a finished run are the length of the head's path over
 the served requests and the number of reversals of its travel, and a complete
 run serves the request list in index order whichever algorithm is selected.
 */
module Simulation {
  import opened DiskTypes
  import opened HeadMotion
  import opened Scheduling

  /** The simulation record's fields, as one value. */
  datatype Run = Run(isRunning: bool, isPaused: bool, currentRequestIndex: nat,
                     currentCylinder: int, direction: int, totalTracks: int,
                     directionChanges: int, speed: int, currentRound: int)

  /** Everything the simulator holds: the selected algorithm, the request
      list, the simulation record, the results shown and the history. */
  datatype Sim = Sim(algorithm: Algorithm, requests: seq<Request>, run: Run,
                     results: seq<StepResult>, history: seq<HistoryEntry>)

  /** Bookkeeping the proofs keep beside the state: whether the results and
      counters belong to the run started last, the head when that run
      started, and the requests it has served so far. */
  datatype Trace = Trace(tracking: bool, origin: Head, served: seq<Request>)

  function HeadOf(r: Run): Head {
    Head(r.currentCylinder, r.direction)
  }

  /** The page as loaded, before any requests are generated. */
  function Initial(): Sim {
    Sim(FCFS, [], Run(false, false, 0, HomeCylinder, 1, 0, 0, 5, 0), [], [])
  }

  /** The record after a reset: back at cylinder 20 heading up, counters and
      round cleared, stopped and unpaused; only the speed survives. */
  function ResetRun(s: Run): (r: Run)
    ensures !r.isRunning && !r.isPaused && r.speed == s.speed
    ensures r.currentCylinder == HomeCylinder && r.direction == 1
    ensures r.currentRequestIndex == 0 && r.totalTracks == 0 && r.directionChanges == 0 && r.currentRound == 0
  {
    Run(false, false, 0, HomeCylinder, 1, 0, 0, s.speed, 0)
  }

  /** Resetting twice is resetting once. */
  lemma ResetRunIdempotent(s: Run)
    ensures ResetRun(ResetRun(s)) == ResetRun(s)
  {
  }

  /** Milliseconds waited before the next step, by speed level: one second at
      level 1, 100 ms less per level above it. */
  function SpeedDelay(speed: int): (ms: int)
    ensures 1 <= speed <= 10 ==> 100 <= ms <= 1000
    ensures speed == 1 ==> ms == 1000
    ensures speed == 10 ==> ms == 100
    ensures ms % 100 == 0
  {
    1000 - (speed - 1) * 100
  }

  /** Each level faster waits 100 ms less. */
  lemma FasterIsShorter(slower: int, faster: int)
    ensures SpeedDelay(faster) == SpeedDelay(slower) - 100 * (faster - slower)
  {
  }

  /** The round of the request at `index`, counting from 1. */
  function RoundOf(index: nat): int {
    index / RoundSize + 1
  }

  /** Rounds are ten consecutive indices each, so thirty requests make three
      rounds, and a later index is never in an earlier round. */
  lemma RoundBounds(index: nat, later: nat)
    requires index <= later
    ensures RoundOf(index) >= 1
    ensures (RoundOf(index) - 1) * RoundSize <= index < RoundOf(index) * RoundSize
    ensures index < RequestCount ==> RoundOf(index) <= 3
    ensures RoundOf(index) <= RoundOf(later)
  {
  }

  /** Serving the request at the current index: the round becomes that
      request's round, the head moves by the step rule, the seek distance is
      added to the tracks, a reversal is counted, the outcome is recorded and
      the index advances. */
  function Serve(s: Sim): Sim
    requires s.run.currentRequestIndex < |s.requests|
  {
    var i := s.run.currentRequestIndex;
    var h := HeadOf(s.run);
    var o := Outcome(h, s.requests[i]);
    var h' := Move(h, s.requests[i].cylinder);
    s.(run := s.run.(currentRound := RoundOf(i), currentRequestIndex := i + 1,
                     currentCylinder := h'.cylinder, direction := h'.direction,
                     totalTracks := s.run.totalTracks + o.tracks,
                     directionChanges := s.run.directionChanges + (if o.directionChanged then 1 else 0)),
       results := s.results + [o])
  }

  /** Stopping a run and recording its totals in the history. */
  function Finish(s: Sim, timestamp: string): Sim {
    s.(run := s.run.(isRunning := false),
       history := s.history + [HistoryEntry(s.algorithm, s.run.totalTracks, s.run.directionChanges, timestamp)])
  }

  /** One step: nothing when stopped or paused, the end of the run once every
      request is served, otherwise the next request in index order, with the
      delay before the following step. */
  function Step(s: Sim, timestamp: string): (Sim, Option<int>) {
    if !s.run.isRunning || s.run.isPaused then (s, None)
    else if s.run.currentRequestIndex >= |s.requests| then (Finish(s, timestamp), None)
    else (Serve(s), Some(SpeedDelay(s.run.speed)))
  }

  /** The record cleared for a new run; the head stays where it is. */
  function Begin(s: Sim): Sim {
    s.(run := s.run.(isRunning := true, isPaused := false, currentRequestIndex := 0,
                     totalTracks := 0, directionChanges := 0, currentRound := 1),
       results := [])
  }

  /** Starting: nothing while a run is going on, otherwise a cleared record
      and the first step at once. */
  function Start(s: Sim, timestamp: string): (Sim, Option<int>) {
    if s.run.isRunning then (s, None) else Step(Begin(s), timestamp)
  }

  /** Flipping the pause flag, running or not; resuming takes a step at once. */
  function TogglePause(s: Sim, timestamp: string): (Sim, Option<int>) {
    var flipped := s.(run := s.run.(isPaused := !s.run.isPaused));
    if flipped.run.isPaused then (flipped, None) else Step(flipped, timestamp)
  }

  /** Resetting rewinds the record only: results, history, requests and the
      selected algorithm stay. */
  function Reset(s: Sim): Sim {
    s.(run := ResetRun(s.run))
  }

  /** How the bookkeeping follows each operation. */
  function StepTrace(s: Sim, t: Trace): Trace {
    if s.run.isRunning && !s.run.isPaused && s.run.currentRequestIndex < |s.requests|
    then t.(served := t.served + [s.requests[s.run.currentRequestIndex]])
    else t
  }

  function BeginTrace(s: Sim): Trace {
    Trace(true, HeadOf(s.run), [])
  }

  function StartTrace(s: Sim, t: Trace): Trace {
    if s.run.isRunning then t else StepTrace(Begin(s), BeginTrace(s))
  }

  function ToggleTrace(s: Sim, t: Trace): Trace {
    var flipped := s.(run := s.run.(isPaused := !s.run.isPaused));
    if flipped.run.isPaused then t else StepTrace(flipped, t)
  }

  /** What holds in every reachable state: the head points up or down and is
      on a cylinder of the disk, the request list is empty or a full
      generation, a running simulation is tracked, and a tracked run's record
      agrees with its reference. */
  ghost predicate Inv(s: Sim, t: Trace) {
    && Oriented(HeadOf(s.run))
    && 0 <= s.run.currentCylinder < CylinderCount
    && WellFormed(s.requests)
    && (s.run.isRunning ==> t.tracking)
    && (t.tracking ==> Tracks(s, t))
  }

  /** A tracked run: one result per request served, and no more requests
      served than the list holds; the request numbered i + 1 served i-th; the
      results those the step rule gives from the starting head, the head
      where that rule leaves it, the counters the totals of the results; no
      seek longer than the disk; the round that of the request served last. */
  ghost predicate Tracks(s: Sim, t: Trace) {
    var i := s.run.currentRequestIndex;
    && Oriented(t.origin)
    && |t.served| == i <= |s.requests|
    && Numbered(t.served)
    && Consistent(t.origin, t.served, s.results, HeadOf(s.run), s.run.totalTracks, s.run.directionChanges)
    && s.run.totalTracks <= (CylinderCount - 1) * i
    && (i > 0 ==> s.run.currentRound == RoundOf(i - 1))
  }

  lemma InitialInv()
    ensures Inv(Initial(), Trace(true, Head(HomeCylinder, 1), []))
  {
  }

  /** Serving keeps the invariant, the served request joining the trace. */
  lemma ServeKeeps(s: Sim, t: Trace)
    requires Inv(s, t) && t.tracking && s.run.currentRequestIndex < |s.requests|
    ensures Inv(Serve(s), t.(served := t.served + [s.requests[s.run.currentRequestIndex]]))
  {
    var i := s.run.currentRequestIndex;
    var r := s.requests[i];
    var h := HeadOf(s.run);
    ServeExtends(t.origin, t.served, s.results, h, s.run.totalTracks, s.run.directionChanges, r);
    NumberedExtends(t.served, r);
    assert r.id == i + 1 && RequestInRange(r);
  }

  /** Every step keeps the invariant. */
  lemma StepKeeps(s: Sim, t: Trace, timestamp: string)
    requires Inv(s, t)
    ensures Inv(Step(s, timestamp).0, StepTrace(s, t))
  {
    if s.run.isRunning && !s.run.isPaused && s.run.currentRequestIndex < |s.requests| {
      ServeKeeps(s, t);
    }
  }

  /** A cleared record with a fresh trace satisfies the invariant. */
  lemma BeginKeeps(s: Sim, t: Trace)
    requires Inv(s, t)
    ensures Inv(Begin(s), BeginTrace(s))
  {
    assert Consistent(HeadOf(s.run), [], [], HeadOf(s.run), 0, 0);
  }

  lemma StartKeeps(s: Sim, t: Trace, timestamp: string)
    requires Inv(s, t)
    ensures Inv(Start(s, timestamp).0, StartTrace(s, t))
  {
    if !s.run.isRunning {
      BeginKeeps(s, t);
      StepKeeps(Begin(s), BeginTrace(s), timestamp);
    }
  }

  lemma ToggleKeeps(s: Sim, t: Trace, timestamp: string)
    requires Inv(s, t)
    ensures Inv(TogglePause(s, timestamp).0, ToggleTrace(s, t))
  {
    var flipped := s.(run := s.run.(isPaused := !s.run.isPaused));
    assert Inv(flipped, t);
    if !flipped.run.isPaused {
      StepKeeps(flipped, t, timestamp);
    }
  }

  /** A reset keeps the invariant once the trace no longer tracks the run. */
  lemma ResetKeeps(s: Sim, t: Trace)
    requires Inv(s, t)
    ensures Inv(Reset(s), t.(tracking := false))
  {
  }

  /** The totals a tracked record carries are the length of the head's path
      over the served requests and the number of reversals of its travel. */
  lemma TotalsMeasurePath(s: Sim, t: Trace)
    requires Inv(s, t) && t.tracking
    ensures s.run.totalTracks == PathLength(t.origin.cylinder, CylindersOf(t.served))
    ensures s.run.directionChanges == Alternations(t.origin.direction, Travel(t.origin.cylinder, CylindersOf(t.served)))
  {
    TracksArePathLength(t.origin, t.served);
    ChangesAreReversals(t.origin, t.served);
  }

  /** The step that ends a run records the path length and the reversals of
      everything served, under the selected algorithm's name. */
  lemma FinishRecordsPath(s: Sim, t: Trace, timestamp: string)
    requires Inv(s, t) && s.run.isRunning && !s.run.isPaused
    requires s.run.currentRequestIndex >= |s.requests|
    ensures var s' := Step(s, timestamp).0;
      && !s'.run.isRunning && s'.results == s.results
      && s'.history == s.history + [HistoryEntry(s.algorithm,
           PathLength(t.origin.cylinder, CylindersOf(t.served)),
           Alternations(t.origin.direction, Travel(t.origin.cylinder, CylindersOf(t.served))),
           timestamp)]
  {
    TotalsMeasurePath(s, t);
  }

  /** Pausing a running simulation and resuming it is one step. */
  lemma PauseThenResume(s: Sim, timestamp: string)
    requires s.run.isRunning && !s.run.isPaused
    ensures TogglePause(s, timestamp).1 == None
    ensures TogglePause(TogglePause(s, timestamp).0, timestamp) == Step(s, timestamp)
  {
    assert TogglePause(s, timestamp).0.(run := TogglePause(s, timestamp).0.run.(isPaused := false)) == s;
  }

  /** A step changes the state exactly when the simulation is running and
      not paused; otherwise it changes nothing and schedules nothing. */
  lemma StepActsIffActive(s: Sim, timestamp: string)
    ensures Step(s, timestamp).0 == s <==> !s.run.isRunning || s.run.isPaused
    ensures Step(s, timestamp).1.Some? ==> s.run.isRunning && !s.run.isPaused
  {
    if s.run.isRunning && !s.run.isPaused && s.run.currentRequestIndex < |s.requests| {
      assert Step(s, timestamp).0.run.currentRequestIndex != s.run.currentRequestIndex;
    }
  }

  /** The serving rule in the source's terms: the seek distance to the
      request's cylinder is added to the tracks and the head lands on that
      cylinder; the direction flips and one change is counted exactly when
      the target is above the head heading down or below it heading up, so
      a seek to the same cylinder changes nothing; exactly one result is
      appended, carrying the request's id, and the index advances by one. */
  lemma ServeRule(s: Sim)
    requires s.run.currentRequestIndex < |s.requests|
    requires s.run.direction == 1 || s.run.direction == -1
    ensures var r := s.requests[s.run.currentRequestIndex];
      var s' := Serve(s);
      var distance := if r.cylinder < s.run.currentCylinder then s.run.currentCylinder - r.cylinder
                      else r.cylinder - s.run.currentCylinder;
      var against := (r.cylinder > s.run.currentCylinder && s.run.direction == -1) ||
                     (r.cylinder < s.run.currentCylinder && s.run.direction == 1);
      && s'.run.totalTracks == s.run.totalTracks + distance
      && s'.run.currentCylinder == r.cylinder
      && (against ==> s'.run.direction == -s.run.direction && s'.run.directionChanges == s.run.directionChanges + 1)
      && (!against ==> s'.run.direction == s.run.direction && s'.run.directionChanges == s.run.directionChanges)
      && (r.cylinder == s.run.currentCylinder ==> !against)
      && (s'.run.direction == 1 || s'.run.direction == -1)
      && s'.results == s.results + [StepResult(r.id, distance, against)]
      && s'.run.currentRequestIndex == s.run.currentRequestIndex + 1
      && s'.run.isRunning == s.run.isRunning && s'.run.isPaused == s.run.isPaused
      && s'.requests == s.requests && s'.history == s.history && s'.algorithm == s.algorithm
  {
  }

  /** The step at the end of the list serves nothing: it stops the run and
      appends one history entry with the algorithm's name and the totals. */
  lemma StepAtEndFinishes(s: Sim, timestamp: string)
    requires s.run.isRunning && !s.run.isPaused && s.run.currentRequestIndex >= |s.requests|
    ensures var (s', next) := Step(s, timestamp);
      && next == None
      && s'.run == s.run.(isRunning := false)
      && s'.results == s.results && s'.requests == s.requests
      && s'.history == s.history + [HistoryEntry(s.algorithm, s.run.totalTracks, s.run.directionChanges, timestamp)]
  {
  }

  /** Along a tracked run there is one result per request served, the
      result for the request numbered i + 1 in place i, and the counters
      total the tracks and the change flags of the results. */
  lemma ResultsMatchServed(s: Sim, t: Trace)
    requires Inv(s, t) && t.tracking
    ensures |s.results| == s.run.currentRequestIndex
    ensures forall i :: 0 <= i < |s.results| ==> s.results[i].requestId == i + 1
    ensures s.run.totalTracks == SumTracks(s.results)
    ensures s.run.directionChanges == CountChanges(s.results)
  {
    forall i | 0 <= i < |s.results| ensures s.results[i].requestId == i + 1 {
      assert s.results[i].requestId == t.served[i].id;
    }
  }

  /** Once a tracked run has served a request of a full list, its round is
      one of the three rounds of ten. */
  lemma RoundWhileServing(s: Sim, t: Trace)
    requires Inv(s, t) && t.tracking && s.run.currentRequestIndex > 0 && |s.requests| == RequestCount
    ensures 1 <= s.run.currentRound <= 3
  {
    RoundBounds(s.run.currentRequestIndex - 1, s.run.currentRequestIndex - 1);
  }

  /** Starting while a run is going on changes nothing. Otherwise the first
      request is served at once from where the head stands: the record holds
      that one result, round 1, index 1, unpaused and running. With no
      requests the run ends at once, recording zero tracks and zero changes. */
  lemma StartServesFirst(s: Sim, timestamp: string)
    ensures s.run.isRunning ==> Start(s, timestamp) == (s, None)
    ensures !s.run.isRunning && |s.requests| > 0 ==>
      var (s', next) := Start(s, timestamp);
      var o := Outcome(HeadOf(s.run), s.requests[0]);
      && s'.results == [o]
      && s'.run.totalTracks == o.tracks
      && s'.run.directionChanges == (if o.directionChanged then 1 else 0)
      && s'.run.currentRequestIndex == 1 && s'.run.currentRound == 1
      && s'.run.isRunning && !s'.run.isPaused && s'.run.speed == s.run.speed
      && s'.history == s.history && next == Some(SpeedDelay(s.run.speed))
    ensures !s.run.isRunning && |s.requests| == 0 ==>
      var (s', next) := Start(s, timestamp);
      && !s'.run.isRunning && s'.results == [] && next == None
      && s'.history == s.history + [HistoryEntry(s.algorithm, 0, 0, timestamp)]
  {
  }

  /** Resetting twice is resetting once, and a reset leaves the results, the
      history, the requests and the algorithm alone. */
  lemma ResetIdempotent(s: Sim)
    ensures Reset(Reset(s)) == Reset(s)
    ensures Reset(s).results == s.results && Reset(s).history == s.history
    ensures Reset(s).requests == s.requests && Reset(s).algorithm == s.algorithm
  {
    ResetRunIdempotent(s.run);
  }

  /** `n` further steps, each taken when the previous delay has passed. */
  function Steps(s: Sim, n: nat, timestamp: string): Sim
    decreases n
  {
    if n == 0 then s else Step(Steps(s, n - 1, timestamp), timestamp).0
  }

  /** Steps taken one after another from `s`: shifting the first one out. */
  lemma {:induction false} StepsShift(s: Sim, n: nat, timestamp: string)
    ensures Steps(Step(s, timestamp).0, n, timestamp) == Steps(s, n + 1, timestamp)
    decreases n
  {
    if n > 0 {
      StepsShift(s, n - 1, timestamp);
    }
  }

  /** The state of a run started from `s` once it has served the first `k`
      requests of the list, in closed form: the results are the replay of
      those requests from the head where the run started, the head is where
      the replay leaves it, and the counters are the totals of the results. */
  function RunAfter(s: Sim, k: nat): Sim
    requires k <= |s.requests|
  {
    var h := HeadOf(s.run);
    var rs := Replay(h, s.requests[..k]);
    var h' := After(h, s.requests[..k]);
    s.(run := s.run.(isRunning := true, isPaused := false, currentRequestIndex := k,
                     currentCylinder := h'.cylinder, direction := h'.direction,
                     totalTracks := SumTracks(rs), directionChanges := CountChanges(rs),
                     currentRound := if k == 0 then 1 else RoundOf(k - 1)),
       results := rs)
  }

  /** Before the first request the closed form is the cleared record. */
  lemma RunAfterNone(s: Sim)
    ensures RunAfter(s, 0) == Begin(s)
  {
    assert s.requests[..0] == [];
  }

  /** Serving the next request moves the closed form on by one request. */
  lemma ServeRunAfter(s: Sim, k: nat)
    requires k < |s.requests|
    ensures Serve(RunAfter(s, k)) == RunAfter(s, k + 1)
  {
    var h := HeadOf(s.run);
    var served := s.requests[..k];
    var r := s.requests[k];
    assert s.requests[..k + 1] == served + [r];
    ReplaySnoc(h, served, r);
    var rs := Replay(h, served);
    var o := Outcome(After(h, served), r);
    SumTracksAppend(rs, [o]);
    CountChangesAppend(rs, [o]);
    assert [o][1..] == [];
  }

  /** Taking `k` steps from the cleared record serves the first `k` requests
      in index order: the simulator is then in the closed form. */
  lemma {:induction false} StepsFromBegin(s: Sim, k: nat, timestamp: string)
    requires k <= |s.requests|
    ensures Steps(Begin(s), k, timestamp) == RunAfter(s, k)
    decreases k
  {
    if k == 0 {
      RunAfterNone(s);
    } else {
      StepsFromBegin(s, k - 1, timestamp);
      ServeRunAfter(s, k - 1);
    }
  }

  /** A complete run: started and stepped once per request, the simulator
      has served every request in index order (the FCFS order), whichever
      algorithm is selected, and has finished. The results are the replay of
      the list from the head where it stood, and the history gains one entry
      holding the length of the head's path through the cylinders in index
      order and the number of reversals of its travel. */
  lemma CompleteRun(s: Sim, timestamp: string)
    requires !s.run.isRunning && Oriented(HeadOf(s.run))
    ensures var done := Steps(Start(s, timestamp).0, |s.requests|, timestamp);
      var h := HeadOf(s.run);
      && !done.run.isRunning
      && done.results == Replay(h, Fcfs(s.requests, h.cylinder))
      && done.history == s.history + [HistoryEntry(s.algorithm,
           PathLength(h.cylinder, CylindersOf(s.requests)),
           Alternations(h.direction, Travel(h.cylinder, CylindersOf(s.requests))),
           timestamp)]
  {
    var n := |s.requests|;
    var h := HeadOf(s.run);
    StepsShift(Begin(s), n, timestamp);
    StepsFromBegin(s, n, timestamp);
    assert s.requests[..n] == s.requests;
    TracksArePathLength(h, s.requests);
    ChangesAreReversals(h, s.requests);
  }
}
