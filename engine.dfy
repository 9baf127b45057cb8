/**
 The simulation engine: the simulator's shared state and the operations that
 change it in place. The state has the source's layout: the selected
 algorithm, the request list, the simulation record (a value whose fields the
 operations update one at a time), the results of the current run and the
 history of finished runs. Each method is proved to change the state as the
 matching function of module Simulation says and to keep its invariant. The
 step that the source re-schedules on a timer is a method the caller invokes;
 it returns the delay the source would wait before the next step, or None
 when it schedules none.
 */
module Engine {
  import opened DiskTypes
  import opened HeadMotion
  import opened Simulation

  class Simulator {
    var currentAlgorithm: Algorithm
    var requests: seq<Request>
    var simulation: Run
    var results: seq<StepResult>
    var history: seq<HistoryEntry>

    /** The proof bookkeeping of module Simulation. */
    ghost var trace: Trace

    /** The state held in the fields, as one value. */
    function Model(): Sim
      reads this
    {
      Sim(currentAlgorithm, requests, simulation, results, history)
    }

    ghost predicate Valid()
      reads this
    {
      Inv(Model(), trace)
    }

    /** The state when the page loads, before any requests are generated. */
    constructor ()
      ensures Valid() && Model() == Initial()
    {
      currentAlgorithm := FCFS;
      requests := [];
      simulation := Run(false, false, 0, HomeCylinder, 1, 0, 0, 5, 0);
      results, history := [], [];
      trace := Trace(true, Head(HomeCylinder, 1), []);
      InitialInv();
    }

    /** Selecting an algorithm only changes the name recorded in the history. */
    method SelectAlgorithm(algorithm: Algorithm)
      requires Valid()
      modifies this`currentAlgorithm
      ensures Valid() && Model() == old(Model()).(algorithm := algorithm)
    {
      currentAlgorithm := algorithm;
    }

    method SetSpeed(level: int)
      requires Valid()
      modifies this`simulation
      ensures Valid() && Model() == old(Model()).(run := old(simulation).(speed := level))
    {
      simulation := simulation.(speed := level);
    }

    /** Replaces the request list with thirty new requests, numbered 1 to 30,
        whose fields are the given draws. */
    method GenerateRequests(draws: seq<Draw>)
      requires Valid()
      requires |draws| == RequestCount
      requires forall i :: 0 <= i < |draws| ==> DrawInRange(draws[i])
      modifies this`requests
      ensures Valid()
      ensures |requests| == RequestCount
      ensures forall i :: 0 <= i < RequestCount ==>
                requests[i] == Request(i + 1, draws[i].surface, draws[i].cylinder, draws[i].sector)
    {
      requests := [];
      for i := 0 to RequestCount
        invariant |requests| == i
        invariant forall k :: 0 <= k < i ==>
                    requests[k] == Request(k + 1, draws[k].surface, draws[k].cylinder, draws[k].sector)
      {
        var request := Request(i + 1, draws[i].surface, draws[i].cylinder, draws[i].sector);
        requests := requests + [request];
      }
    }

    method ClearHistory()
      requires Valid()
      modifies this`history
      ensures Valid() && Model() == old(Model()).(history := [])
    {
      history := [];
    }

    /** Sets the round to that of the request about to be served. */
    method CheckRoundTransition()
      modifies this`simulation
      ensures simulation == old(simulation).(currentRound := RoundOf(simulation.currentRequestIndex))
    {
      var newRound := simulation.currentRequestIndex / 10 + 1;
      if newRound != simulation.currentRound {
        simulation := simulation.(currentRound := newRound);
      }
    }

    /** Stops the run and records it in the history. */
    method FinishSimulation(timestamp: string)
      modifies this`simulation, this`history
      ensures Model() == Finish(old(Model()), timestamp)
    {
      simulation := simulation.(isRunning := false);
      var entry := HistoryEntry(currentAlgorithm, simulation.totalTracks, simulation.directionChanges, timestamp);
      history := history + [entry];
    }

    /** Serves the request at the current index: the seek distance is added
        to the tracks, the direction flips and a change is counted when the
        seek goes against the current direction, the head moves to the
        request's cylinder, the result is appended and the index advances. */
    method ServeNext()
      requires simulation.currentRequestIndex < |requests|
      modifies this`simulation, this`results, this`trace
      ensures Model() == Serve(old(Model()))
      ensures trace == old(trace).(served := old(trace).served + [old(requests)[old(simulation).currentRequestIndex]])
    {
      ghost var served := trace.served + [requests[simulation.currentRequestIndex]];
      CheckRoundTransition();

      var currentRequest := requests[simulation.currentRequestIndex];
      var targetCylinder := currentRequest.cylinder;

      var distance := Abs(targetCylinder - simulation.currentCylinder);
      simulation := simulation.(totalTracks := simulation.totalTracks + distance);

      var directionChanged := false;
      if (targetCylinder > simulation.currentCylinder && simulation.direction == -1) ||
         (targetCylinder < simulation.currentCylinder && simulation.direction == 1) {
        simulation := simulation.(directionChanges := simulation.directionChanges + 1);
        simulation := simulation.(direction := simulation.direction * -1);
        directionChanged := true;
      }

      simulation := simulation.(currentCylinder := targetCylinder);

      var result := StepResult(currentRequest.id, distance, directionChanged);
      results := results + [result];

      simulation := simulation.(currentRequestIndex := simulation.currentRequestIndex + 1);
      trace := trace.(served := served);
    }

    /** One step of the run, as Simulation.Step says: nothing when stopped or
        paused, the end of the run once every request is served, otherwise
        the next request, then the delay before the following step. */
    method ProcessNextRequest(timestamp: string) returns (next: Option<int>)
      requires Valid()
      modifies this`simulation, this`results, this`history, this`trace
      ensures (Model(), next) == Step(old(Model()), timestamp)
      ensures trace == StepTrace(old(Model()), old(trace))
      ensures Valid()
    {
      StepKeeps(Model(), trace, timestamp);
      if !simulation.isRunning || simulation.isPaused {
        return None;
      }
      if simulation.currentRequestIndex >= |requests| {
        FinishSimulation(timestamp);
        return None;
      }
      ServeNext();
      var speedDelay := 1000 - (simulation.speed - 1) * 100;
      next := Some(speedDelay);
    }

    /** Starts a run unless one is running: clears the index, the counters and
        the results, sets round 1 and unpauses, keeps the head where it is,
        and takes the first step at once. */
    method StartSimulation(timestamp: string) returns (next: Option<int>)
      requires Valid()
      modifies this`simulation, this`results, this`history, this`trace
      ensures (Model(), next) == Start(old(Model()), timestamp)
      ensures trace == StartTrace(old(Model()), old(trace))
      ensures Valid()
    {
      if simulation.isRunning {
        return None;
      }
      BeginKeeps(Model(), trace);
      trace := BeginTrace(Model());

      simulation := simulation.(isRunning := true, isPaused := false, currentRequestIndex := 0,
                                totalTracks := 0, directionChanges := 0, currentRound := 1);
      results := [];

      next := ProcessNextRequest(timestamp);
    }

    /** Flips the pause flag, whether or not a run is going on; on resuming
        it takes a step at once. */
    method TogglePause(timestamp: string) returns (next: Option<int>)
      requires Valid()
      modifies this`simulation, this`results, this`history, this`trace
      ensures (Model(), next) == Simulation.TogglePause(old(Model()), timestamp)
      ensures trace == ToggleTrace(old(Model()), old(trace))
      ensures Valid()
    {
      ToggleKeeps(Model(), trace, timestamp);
      simulation := simulation.(isPaused := !simulation.isPaused);
      if simulation.isPaused {
        next := None;
      } else {
        next := ProcessNextRequest(timestamp);
      }
    }

    /** Stops and rewinds the simulation record; the results shown, the
        history, the requests and the selected algorithm stay. */
    method ResetSimulation()
      requires Valid()
      modifies this`simulation, this`trace
      ensures Model() == Reset(old(Model()))
      ensures trace == old(trace).(tracking := false)
      ensures Valid()
    {
      ResetKeeps(Model(), trace);
      simulation := simulation.(isRunning := false, isPaused := false, currentRequestIndex := 0,
                                currentCylinder := HomeCylinder, direction := 1,
                                totalTracks := 0, directionChanges := 0, currentRound := 0);
      trace := trace.(tracking := false);
    }
  }
}
