/**
 * The runner that repeats a job (its `task` callback) on a timeout chain: each run is scheduled only after the previous
 * one has finished. The host's timers become explicit state and explicit events: `pending` holds
 * the timeouts that are set and neither cleared nor fired, `Fire` is one of them going off,
 * `TaskDone` is the job's promise settling (`ok` false when it throws), and `inFlight` counts
 * the jobs started and not yet settled.
 */
module PeriodicTasks {
  import opened Wrappers

  class PeriodicTaskRunner {
    const intervalMs: int
    var timerId: Option<nat>
    var isRunning: bool
    /** The host's timer queue: timeouts set and neither cleared nor fired. */
    var pending: set<nat>
    /** The id the host hands out to the next timeout. */
    var nextTimer: nat
    var inFlight: nat

    /**
     * The runner's invariant: at most one timeout is pending and it is the one `timerId` names;
     * a stopped runner has no timer, pending or named; and a running runner always has a
     * timeout pending or a task in flight, so the chain never stalls.
     */
    ghost predicate Valid()
      reads this
    {
      TimersConsistent() && (isRunning ==> pending != {} || inFlight > 0)
    }

    /** The invariant without the no-stall clause, which a settling task breaks for a moment. */
    ghost predicate TimersConsistent()
      reads this
    {
      && intervalMs > 0
      && (forall t :: t in pending ==> timerId == Some(t) && t < nextTimer)
      && (!isRunning ==> pending == {} && timerId.None?)
    }

    /** The constructor when the interval is positive. */
    constructor (intervalMs: int)
      requires intervalMs > 0
      ensures Valid() && this.intervalMs == intervalMs
      ensures !isRunning && timerId.None? && pending == {} && inFlight == 0
    {
      this.intervalMs := intervalMs;
      timerId := None;
      isRunning := false;
      pending := {};
      nextTimer := 0;
      inFlight := 0;
    }

    /** `new PeriodicTaskRunner(task, intervalMs)`: None where the constructor throws. */
    static method Create(intervalMs: int) returns (runner: Option<PeriodicTaskRunner>)
      ensures runner.None? <==> intervalMs <= 0
      ensures runner.Some? ==> fresh(runner.value) && runner.value.Valid() && !runner.value.isRunning
      ensures runner.Some? ==> runner.value.intervalMs == intervalMs
    {
      if intervalMs <= 0 {
        return None;
      }
      var r := new PeriodicTaskRunner(intervalMs);
      runner := Some(r);
    }

    /** `running`. */
    function Running(): (r: bool)
      reads this
      ensures r == isRunning
      ensures Valid() && !r ==> pending == {} && timerId.None?
    {
      isRunning
    }

    /** `start()`, in its default timeout mode: a no-op while running; otherwise runs and sets the first timeout. */
    method Start()
      requires Valid()
      modifies this
      ensures Valid() && isRunning
      ensures old(isRunning) ==> timerId == old(timerId) && pending == old(pending) && inFlight == old(inFlight)
      ensures !old(isRunning) ==> timerId == Some(old(nextTimer)) && pending == {old(nextTimer)}
      ensures inFlight == old(inFlight)
    {
      if isRunning {
        return;
      }
      isRunning := true;
      ScheduleNext();
    }

    /**
     * `scheduleNext()`: nothing when stopped; otherwise clears the timeout `timerId` names, if any,
     * and sets a fresh one, which is then the only pending timeout.
     */
    method ScheduleNext()
      requires TimersConsistent()
      modifies this
      ensures Valid()
      ensures isRunning == old(isRunning) && inFlight == old(inFlight)
      ensures !isRunning ==> timerId == old(timerId) && pending == old(pending)
      ensures isRunning ==> timerId == Some(old(nextTimer)) && pending == {old(nextTimer)}
    {
      if !isRunning {
        return;
      }
      if timerId.Some? {
        pending := pending - {timerId.value};
      }
      timerId := Some(nextTimer);
      pending := pending + {nextTimer};
      nextTimer := nextTimer + 1;
    }

    /** `stop()`: a no-op when stopped; otherwise stops and clears the timer. */
    method Stop()
      requires TimersConsistent()
      modifies this
      ensures Valid() && !isRunning && timerId.None? && pending == {}
      ensures inFlight == old(inFlight)
    {
      if !isRunning {
        return;
      }
      isRunning := false;
      if timerId.Some? {
        pending := pending - {timerId.value};
        timerId := None;
      }
    }

    /** The pending timeout `id` goes off: only a running runner has one, and its callback starts the job. */
    method Fire(id: nat)
      requires Valid() && id in pending
      modifies this
      ensures Valid() && isRunning && pending == {} && timerId == Some(id)
      ensures inFlight == old(inFlight) + 1
    {
      pending := pending - {id};
      var started := TimeoutCallback();
    }

    /**
     * The timeout's callback: when the runner has been stopped meanwhile it clears `timerId` and
     * runs nothing; otherwise it starts the job.
     */
    method TimeoutCallback() returns (started: bool)
      requires TimersConsistent() && pending == {}
      modifies this
      ensures Valid()
      ensures started <==> old(isRunning)
      ensures !started ==> timerId.None? && inFlight == old(inFlight)
      ensures started ==> inFlight == old(inFlight) + 1 && timerId == old(timerId)
      ensures isRunning == old(isRunning) && pending == {}
    {
      if !isRunning {
        timerId := None;
        return false;
      }
      inFlight := inFlight + 1;
      started := true;
    }

    /**
     * A task settles. `executeTaskInternal` stops the runner when the job threw (its `catch`
     * calls `stop()`); then the next timeout is set only if the runner is still running, and
     * otherwise `timerId` is cleared.
     */
    method TaskDone(ok: bool)
      requires Valid() && inFlight > 0
      modifies this
      ensures Valid() && inFlight == old(inFlight) - 1
      ensures !ok ==> !isRunning
      ensures isRunning <==> ok && old(isRunning)
      ensures isRunning ==> timerId == Some(old(nextTimer)) && pending == {old(nextTimer)}
      ensures !isRunning ==> timerId.None? && pending == {}
    {
      inFlight := inFlight - 1;
      if !ok {
        Stop();
      }
      if isRunning {
        ScheduleNext();
      } else {
        timerId := None;
      }
    }
  }

  /**
   * A run of events from a fresh runner: start, the timeout fires, the job finishes, and the
   * next timeout is set; then stop leaves no timeout behind, so no further tick can run the job.
   */
  method StartFireCompleteStop() returns (ticksAfterStop: set<nat>, runningAfterStop: bool)
    ensures ticksAfterStop == {} && !runningAfterStop
  {
    var r := new PeriodicTaskRunner(1000);
    r.Start();
    var first := r.timerId.value;
    r.Fire(first);
    r.TaskDone(true);
    assert r.isRunning && |r.pending| == 1;
    r.Stop();
    ticksAfterStop := r.pending;
    runningAfterStop := r.Running();
  }
}
