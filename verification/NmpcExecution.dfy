/** The worker side of the NMPC protocol as an object over the shared result buffer. */
module NmpcExecution {
  import opened Options
  import opened Sensors
  import opened ResultBuffer
  import opened NmpcProtocol

  /**
   The foreign asynchronous worker is known by its contract: one job at a time, one slot for the next,
   and a submission that may be rejected at any time and is rejected while the worker is closed or
   the slot is taken.
   */
  class NmpcExecution {
    const results: NmpcResultBuffer
    var phase: Phase
    var queued: Option<Job>
    var running: Option<Running>
    var done: Option<SolveResult>
    var entered: bool
    var enteredFor: nat
    var backend: Option<nat>

    ghost function View(): Worker
      reads this
    {
      Worker(phase, queued, running, done, entered, enteredFor, backend)
    }

    constructor (results: NmpcResultBuffer)
      ensures View() == IDLE && this.results == results
    {
      this.results := results;
      phase, queued, running, done, entered, enteredFor, backend := Closed, None, None, None, false, 0, None;
    }

    method Start()
      requires phase == Closed
      modifies this`phase
      ensures View() == old(View()).(phase := Open)
    {
      phase := Open;
    }

    /**
     Stopping, in any phase, closes the worker and invalidates all generations. Whether the foreign worker
     drops a job that waits then is not promised: `drops` says which.
     */
    method Close(drops: bool)
      modifies this`phase, this`queued, results
      ensures View() == Shut(old(View()), drops)
      ensures results.View() == Invalidated(old(results.View()), 0)
    {
      if phase == Open {
        phase := Closing;
      }
      if drops {
        queued := None;
      }
      results.InvalidateGeneration(0);
    }

    /** Once nothing is in progress any more, the backend is exited; what the worker believes is not reset. */
    method Join()
      requires phase == Closing && queued == None && running == None && done == None
      modifies this`phase, this`backend
      ensures View() == old(View()).(phase := Closed, backend := None)
    {
      phase, backend := Closed, None;
    }

    method Handle(r: Request, clock: Stamp, sampled: bool, accepted: bool)
      requires accepted ==> phase == Open && queued == None
      modifies this`queued, results
      ensures (View(), results.View()) == Handled(old(View()), old(results.View()), r, clock, sampled, accepted)
    {
      if r.generation == 0 || r.generation != results.active {
        return;
      }
      var stamp := if r.at > 0 then Stamp(r.at, true) else clock;
      if !sampled {
        Reject(r, REFERENCE_SAMPLING_FAILED, clock);
        return;
      }
      if !accepted {
        Reject(r, DISPATCHER_BUSY, clock);
        return;
      }
      queued := Some(Job(r.sequence, r.generation, stamp));
    }

    method Reject(r: Request, status: int, clock: Stamp)
      modifies results
      ensures results.View() == Stored(old(results.View()), Rejected(r, status, clock))
    {
      var x := SolveResult(r.generation, r.sequence, false, status, clock, Target(ZERO3, 0.0));
      var _ := results.Store(x);
    }

    /** The worker takes the waiting job and asks whether its generation is still active. */
    method Begin()
      requires queued.Some? && running == None && done == None
      modifies this`queued, this`running
      ensures View() == Began(old(View()), results.View())
    {
      var job := queued.value;
      queued := None;
      running := Some(Running(job, job.generation != 0 && job.generation == results.active));
    }

    /** The solve itself: what the solver answers is given. */
    method Solve(canEnter: bool, success: bool, status: int, target: Target)
      requires running.Some?
      modifies this`running, this`done, this`entered, this`enteredFor, this`backend
      ensures View() == SolvedJob(old(View()), canEnter, success, status, target)
    {
      var job := running.value.job;
      var x := SolveResult(job.generation, job.sequence, false, 0, job.stamp, Target(ZERO3, 0.0));
      if running.value.live {
        if enteredFor != job.generation {
          backend, entered, enteredFor := None, false, job.generation;
        }
        if !entered && canEnter {
          entered, backend := true, Some(job.generation);
        }
        if entered {
          x := x.(success := success, status := status, target := target);
        } else {
          x := x.(status := BACKEND_UNAVAILABLE);
        }
      }
      running, done := None, Some(x);
    }

    method Store() returns (stored: bool)
      requires done.Some?
      modifies this`done, results
      ensures stored == Storable(old(results.View()), old(done).value)
      ensures View() == old(View()).(done := None) && results.View() == Stored(old(results.View()), old(done).value)
    {
      stored := results.Store(done.value);
      done := None;
    }
  }
}
