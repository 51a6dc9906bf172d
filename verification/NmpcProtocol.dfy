/**
 The NMPC request and result protocol as a system of atomic steps: turns of the owner, the hand-off
 of its requests, the worker's steps, stopping and starting the worker, and leaving and re-entering
 the tracking leaf, in any order.
 */
module NmpcProtocol {
  import opened Options
  import opened Sensors
  import opened ResultBuffer
  import opened FlightTypes
  import opened Custom1

  /** A request as the owner emits it. */
  datatype Request = Request(sequence: nat, generation: nat, at: int)

  /** A request as the worker gets it. */
  datatype Job = Job(sequence: nat, generation: nat, stamp: Stamp)

  /** The job the worker works on, and whether its generation was active when the worker took it. */
  datatype Running = Running(job: Job, live: bool)

  datatype Phase = Open | Closing | Closed

  /**
   One worker with one slot for a waiting job. `entered` and `enteredFor` are what the worker believes
   about the solver backend; `backend` is the generation that the backend was really entered for.
   */
  datatype Worker = Worker(
    phase: Phase, queued: Option<Job>, running: Option<Running>, done: Option<SolveResult>,
    entered: bool, enteredFor: nat, backend: Option<nat>)

  const IDLE := Worker(Closed, None, None, None, false, 0, None)

  /** A result together with the generation that the backend was entered for when it was computed. */
  datatype Solved = Solved(result: SolveResult, backend: Option<nat>)

  /**
   What has happened so far, for stating properties: how many requests this generation has sent, how many
   of them before its first request at a positive time, and when it sent that one.
   */
  datatype Log = Log(
    dispatched: seq<Request>, solved: seq<Solved>, consumed: seq<nat>, copied: Option<SolveResult>,
    restarted: bool, first: int, count: nat, early: nat)

  /**
   `c` is absent while the tracking leaf is not active; `handing` is the request whose generation was found
   active and that is about to be submitted.
   */
  datatype Sys = Sys(c: Option<Tracking>, sh: Shared, outbox: seq<Request>, handing: Option<Request>, worker: Worker,
                     log: Log)

  datatype Event =
    | Enters(e: Env) | Ticks(e: Env) | Exits
    | Checks | Submits(clock: Stamp, sampled: bool, accepted: bool)
    | Begins | Solves(canEnter: bool, success: bool, status: int, target: Target) | Stores
    | Closes(drops: bool) | Joins | Starts
    | Refers(cache: Cache)             // the reference is replaced or cleared
    | Forgets                          // a stored result is lost: see NmpcStops

  // ------------------------------------------------------------------ one turn

  function RequestsIn(fx: seq<Effect>): seq<Request> {
    if fx == [] then []
    else
      var last := fx[|fx| - 1];
      RequestsIn(fx[..|fx| - 1]) +
      if last.NmpcRequest? then [Request(last.sequence, last.generation, last.at)] else []
  }

  /** The result whose target a turn copies to the attitude output. */
  function Copied(w: Work, e: Env): Option<SolveResult> {
    var x := Taken(NmpcRestart(w));
    if x.Some? && e.now >= 0 && TimestampFresh(x.value.stamp, e.now, e.cfg.resultTimeout) && x.value.success
    then x else None
  }

  function WorkOf(c: Tracking, sh: Shared): Work {
    Work(c, sh, NO_SETPOINT, [], [])
  }

  /** What a turn of the owner reports: the requests it emitted, and whether it began a new generation. */
  function Logged(log: Log, w: Work, e: Env): Log {
    var w1, w' := NmpcRestart(w), NmpcTick(w, e);
    var restarted := !IsActive(w.sh.results, w.c.protocol.generation);
    var sent, taken, copied := RequestsIn(w'.fx), Taken(w1), Copied(w, e);
    var count, early := if restarted then 0 else log.count, if restarted then 0 else log.early;
    Log(log.dispatched + sent, log.solved,
        if taken.Some? then log.consumed + [taken.value.sequence] else log.consumed,
        if copied.Some? then copied else log.copied,
        if copied.Some? then false else log.restarted || restarted,
        if sent != [] && count == early && e.now > 0 then e.now else log.first,
        count + |sent|,
        if count == early && e.now <= 0 then early + |sent| else early)
  }

  function OwnerTurn(y: Sys, e: Env): Sys
    requires y.c.Some?
  {
    var w := WorkOf(y.c.value, y.sh);
    var w' := NmpcTick(w, e);
    y.(c := Some(w'.c), sh := w'.sh, outbox := y.outbox + RequestsIn(w'.fx), log := Logged(y.log, w, e))
  }

  function OwnerEnters(y: Sys, e: Env): Sys {
    y.(c := Some(Entered(y.sh, e)), sh := EnteredShared(y.sh, e),
       log := y.log.(copied := None, restarted := false, count := 0, early := 0))
  }

  function OwnerExits(y: Sys): Sys
    requires y.c.Some?
  {
    y.(c := None, sh := ExitedShared(y.sh, y.c.value))
  }

  // ---------------------------------------------------------------- the worker

  /** A request that cannot be solved is answered at once, with the time of the rejection. */
  function Rejected(r: Request, status: int, clock: Stamp): SolveResult {
    SolveResult(r.generation, r.sequence, false, status, clock, Target(ZERO3, 0.0))
  }

  function JobOf(r: Request, clock: Stamp): Job {
    Job(r.sequence, r.generation, if r.at > 0 then Stamp(r.at, true) else clock)
  }

  /** Submitting a request: a rejection, or a waiting job. */
  function Submitted(worker: Worker, results: Results, r: Request, clock: Stamp, sampled: bool, accepted: bool)
    : (Worker, Results)
  {
    if !sampled then (worker, Stored(results, Rejected(r, REFERENCE_SAMPLING_FAILED, clock)))
    else if !accepted then (worker, Stored(results, Rejected(r, DISPATCHER_BUSY, clock)))
    else (worker.(queued := Some(JobOf(r, clock))), results)
  }

  /** Handing a request over without anything in between: nothing for a dead generation, else its submission. */
  function Handled(worker: Worker, results: Results, r: Request, clock: Stamp, sampled: bool, accepted: bool)
    : (Worker, Results)
  {
    if IsActive(results, r.generation) then Submitted(worker, results, r, clock, sampled, accepted)
    else (worker, results)
  }

  function Began(worker: Worker, results: Results): Worker
    requires worker.queued.Some?
  {
    var job := worker.queued.value;
    worker.(queued := None, running := Some(Running(job, IsActive(results, job.generation))))
  }

  /** Before solving, the backend is exited if it was entered for another generation, and entered if it is not. */
  function Prepared(worker: Worker, generation: nat, canEnter: bool): Worker {
    var w1 := if worker.enteredFor == generation then worker
              else worker.(entered := false, enteredFor := generation, backend := None);
    if w1.entered then w1
    else if canEnter then w1.(entered := true, backend := Some(generation))
    else w1
  }

  function Solution(worker: Worker, job: Job, success: bool, status: int, target: Target): SolveResult {
    if worker.entered then SolveResult(job.generation, job.sequence, success, status, job.stamp, target)
    else SolveResult(job.generation, job.sequence, false, BACKEND_UNAVAILABLE, job.stamp, Target(ZERO3, 0.0))
  }

  function SolvedJob(worker: Worker, canEnter: bool, success: bool, status: int, target: Target): Worker
    requires worker.running.Some?
  {
    var job := worker.running.value.job;
    if !worker.running.value.live then
      worker.(running := None,
              done := Some(SolveResult(job.generation, job.sequence, false, 0, job.stamp, Target(ZERO3, 0.0))))
    else
      var w1 := Prepared(worker, job.generation, canEnter);
      w1.(running := None, done := Some(Solution(w1, job, success, status, target)))
  }

  // ------------------------------------------------------------------ the system

  /** The submission of a job may be accepted only by an open worker with a free slot. */
  predicate Enabled(y: Sys, ev: Event) {
    match ev
    case Enters(e) => y.c == None && e.cfg.backend == Nmpc
    case Ticks(e) => y.c.Some? && e.cfg.backend == Nmpc
    case Exits => y.c.Some?
    case Checks => y.outbox != [] && y.handing == None
    case Submits(_, _, accepted) =>
      y.handing.Some? && (accepted ==> y.worker.phase == Open && y.worker.queued == None)
    case Begins => y.worker.queued.Some? && y.worker.running == None && y.worker.done == None
    case Solves(_, _, _, _) => y.worker.running.Some?
    case Stores => y.worker.done.Some?
    case Closes(_) => true
    case Joins =>
      && y.worker.phase == Closing && y.worker.queued == None
      && y.worker.running == None && y.worker.done == None
    case Starts => y.worker.phase == Closed
    case Refers(_) => true
    case Forgets => true
  }

  function WithSolved(log: Log, worker: Worker): Log {
    if worker.done.Some? && worker.done.value.success
    then log.(solved := log.solved + [Solved(worker.done.value, worker.backend)]) else log
  }

  /** Closing may drop the waiting job or leave it to be worked off; a worker that is closed already stays so. */
  function Shut(worker: Worker, drops: bool): Worker {
    worker.(phase := if worker.phase == Open then Closing else worker.phase,
            queued := if drops then None else worker.queued)
  }

  function WithResults(y: Sys, results: Results): Sys {
    y.(sh := y.sh.(results := results))
  }

  function Next(y: Sys, ev: Event): Sys
    requires Enabled(y, ev)
  {
    var k := y.worker;
    match ev
    case Enters(e) => OwnerEnters(y, e)
    case Ticks(e) => OwnerTurn(y, e)
    case Exits => OwnerExits(y)
    case Checks =>
      var r := y.outbox[0];
      y.(outbox := y.outbox[1..], handing := if IsActive(y.sh.results, r.generation) then Some(r) else None)
    case Submits(clock, sampled, accepted) =>
      var (worker, results) := Submitted(k, y.sh.results, y.handing.value, clock, sampled, accepted);
      WithResults(y.(handing := None, worker := worker), results)
    case Begins => y.(worker := Began(k, y.sh.results))
    case Solves(canEnter, success, status, target) =>
      var worker := SolvedJob(k, canEnter, success, status, target);
      y.(worker := worker, log := WithSolved(y.log, worker))
    case Stores => WithResults(y.(worker := k.(done := None)), Stored(y.sh.results, k.done.value))
    case Closes(drops) => WithResults(y.(worker := Shut(k, drops)), Invalidated(y.sh.results, 0))
    case Joins => y.(worker := k.(phase := Closed, backend := None))
    case Starts => y.(worker := k.(phase := Open))
    case Refers(cache) => y.(sh := y.sh.(cache := cache))
    case Forgets => WithResults(y, y.sh.results.(latest := None))
  }

  const EMPTY_LOG := Log([], [], [], None, false, 0, 0, 0)

  predicate Initial(y: Sys) {
    && y.c == None && y.outbox == [] && y.handing == None && y.worker == IDLE && y.log == EMPTY_LOG
    && y.sh.results == NO_RESULTS
  }

  /** The states y[0..] of a run under the events evs[0..]. */
  ghost predicate IsTrace(ys: seq<Sys>, evs: seq<Event>) {
    && |ys| == |evs| + 1 && Initial(ys[0])
    && (forall k :: 0 <= k < |evs| ==> Enabled(ys[k], evs[k]) && ys[k + 1] == Next(ys[k], evs[k]))
  }
}
