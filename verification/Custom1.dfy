/**
 The tracking leaf Custom1 on values: what its entry, its tick in each of the five tracking modes
 and its wake-up computation do. Control laws, the reference evaluator and the estimate of the
 hover thrust are oracles.
 */
module Custom1 {
  import opened Options
  import opened Ticks
  import opened Sensors
  import opened Trajectory
  import opened Lifter
  import opened ResultBuffer
  import opened FlightTypes

  const MIN_SYNC_PERIOD: int := 1_000_000
  const FINISH_MARGIN: int := 1_000
  const LOG_INTERVAL: int := SECOND
  const PVA_SMC_PERIOD: int := 10_000_000
  const POSITION_VELOCITY_MASK: bv16 := 0xDC0

  /** The cached reference: when it starts and, if it ends, how long it lasts. */
  datatype Cache = NoCache | Cached(start: nat, duration: Option<int>)

  /** The owner's side of the NMPC protocol. */
  datatype Protocol = Protocol(
    generation: nat, request: nat, inFlight: nat, consumed: nat, pending: bool, lastRequest: int, deadline: int)

  datatype Tracking = Tracking(
    lastPublish: int, lastSuccess: int, hover: Vec3, armed: bool, held: bool, frozen: Setpoint,
    entered: bool, finished: bool, failures: nat, waitLog: Timer, trackLog: Timer, protocol: Protocol)

  /** What the leaf shares with the rest of the controller. */
  datatype Shared = Shared(publishPeriod: int, staleLog: Timer, buffer: Buffer, cache: Cache, results: Results,
                           attitude: Target)

  /** A tick in progress. */
  datatype Work = Work(c: Tracking, sh: Shared, sp: Setpoint, fx: seq<Effect>, sg: seq<Signal>)

  /** What the code this model does not contain answers during one tick. */
  datatype Oracle = Oracle(reference: Option<Motion>, thrustKnown: bool, output: Option<(Setpoint, Target)>,
                           pvaSetpoint: Setpoint)

  datatype Env = Env(cfg: Config, s: Sensors, now: int, o: Oracle)

  // ------------------------------------------------------------ reference time

  function Remaining(duration: int, start: int, now: int): int {
    duration - Max(0, now - start)
  }

  predicate EndsWithin(cache: Cache, now: int, limit: int) {
    cache.Cached? && cache.duration.Some? && Remaining(cache.duration.value, cache.start, now) <= limit
  }

  /** The first tick from now on at which the reference ends within `limit`. */
  function NextEndsWithin(cache: Cache, now: int, limit: int): Option<int> {
    if cache == NoCache || cache.duration == None then None
    else if cache.duration.value <= limit then Some(now)
    else Some(Max(now, cache.start + (cache.duration.value - limit)))
  }

  // ---------------------------------------------------------------- publishing

  function MeasuredHover(e: Env): Setpoint {
    Setpoint(World(e.s, e.cfg.backend).pos, ZERO3, ZERO3, POSITION_VELOCITY_MASK)
  }

  function Publish(w: Work, sp: Setpoint, now: int): Work {
    w.(sp := sp, fx := w.fx + [SetpointOut(now)], c := w.c.(lastPublish := now))
  }

  function PublishAttitude(w: Work, now: int): Work {
    w.(fx := w.fx + [AttitudeOut(now)], c := w.c.(lastPublish := now))
  }

  function PublishHover(w: Work, e: Env): Work {
    Publish(w, MeasuredHover(e), e.now)
  }

  function PublishBackup(w: Work, e: Env): Work {
    match e.o.reference
    case Some(m) => Publish(w, Setpoint(m.pos, m.vel, ZERO3, POSITION_VELOCITY_MASK), e.now)
    case None => PublishHover(w, e)
  }

  /** The first hold freezes the measured position; later ones reuse it. */
  function Hold(w: Work, e: Env): Work {
    var c := if w.c.held then w.c else w.c.(frozen := MeasuredHover(e), held := true);
    Publish(w.(c := c), c.frozen, e.now)
  }

  predicate ShouldPublish(w: Work, now: int) {
    now - w.c.lastPublish >= w.sh.publishPeriod
  }

  predicate ShouldRunSync(w: Work, e: Env) {
    w.c.lastPublish <= 0 || e.now - w.c.lastPublish >= Max(MIN_SYNC_PERIOD, e.cfg.controlPeriod)
  }

  function HoverIfDue(w: Work, e: Env): Work {
    if ShouldPublish(w, e.now) then PublishHover(w, e) else w
  }

  function LogTrack(w: Work, now: int): Work {
    w.(c := w.c.(trackLog := w.c.trackLog.Ran(now, LOG_INTERVAL)))
  }

  function LogWait(w: Work, now: int): Work {
    w.(c := w.c.(waitLog := w.c.waitLog.Ran(now, LOG_INTERVAL)))
  }

  /** The reference has ended: hold, and say so once. */
  function Finish(w: Work, e: Env): Work {
    if w.c.finished then HoverIfDue(w, e)
    else
      var c := w.c.(finished := true, armed := false, protocol := w.c.protocol.(pending := false));
      var w' := PublishHover(w.(c := c), e);
      w'.(sg := w'.sg + [ReferenceFinished])
  }

  function PromoteDue(w: Work, e: Env): Work {
    w.(sh := w.sh.(buffer := Promoted(w.sh.buffer, e.now, e.cfg.backend, e.cfg.zeroOrderHold)))
  }

  predicate MayTake(w: Work, e: Env) {
    MayTakeSetpoint(w.sh.buffer.active, w.c.hover, e.cfg, w.c.armed)
  }

  function ActiveLift(w: Work, e: Env): Option<Setpoint> {
    LiftForBackend(w.sh.buffer.active, e.now, e.cfg)
  }

  // ------------------------------------------------------------------- PVA_SMC

  function PvaSmcTick(w: Work, e: Env): Work {
    var switched := Due(w.sh.buffer, e.now, PvaSmc, e.cfg.zeroOrderHold);
    var w1 := PromoteDue(w, e);
    if !w1.sh.buffer.active.valid || e.s.paired == None || (!switched && !ShouldPublish(w1, e.now)) then w1
    else Publish(w1, e.o.pvaSetpoint, e.now)
  }

  // ----------------------------------------------------------------- PX4_LOCAL

  function Px4LocalTick(w: Work, e: Env): Work {
    var w1 := PromoteDue(w, e);
    if !MayTake(w1, e) then
      HoverIfDue(LogTrack(w1.(c := w1.c.(armed := false)), e.now), e)
    else if ActiveLift(w1, e) == None then HoverIfDue(w1, e)
    else
      var w2 := w1.(c := w1.c.(armed := true));
      if ShouldPublish(w2, e.now) then Publish(w2, ActiveLift(w1, e).value, e.now) else w2
  }

  // ----------------------------------------------------------------------- SMC

  function SmcEnter(w: Work, e: Env): Work {
    if w.c.entered then w else w.(c := w.c.(entered := PassThroughActive(e.s)))
  }

  function SmcWait(w: Work, e: Env): Work {
    if w.c.armed && !w.c.held then Hold(LogTrack(w, e.now), e)
    else if w.c.held then
      if ShouldPublish(w, e.now) then Publish(w, w.c.frozen, e.now) else w
    else HoverIfDue(if w.c.armed then w else LogTrack(w, e.now), e)
  }

  function SmcTrack(w: Work, e: Env): Work {
    var w1 := w.(c := w.c.(armed := true));
    if !w1.c.entered then HoverIfDue(w1, e)
    else if !ShouldRunSync(w1, e) then w1
    else SmcUpdate(w1, e)
  }

  /** One update of the control law: a failure holds the position. */
  function SmcUpdate(w: Work, e: Env): Work {
    match e.o.output
    case None => Hold(LogTrack(w.(c := w.c.(failures := w.c.failures + 1)), e.now), e)
    case Some((sp, _)) =>
      Publish(w.(c := w.c.(failures := 0, lastSuccess := e.now, held := false)), sp, e.now)
  }

  function SmcTick(w: Work, e: Env): Work {
    var w1 := PromoteDue(SmcEnter(w, e), e);
    if ActiveLift(w1, e) == None || !MayTake(w1, e) then SmcWait(w1, e) else SmcTrack(w1, e)
  }

  // ---------------------------------------------------------------------- DFBC

  function DfbcEnter(w: Work, e: Env): Work {
    if w.c.entered then w else w.(c := w.c.(entered := e.o.thrustKnown))
  }

  /** Without an output the streaming mode holds, and the other falls back to the reference itself. */
  function DfbcFailed(w: Work, e: Env, streaming: bool): Work {
    var w1 := LogTrack(w.(c := w.c.(failures := w.c.failures + 1)), e.now);
    if streaming then Hold(w1, e) else PublishBackup(w1, e)
  }

  function DfbcSucceeded(w: Work, e: Env, streaming: bool, target: Target): Work {
    var c := w.c.(failures := 0, lastSuccess := e.now, held := if streaming then false else w.c.held);
    PublishAttitude(w.(c := c, sh := w.sh.(attitude := target)), e.now)
  }

  /** One synchronous update, when it is due. `sampled` says that there is a reference point. */
  function DfbcUpdate(w: Work, e: Env, streaming: bool): Work {
    if !ShouldRunSync(w, e) then w
    else if !streaming && e.o.reference == None then PublishHover(w, e)
    else if !w.c.entered then PublishHover(w, e)
    else match e.o.output
      case None => DfbcFailed(w, e, streaming)
      case Some((_, target)) => DfbcSucceeded(w, e, streaming, target)
  }

  function DfbcWait(w: Work, e: Env): Work {
    if !ShouldPublish(w, e.now) then w
    else if w.c.armed || w.c.held then Hold(w, e)
    else PublishHover(w, e)
  }

  function DfbcStreamTick(w: Work, e: Env): Work {
    var w1 := PromoteDue(DfbcEnter(w, e), e);
    if ActiveLift(w1, e) == None || !MayTake(w1, e) then
      DfbcWait(w1, e)
    else DfbcUpdate(w1.(c := w1.c.(armed := true)), e, true)
  }

  function DfbcCacheTick(w: Work, e: Env): Work {
    var w1 := DfbcEnter(w, e);
    if w1.sh.cache == NoCache then HoverIfDue(LogWait(w1.(c := w1.c.(armed := false)), e.now), e)
    else
      var w2 := w1.(c := w1.c.(armed := true));
      if EndsWithin(w2.sh.cache, e.now, Max(MIN_SYNC_PERIOD, e.cfg.controlPeriod) + FINISH_MARGIN)
      then Finish(w2, e) else DfbcUpdate(w2, e, false)
  }

  // ---------------------------------------------------------------------- NMPC

  /** A generation that was invalidated from outside is replaced by a new one. */
  function NmpcRestart(w: Work): Work {
    if IsActive(w.sh.results, w.c.protocol.generation) then w
    else
      var r := Begun(w.sh.results);
      w.(sh := w.sh.(results := r),
         c := w.c.(protocol := w.c.protocol.(generation := r.active, request := r.requests, consumed := r.requests,
                                             pending := false, inFlight := 0, lastRequest := 0)))
  }

  predicate HorizonEnds(w: Work, e: Env) {
    EndsWithin(w.sh.cache, e.now, e.cfg.horizonSpan + FINISH_MARGIN)
  }

  /** The result a tick takes out of the buffer: newer than the last one, and the one in flight. */
  function Taken(w: Work): Option<SolveResult> {
    var p := w.c.protocol;
    if HasNewer(w.sh.results, p.consumed) && w.sh.results.latest.value.generation == p.generation &&
       w.sh.results.latest.value.sequence == p.inFlight
    then w.sh.results.latest else None
  }

  function Failed(w: Work): Work {
    w.(c := w.c.(failures := w.c.failures + 1))
  }

  predicate RecentSuccess(w: Work, e: Env) {
    w.c.lastSuccess > 0 && e.now - w.c.lastSuccess <= e.cfg.resultTimeout
  }

  /** A failed solve: end, re-emit the last target while it is recent, or fall back. */
  function NmpcFailure(w: Work, e: Env, status: int): Work {
    if status == REFERENCE_SAMPLING_FAILED then
      if HorizonEnds(w, e) then Finish(w, e) else PublishBackup(Failed(w), e)
    else if RecentSuccess(w, e) then PublishAttitude(Failed(w), e.now)
    else PublishBackup(Failed(w), e)
  }

  function NmpcSuccess(w: Work, e: Env, target: Target): Work {
    PublishAttitude(w.(c := w.c.(failures := 0, lastSuccess := e.now), sh := w.sh.(attitude := target)), e.now)
  }

  /** What a result that was taken leads to: nothing unless it is fresh. */
  function NmpcUse(w: Work, e: Env, x: SolveResult): Work {
    if e.now < 0 || !TimestampFresh(x.stamp, e.now, e.cfg.resultTimeout) then w
    else if x.success then NmpcSuccess(w, e, x.target)
    else NmpcFailure(w, e, x.status)
  }

  function NmpcConsume(w: Work, e: Env): Work {
    match Taken(w)
    case None => w
    case Some(x) => NmpcUse(w.(c := w.c.(protocol := w.c.protocol.(consumed := x.sequence, pending := false))), e, x)
  }

  function NmpcTimeout(w: Work, e: Env): Work {
    if w.c.protocol.pending && e.now > w.c.protocol.deadline
    then PublishBackup(Failed(w.(c := w.c.(protocol := w.c.protocol.(pending := false)))), e)
    else w
  }

  predicate NmpcStale(w: Work, e: Env) {
    w.c.lastSuccess > 0 && e.cfg.resultTimeout > 0 && e.now - w.c.lastSuccess > e.cfg.resultTimeout
  }

  function NmpcFallback(w: Work, e: Env): Work {
    if !NmpcStale(w, e) then w
    else
      var w1 := w.(sh := w.sh.(staleLog := w.sh.staleLog.Ran(e.now, LOG_INTERVAL)));
      if ShouldPublish(w1, e.now) then PublishBackup(w1, e) else w1
  }

  predicate ShouldDispatch(p: Protocol, now: int, period: int) {
    !p.pending && (p.lastRequest <= 0 || now - p.lastRequest >= period)
  }

  /** The time the next request is measured from: one period on, unless that has fallen behind. */
  function NextRequestBase(lastRequest: int, now: int, period: int): int {
    if lastRequest <= 0 || now - (lastRequest + period) > period then now else lastRequest + period
  }

  function NmpcDispatch(w: Work, e: Env): Work {
    var p := w.c.protocol;
    if !ShouldDispatch(p, e.now, e.cfg.controlPeriod) then w
    else
      var r := Reserved(w.sh.results);
      w.(sh := w.sh.(results := r),
         c := w.c.(protocol := p.(request := r.requests, inFlight := r.requests, pending := true,
                                  lastRequest := NextRequestBase(p.lastRequest, e.now, e.cfg.controlPeriod),
                                  deadline := e.now + e.cfg.solveTimeout)),
         fx := w.fx + [NmpcRequest(e.now, r.requests, p.generation)])
  }

  function NmpcPlan(w: Work, e: Env): Work {
    if w.sh.cache == NoCache then HoverIfDue(LogWait(w.(c := w.c.(armed := false)), e.now), e)
    else
      var w1 := w.(c := w.c.(armed := true));
      if HorizonEnds(w1, e) then Finish(w1, e) else NmpcDispatch(NmpcFallback(w1, e), e)
  }

  function NmpcTick(w: Work, e: Env): Work {
    NmpcPlan(NmpcTimeout(NmpcConsume(NmpcRestart(w), e), e), e)
  }

  // ---------------------------------------------------------- entry, tick, exit

  function Entered(sh: Shared, e: Env): Tracking {
    var r := Begun(sh.results);
    Tracking(0, 0, World(e.s, e.cfg.backend).pos, false, false, NO_SETPOINT, false, false, 0, STOPPED, STOPPED,
             Protocol(r.active, r.requests, 0, r.requests, false, 0, 0))
  }

  /** What entry does to the shared data for the sake of one backend. */
  function ReadyFor(sh: Shared, cfg: Config): Shared {
    match cfg.backend
    case Nmpc => sh.(cache := NoCache)
    case Dfbc => if cfg.plannerStream then sh.(cache := NoCache, buffer := EMPTY) else sh.(cache := NoCache)
    case Smc => sh
    case PvaSmc => sh.(publishPeriod := PVA_SMC_PERIOD)
    case Px4Local => sh.(publishPeriod := SETPOINT_INTERVAL)
  }

  function EnteredShared(sh: Shared, e: Env): Shared {
    ReadyFor(sh.(results := Begun(sh.results), staleLog := sh.staleLog.Reset(e.now)), e.cfg)
  }

  function EntryEffects(cfg: Config, now: int): seq<Effect> {
    if cfg.backend == Nmpc || (cfg.backend == Dfbc && !cfg.plannerStream) then [ReferenceActivation(now)] else []
  }

  function Tick(w: Work, e: Env): Work {
    match e.cfg.backend
    case Nmpc => NmpcTick(w, e)
    case Dfbc => if e.cfg.plannerStream then DfbcStreamTick(w, e) else DfbcCacheTick(w, e)
    case Smc => SmcTick(w, e)
    case PvaSmc => PvaSmcTick(w, e)
    case Px4Local => Px4LocalTick(w, e)
  }

  /** Leaving the leaf invalidates its generation, so that no late result can be stored. */
  function ExitedShared(sh: Shared, c: Tracking): Shared {
    sh.(results := Invalidated(sh.results, c.protocol.generation))
  }

  /** The leaf's own fields after it was left; entry sets them all again. */
  function ExitedTracking(c: Tracking, backend: Backend): Tracking {
    c.(waitLog := c.waitLog.Stop(), trackLog := c.trackLog.Stop(), armed := false,
       entered := (backend == Nmpc || backend == PvaSmc) && c.entered,
       protocol := c.protocol.(pending := false))
  }

  // ----------------------------------------------------------------- wake-up

  function PublishDue(c: Tracking, sh: Shared): int {
    DueAt(c.lastPublish, sh.publishPeriod)
  }

  function SyncDue(c: Tracking, now: int, period: int): int {
    if c.lastPublish <= 0 then
      if now > 0 then now else DueAt(now, Max(MIN_SYNC_PERIOD, period))
    else DueAt(c.lastPublish, Max(MIN_SYNC_PERIOD, period))
  }

  /** When the pending segment takes effect. */
  function PendingDue(sh: Shared, cfg: Config, paired: bool): Option<int> {
    if sh.buffer.pending.valid && EffectiveTime(cfg.backend, cfg.zeroOrderHold) && (cfg.backend != PvaSmc || paired)
    then Some(sh.buffer.pending.time) else None
  }

  /** When the active segment's window closes. */
  function ExpiryDue(sh: Shared, cfg: Config, now: int): Option<int> {
    var g := sh.buffer.active;
    if g.valid && EffectiveTime(cfg.backend, cfg.zeroOrderHold) && cfg.backend != PvaSmc &&
       cfg.planningPeriodNs >= 0 && now < Expiry(g, cfg.planningPeriodNs)
    then Some(Expiry(g, cfg.planningPeriodNs)) else None
  }

  predicate StreamReady(c: Tracking, sh: Shared, cfg: Config, now: int) {
    var g := sh.buffer.active;
    StageWindowOpen(g, now, cfg.planningPeriodNs) && WorldPva(g.mask, g.frame) &&
    MayTakeSetpoint(g, c.hover, cfg, c.armed)
  }

  function PvaSmcWake(c: Tracking, sh: Shared, paired: bool): Option<int> {
    if sh.buffer.active.valid && paired then Some(PublishDue(c, sh)) else None
  }

  function Px4LocalWake(c: Tracking, sh: Shared, cfg: Config): Option<int> {
    var due := Some(PublishDue(c, sh));
    if MayTakeSetpoint(sh.buffer.active, c.hover, cfg, c.armed) then due
    else Earlier(due, c.trackLog.DueAfter(LOG_INTERVAL))
  }

  function SmcWake(c: Tracking, sh: Shared, cfg: Config, now: int): Option<int> {
    var ready := StreamReady(c, sh, cfg, now);
    var due := if ready && c.entered then Some(SyncDue(c, now, cfg.controlPeriod)) else Some(PublishDue(c, sh));
    if !ready && !c.armed && !c.held then Earlier(due, c.trackLog.DueAfter(LOG_INTERVAL)) else due
  }

  function DfbcWake(c: Tracking, sh: Shared, cfg: Config, now: int): Option<int> {
    var ready := if cfg.plannerStream then StreamReady(c, sh, cfg, now) else sh.cache.Cached?;
    if ready then
      var due := Some(SyncDue(c, now, cfg.controlPeriod));
      if cfg.plannerStream then due
      else Earlier(due, NextEndsWithin(sh.cache, now, Max(MIN_SYNC_PERIOD, cfg.controlPeriod) + FINISH_MARGIN))
    else if cfg.plannerStream then Some(PublishDue(c, sh))
    else Earlier(Some(PublishDue(c, sh)), c.waitLog.DueAfter(LOG_INTERVAL))
  }

  function NmpcStaleWake(c: Tracking, sh: Shared, cfg: Config, now: int): Option<int> {
    if c.lastSuccess > 0 && cfg.resultTimeout > 0 then
      var stale := StrictDueAt(c.lastSuccess, cfg.resultTimeout);
      if now < stale then Some(stale)
      else Earlier(Some(PublishDue(c, sh)), sh.staleLog.DueAfter(LOG_INTERVAL))
    else None
  }

  function NmpcDispatchWake(p: Protocol, cfg: Config, now: int): Option<int> {
    if p.pending then None
    else if p.lastRequest <= 0 then Some(if now > 0 then now else DueAt(now, cfg.controlPeriod))
    else Some(DueAt(p.lastRequest, cfg.controlPeriod))
  }

  function NmpcWake(c: Tracking, sh: Shared, cfg: Config, now: int): Option<int> {
    var timeout := if c.protocol.pending then Some(StrictDueAt(c.protocol.deadline, 0)) else None;
    if sh.cache == NoCache then
      Earlier(timeout, Earlier(Some(PublishDue(c, sh)), c.waitLog.DueAfter(LOG_INTERVAL)))
    else
      Earlier(Earlier(timeout, NextEndsWithin(sh.cache, now, cfg.horizonSpan + FINISH_MARGIN)),
              Earlier(NmpcStaleWake(c, sh, cfg, now), NmpcDispatchWake(c.protocol, cfg, now)))
  }

  function Wake(c: Tracking, sh: Shared, cfg: Config, s: Sensors, now: int): Option<int> {
    var segment := Earlier(PendingDue(sh, cfg, s.paired.Some?), ExpiryDue(sh, cfg, now));
    Earlier(segment,
            match cfg.backend
            case Nmpc => NmpcWake(c, sh, cfg, now)
            case Dfbc => DfbcWake(c, sh, cfg, now)
            case Smc => SmcWake(c, sh, cfg, now)
            case PvaSmc => PvaSmcWake(c, sh, s.paired.Some?)
            case Px4Local => Px4LocalWake(c, sh, cfg))
  }
}
