/** The tracking leaf as an object, stage by stage against the functions of module Custom1. */
module Custom1State {
  import opened Options
  import opened Ticks
  import opened Sensors
  import opened Trajectory
  import opened ResultBuffer
  import opened FlightTypes
  import opened Lifter
  import opened C = Custom1

  /** What the leaf shares with the rest of the controller. */
  class Resources {
    const buffer: MpcTrajectoryBuffer
    const results: NmpcResultBuffer
    var publishPeriod: int
    var staleLog: Timer
    var cache: Cache
    var attitude: Target

    constructor (publishPeriod: int)
      ensures fresh(buffer) && fresh(results)
      ensures View() == Shared(publishPeriod, STOPPED, EMPTY, NoCache, NO_RESULTS, Target(ZERO3, 0.0))
    {
      buffer := new MpcTrajectoryBuffer();
      results := new NmpcResultBuffer();
      this.publishPeriod, staleLog, cache, attitude := publishPeriod, STOPPED, NoCache, Target(ZERO3, 0.0);
    }

    ghost function View(): Shared
      reads this, buffer, results
    {
      Shared(publishPeriod, staleLog, buffer.View(), cache, results.View(), attitude)
    }
  }

  /** Diagnostics grow with the signals. */
  predicate Reported(before: seq<Signal>, d: seq<Diagnostic>, after: seq<Signal>, d': seq<Diagnostic>) {
    before <= after && d' == d + Signalled(after[|before|..])
  }

  lemma NothingReported(signals: seq<Signal>, d: seq<Diagnostic>)
    ensures Reported(signals, d, signals, d)
  {
  }

  lemma ReportedTrans(s0: seq<Signal>, d0: seq<Diagnostic>, s1: seq<Signal>, d1: seq<Diagnostic>,
                      s2: seq<Signal>, d2: seq<Diagnostic>)
    requires Reported(s0, d0, s1, d1) && Reported(s1, d1, s2, d2)
    ensures Reported(s0, d0, s2, d2)
  {
  }

  class Custom1State {
    var lastPublish: int
    var lastSuccess: int
    var hover: Vec3
    var armed: bool
    var held: bool
    var frozen: Setpoint
    var entered: bool
    var finished: bool
    var failures: nat
    var waitLog: Timer
    var trackLog: Timer
    var protocol: Protocol

    ghost function View(): Tracking
      reads this
    {
      Tracking(lastPublish, lastSuccess, hover, armed, held, frozen, entered, finished, failures, waitLog, trackLog,
               protocol)
    }

    /** The tick in progress: this leaf, what it shares, and what the turn has emitted. */
    ghost function Now(ctl: Controller, res: Resources): Work
      reads this, ctl, res, res.buffer, res.results
    {
      Work(View(), res.View(), ctl.setpoint, ctl.effects, ctl.signals)
    }

    function EnvOf(ctl: Controller, o: Oracle): Env
      reads ctl
    {
      Env(ctl.cfg, ctl.sensors, ctl.now, o)
    }

    constructor () {
      lastPublish, lastSuccess, hover, armed, held, frozen := 0, 0, ZERO3, false, false, NO_SETPOINT;
      entered, finished, failures, waitLog, trackLog := false, false, 0, STOPPED, STOPPED;
      protocol := Protocol(0, 0, 0, 0, false, 0, 0);
    }

    // ------------------------------------------------------------- publishing

    method PublishSetpoint(ctl: Controller, res: Resources, sp: Setpoint)
      modifies this`lastPublish, ctl`setpoint, ctl`effects
      ensures Now(ctl, res) == Publish(old(Now(ctl, res)), sp, ctl.now)
    {
      ctl.setpoint := sp;
      ctl.EmitEffect(SetpointOut(ctl.now));
      lastPublish := ctl.now;
    }

    method EmitAttitude(ctl: Controller, res: Resources)
      modifies this`lastPublish, ctl`effects
      ensures Now(ctl, res) == PublishAttitude(old(Now(ctl, res)), ctl.now)
    {
      ctl.EmitEffect(AttitudeOut(ctl.now));
      lastPublish := ctl.now;
    }

    method PublishCurrentHover(ctl: Controller, res: Resources, o: Oracle)
      modifies this`lastPublish, ctl`setpoint, ctl`effects
      ensures Now(ctl, res) == PublishHover(old(Now(ctl, res)), EnvOf(ctl, o))
    {
      PublishSetpoint(ctl, res, MeasuredHover(EnvOf(ctl, o)));
    }

    method PublishHoverIfDue(ctl: Controller, res: Resources, o: Oracle)
      modifies this`lastPublish, ctl`setpoint, ctl`effects
      ensures Now(ctl, res) == HoverIfDue(old(Now(ctl, res)), EnvOf(ctl, o))
    {
      if ctl.now - lastPublish >= res.publishPeriod {
        PublishCurrentHover(ctl, res, o);
      }
    }

    /** The reference's own position and velocity as a local setpoint, or the present position without one. */
    method PublishBackupSetpoint(ctl: Controller, res: Resources, o: Oracle)
      modifies this`lastPublish, ctl`setpoint, ctl`effects
      ensures Now(ctl, res) == PublishBackup(old(Now(ctl, res)), EnvOf(ctl, o))
    {
      if o.reference.Some? {
        var m := o.reference.value;
        PublishSetpoint(ctl, res, Setpoint(m.pos, m.vel, ZERO3, POSITION_VELOCITY_MASK));
      } else {
        PublishCurrentHover(ctl, res, o);
      }
    }

    method HoldTrackingPosition(ctl: Controller, res: Resources, o: Oracle)
      modifies this`lastPublish, this`held, this`frozen, ctl`setpoint, ctl`effects
      ensures Now(ctl, res) == Hold(old(Now(ctl, res)), EnvOf(ctl, o))
    {
      if !held {
        frozen := MeasuredHover(EnvOf(ctl, o));
        held := true;
      }
      PublishSetpoint(ctl, res, frozen);
    }

    method PostReferenceFinished(ctl: Controller, res: Resources, o: Oracle)
      modifies this, ctl`setpoint, ctl`effects, ctl`signals, ctl`diagnostics
      ensures Now(ctl, res) == Finish(old(Now(ctl, res)), EnvOf(ctl, o))
      ensures Reported(old(ctl.signals), old(ctl.diagnostics), ctl.signals, ctl.diagnostics)
    {
      if finished {
        PublishHoverIfDue(ctl, res, o);
        return;
      }
      finished := true;
      protocol := protocol.(pending := false);
      armed := false;
      PublishCurrentHover(ctl, res, o);
      ctl.EmitSignal(ReferenceFinished);
    }

    method PromoteSegment(ctl: Controller, res: Resources, o: Oracle) returns (switched: bool)
      modifies res.buffer
      ensures switched == Due(old(res.buffer.View()), ctl.now, ctl.cfg.backend, ctl.cfg.zeroOrderHold)
      ensures Now(ctl, res) == PromoteDue(old(Now(ctl, res)), EnvOf(ctl, o))
    {
      switched := res.buffer.Promote(ctl.now, ctl.cfg.backend, ctl.cfg.zeroOrderHold);
    }

    // ----------------------------------------------------------- PVA_SMC, PX4_LOCAL

    method HandlePvaSmc(ctl: Controller, res: Resources, o: Oracle)
      requires ctl.cfg.backend == PvaSmc
      modifies this`lastPublish, ctl`setpoint, ctl`effects, res.buffer
      ensures Now(ctl, res) == PvaSmcTick(old(Now(ctl, res)), EnvOf(ctl, o))
    {
      hide Due, Promoted;
      var switched := PromoteSegment(ctl, res, o);
      if !res.buffer.active.valid || ctl.sensors.paired == None ||
         (!switched && ctl.now - lastPublish < res.publishPeriod) {
        return;
      }
      PublishSetpoint(ctl, res, o.pvaSetpoint);
    }

    method HandlePx4Local(ctl: Controller, res: Resources, o: Oracle)
      modifies this`lastPublish, this`armed, this`trackLog, ctl`setpoint, ctl`effects, res.buffer
      ensures Now(ctl, res) == Px4LocalTick(old(Now(ctl, res)), EnvOf(ctl, o))
    {
      hide Promoted, MayTakeSetpoint, LiftForBackend;
      var _ := PromoteSegment(ctl, res, o);
      var lifted := LiftForBackend(res.buffer.active, ctl.now, ctl.cfg);
      if !MayTakeSetpoint(res.buffer.active, hover, ctl.cfg, armed) {
        armed := false;
        trackLog := trackLog.Ran(ctl.now, C.LOG_INTERVAL);
        PublishHoverIfDue(ctl, res, o);
        return;
      }
      if lifted == None {
        PublishHoverIfDue(ctl, res, o);
        return;
      }
      armed := true;
      if ctl.now - lastPublish < res.publishPeriod {
        return;
      }
      PublishSetpoint(ctl, res, lifted.value);
    }

    // ------------------------------------------------------------------------ SMC

    /** Nothing to track: hold once, keep holding, or hover. */
    method WaitForSmcReference(ctl: Controller, res: Resources, o: Oracle)
      modifies this`lastPublish, this`held, this`frozen, this`trackLog, ctl`setpoint, ctl`effects
      ensures Now(ctl, res) == SmcWait(old(Now(ctl, res)), EnvOf(ctl, o))
    {
      if armed && !held {
        trackLog := trackLog.Ran(ctl.now, C.LOG_INTERVAL);
        HoldTrackingPosition(ctl, res, o);
        return;
      }
      if held {
        if ctl.now - lastPublish >= res.publishPeriod {
          PublishSetpoint(ctl, res, frozen);
        }
        return;
      }
      if !armed {
        trackLog := trackLog.Ran(ctl.now, C.LOG_INTERVAL);
      }
      PublishHoverIfDue(ctl, res, o);
    }

    method HandleSmc(ctl: Controller, res: Resources, o: Oracle)
      modifies this, ctl`setpoint, ctl`effects, res.buffer
      ensures Now(ctl, res) == SmcTick(old(Now(ctl, res)), EnvOf(ctl, o))
    {
      hide Promoted, MayTakeSetpoint, LiftForBackend, SmcWait, SmcTrack, PassThroughActive;
      if !entered {
        entered := PassThroughActive(ctl.sensors);
      }
      var _ := PromoteSegment(ctl, res, o);
      var lifted := LiftForBackend(res.buffer.active, ctl.now, ctl.cfg);
      if lifted == None || !MayTakeSetpoint(res.buffer.active, hover, ctl.cfg, armed) {
        WaitForSmcReference(ctl, res, o);
        return;
      }
      TrackSmc(ctl, res, o);
    }

    method TrackSmc(ctl: Controller, res: Resources, o: Oracle)
      modifies this, ctl`setpoint, ctl`effects
      ensures Now(ctl, res) == SmcTrack(old(Now(ctl, res)), EnvOf(ctl, o))
    {
      hide HoverIfDue, SmcUpdate;
      armed := true;
      if !entered {
        PublishHoverIfDue(ctl, res, o);
        return;
      }
      if !(lastPublish <= 0 || ctl.now - lastPublish >= Max(MIN_SYNC_PERIOD, ctl.cfg.controlPeriod)) {
        return;
      }
      UpdateSmc(ctl, res, o);
    }

    method UpdateSmc(ctl: Controller, res: Resources, o: Oracle)
      modifies this, ctl`setpoint, ctl`effects
      ensures Now(ctl, res) == SmcUpdate(old(Now(ctl, res)), EnvOf(ctl, o))
    {
      hide Publish, Hold;
      if o.output == None {
        failures := failures + 1;
        trackLog := trackLog.Ran(ctl.now, C.LOG_INTERVAL);
        HoldTrackingPosition(ctl, res, o);
        return;
      }
      failures, lastSuccess, held := 0, ctl.now, false;
      PublishSetpoint(ctl, res, o.output.value.0);
    }

    // ----------------------------------------------------------------------- DFBC

    method UpdateDfbc(ctl: Controller, res: Resources, o: Oracle, streaming: bool)
      modifies this, ctl`setpoint, ctl`effects, res`attitude
      ensures Now(ctl, res) == DfbcUpdate(old(Now(ctl, res)), EnvOf(ctl, o), streaming)
    {
      hide DfbcSucceeded, DfbcFailed, PublishHover;
      if !(lastPublish <= 0 || ctl.now - lastPublish >= Max(MIN_SYNC_PERIOD, ctl.cfg.controlPeriod)) {
        return;
      }
      if !streaming && o.reference == None {
        PublishCurrentHover(ctl, res, o);
        return;
      }
      if !entered {
        PublishCurrentHover(ctl, res, o);
        return;
      }
      if o.output == None {
        FailDfbc(ctl, res, o, streaming);
        return;
      }
      SucceedDfbc(ctl, res, o, streaming, o.output.value.1);
    }

    method SucceedDfbc(ctl: Controller, res: Resources, o: Oracle, streaming: bool, target: Target)
      modifies this, ctl`effects, res`attitude
      ensures Now(ctl, res) == DfbcSucceeded(old(Now(ctl, res)), EnvOf(ctl, o), streaming, target)
    {
      failures, lastSuccess := 0, ctl.now;
      if streaming {
        held := false;
      }
      res.attitude := target;
      EmitAttitude(ctl, res);
    }

    method FailDfbc(ctl: Controller, res: Resources, o: Oracle, streaming: bool)
      modifies this, ctl`setpoint, ctl`effects
      ensures Now(ctl, res) == DfbcFailed(old(Now(ctl, res)), EnvOf(ctl, o), streaming)
    {
      hide MeasuredHover, PublishBackup, Hold;
      failures := failures + 1;
      trackLog := trackLog.Ran(ctl.now, C.LOG_INTERVAL);
      if streaming {
        HoldTrackingPosition(ctl, res, o);
      } else {
        PublishBackupSetpoint(ctl, res, o);
      }
    }

    method HandleDfbcStream(ctl: Controller, res: Resources, o: Oracle)
      modifies this, ctl`setpoint, ctl`effects, res`attitude, res.buffer
      ensures Now(ctl, res) == DfbcStreamTick(old(Now(ctl, res)), EnvOf(ctl, o))
    {
      hide Promoted, MayTakeSetpoint, LiftForBackend, DfbcUpdate, DfbcWait;
      if !entered {
        entered := o.thrustKnown;
      }
      var _ := PromoteSegment(ctl, res, o);
      var lifted := LiftForBackend(res.buffer.active, ctl.now, ctl.cfg);
      if lifted == None || !MayTakeSetpoint(res.buffer.active, hover, ctl.cfg, armed) {
        WaitForDfbcReference(ctl, res, o);
        return;
      }
      armed := true;
      UpdateDfbc(ctl, res, o, true);
    }

    method WaitForDfbcReference(ctl: Controller, res: Resources, o: Oracle)
      modifies this, ctl`setpoint, ctl`effects
      ensures Now(ctl, res) == DfbcWait(old(Now(ctl, res)), EnvOf(ctl, o))
    {
      hide Hold, PublishHover;
      if ctl.now - lastPublish >= res.publishPeriod {
        if armed || held {
          HoldTrackingPosition(ctl, res, o);
        } else {
          PublishCurrentHover(ctl, res, o);
        }
      }
    }

    method HandleDfbcCache(ctl: Controller, res: Resources, o: Oracle)
      modifies this, ctl`setpoint, ctl`effects, ctl`signals, ctl`diagnostics, res`attitude
      ensures Now(ctl, res) == DfbcCacheTick(old(Now(ctl, res)), EnvOf(ctl, o))
      ensures Reported(old(ctl.signals), old(ctl.diagnostics), ctl.signals, ctl.diagnostics)
    {
      hide DfbcUpdate, Finish, EndsWithin, HoverIfDue;
      if !entered {
        entered := o.thrustKnown;
      }
      if res.cache == NoCache {
        armed := false;
        waitLog := waitLog.Ran(ctl.now, C.LOG_INTERVAL);
        PublishHoverIfDue(ctl, res, o);
        return;
      }
      armed := true;
      if EndsWithin(res.cache, ctl.now, Max(MIN_SYNC_PERIOD, ctl.cfg.controlPeriod) + FINISH_MARGIN) {
        PostReferenceFinished(ctl, res, o);
        return;
      }
      UpdateDfbc(ctl, res, o, false);
    }

    // ----------------------------------------------------------------------- NMPC

    /** A generation that was stopped from outside is replaced by a new one. */
    method RestartGeneration(ctl: Controller, res: Resources)
      modifies this`protocol, res.results
      ensures Now(ctl, res) == NmpcRestart(old(Now(ctl, res)))
    {
      if IsActive(Results(res.results.latest, res.results.generations, res.results.active, res.results.requests),
                  protocol.generation) {
        return;
      }
      var generation := res.results.BeginGeneration();
      protocol := protocol.(generation := generation, request := res.results.requests,
                            consumed := res.results.requests, pending := false, inFlight := 0, lastRequest := 0);
    }

    method ConsumeResult(ctl: Controller, res: Resources, o: Oracle)
      modifies this, ctl`setpoint, ctl`effects, ctl`signals, ctl`diagnostics, res`attitude
      ensures Now(ctl, res) == NmpcConsume(old(Now(ctl, res)), EnvOf(ctl, o))
      ensures Reported(old(ctl.signals), old(ctl.diagnostics), ctl.signals, ctl.diagnostics)
    {
      hide NmpcUse;
      NothingReported(ctl.signals, ctl.diagnostics);
      var newer := res.results.ConsumeNewerThan(protocol.consumed);
      if newer == None {
        return;
      }
      var x := newer.value;
      if x.generation != protocol.generation || x.sequence != protocol.inFlight {
        return;
      }
      protocol := protocol.(consumed := x.sequence, pending := false);
      UseResult(ctl, res, o, x);
    }

    method UseResult(ctl: Controller, res: Resources, o: Oracle, x: SolveResult)
      modifies this, ctl`setpoint, ctl`effects, ctl`signals, ctl`diagnostics, res`attitude
      ensures Now(ctl, res) == NmpcUse(old(Now(ctl, res)), EnvOf(ctl, o), x)
      ensures Reported(old(ctl.signals), old(ctl.diagnostics), ctl.signals, ctl.diagnostics)
    {
      hide NmpcFailure, TimestampFresh;
      NothingReported(ctl.signals, ctl.diagnostics);
      if ctl.now < 0 || !TimestampFresh(x.stamp, ctl.now, ctl.cfg.resultTimeout) {
        return;
      }
      if !x.success {
        HandleFailure(ctl, res, o, x.status);
        return;
      }
      failures, lastSuccess := 0, ctl.now;
      res.attitude := x.target;
      EmitAttitude(ctl, res);
    }

    /** A failed solve: the end of the reference, the last target again while it is recent, or the backup. */
    method HandleFailure(ctl: Controller, res: Resources, o: Oracle, status: int)
      modifies this, ctl`setpoint, ctl`effects, ctl`signals, ctl`diagnostics
      ensures Now(ctl, res) == NmpcFailure(old(Now(ctl, res)), EnvOf(ctl, o), status)
      ensures Reported(old(ctl.signals), old(ctl.diagnostics), ctl.signals, ctl.diagnostics)
    {
      hide Finish, PublishBackup, EndsWithin;
      NothingReported(ctl.signals, ctl.diagnostics);
      if status == REFERENCE_SAMPLING_FAILED {
        if EndsWithin(res.cache, ctl.now, ctl.cfg.horizonSpan + FINISH_MARGIN) {
          PostReferenceFinished(ctl, res, o);
          return;
        }
        failures := failures + 1;
        PublishBackupSetpoint(ctl, res, o);
        return;
      }
      failures := failures + 1;
      if lastSuccess > 0 && ctl.now - lastSuccess <= ctl.cfg.resultTimeout {
        EmitAttitude(ctl, res);
        return;
      }
      PublishBackupSetpoint(ctl, res, o);
    }

    method GiveUpOverdueRequest(ctl: Controller, res: Resources, o: Oracle)
      modifies this, ctl`setpoint, ctl`effects
      ensures Now(ctl, res) == NmpcTimeout(old(Now(ctl, res)), EnvOf(ctl, o))
    {
      hide PublishBackup;
      if protocol.pending && ctl.now > protocol.deadline {
        failures := failures + 1;
        protocol := protocol.(pending := false);
        PublishBackupSetpoint(ctl, res, o);
      }
    }

    method FallBackWhenStale(ctl: Controller, res: Resources, o: Oracle)
      modifies this`lastPublish, ctl`setpoint, ctl`effects, res`staleLog
      ensures Now(ctl, res) == NmpcFallback(old(Now(ctl, res)), EnvOf(ctl, o))
    {
      if lastSuccess > 0 && ctl.cfg.resultTimeout > 0 && ctl.now - lastSuccess > ctl.cfg.resultTimeout {
        res.staleLog := res.staleLog.Ran(ctl.now, C.LOG_INTERVAL);
        if ctl.now - lastPublish >= res.publishPeriod {
          PublishBackupSetpoint(ctl, res, o);
        }
      }
    }

    method DispatchRequest(ctl: Controller, res: Resources, o: Oracle)
      modifies this`protocol, ctl`effects, res.results
      ensures Now(ctl, res) == NmpcDispatch(old(Now(ctl, res)), EnvOf(ctl, o))
    {
      var period := ctl.cfg.controlPeriod;
      if protocol.pending || (protocol.lastRequest > 0 && ctl.now - protocol.lastRequest < period) {
        return;
      }
      var sequence := res.results.ReserveRequestSequence();
      protocol := protocol.(request := sequence, inFlight := sequence, pending := true);
      if protocol.lastRequest <= 0 {
        protocol := protocol.(lastRequest := ctl.now);
      } else {
        protocol := protocol.(lastRequest := protocol.lastRequest + period);
        if ctl.now - protocol.lastRequest > period {
          protocol := protocol.(lastRequest := ctl.now);
        }
      }
      protocol := protocol.(deadline := ctl.now + ctl.cfg.solveTimeout);
      ctl.EmitEffect(NmpcRequest(ctl.now, sequence, protocol.generation));
    }

    method PlanNmpc(ctl: Controller, res: Resources, o: Oracle)
      modifies this, ctl`setpoint, ctl`effects, ctl`signals, ctl`diagnostics, res`staleLog, res.results
      ensures Now(ctl, res) == NmpcPlan(old(Now(ctl, res)), EnvOf(ctl, o))
      ensures Reported(old(ctl.signals), old(ctl.diagnostics), ctl.signals, ctl.diagnostics)
    {
      hide Finish, EndsWithin, HoverIfDue, NmpcFallback, NmpcDispatch;
      NothingReported(ctl.signals, ctl.diagnostics);
      if res.cache == NoCache {
        armed := false;
        waitLog := waitLog.Ran(ctl.now, C.LOG_INTERVAL);
        PublishHoverIfDue(ctl, res, o);
        return;
      }
      armed := true;
      if EndsWithin(res.cache, ctl.now, ctl.cfg.horizonSpan + FINISH_MARGIN) {
        PostReferenceFinished(ctl, res, o);
        return;
      }
      FallBackWhenStale(ctl, res, o);
      DispatchRequest(ctl, res, o);
    }

    method HandleNmpc(ctl: Controller, res: Resources, o: Oracle)
      modifies this, ctl`setpoint, ctl`effects, ctl`signals, ctl`diagnostics
      modifies res`attitude, res`staleLog, res.results
      ensures Now(ctl, res) == NmpcTick(old(Now(ctl, res)), EnvOf(ctl, o))
      ensures Reported(old(ctl.signals), old(ctl.diagnostics), ctl.signals, ctl.diagnostics)
    {
      hide NmpcRestart, NmpcConsume, NmpcTimeout, NmpcPlan, Reported;
      ghost var s0, d0 := ctl.signals, ctl.diagnostics;
      RestartGeneration(ctl, res);
      ConsumeResult(ctl, res, o);
      ghost var s1, d1 := ctl.signals, ctl.diagnostics;
      GiveUpOverdueRequest(ctl, res, o);
      PlanNmpc(ctl, res, o);
      ReportedTrans(s0, d0, s1, d1, ctl.signals, ctl.diagnostics);
    }

    // ------------------------------------------------------------ entry, tick, exit

    method OnEnter(ctl: Controller, res: Resources, o: Oracle)
      modifies this, ctl`effects, ctl`custom1Requested, res, res.buffer, res.results
      ensures View() == Entered(old(res.View()), EnvOf(ctl, o))
      ensures res.View() == EnteredShared(old(res.View()), EnvOf(ctl, o)) && !ctl.custom1Requested
      ensures ctl.effects == old(ctl.effects) + EntryEffects(ctl.cfg, ctl.now)
    {
      hide ReadyFor, EntryEffects, Entered;
      ctl.custom1Requested := false;
      BeginTracking(ctl, res, o);
      PrepareBackend(ctl, res);
    }

    /** The leaf's own fields and a new generation. */
    method BeginTracking(ctl: Controller, res: Resources, o: Oracle)
      modifies this, res`staleLog, res.results
      ensures View() == Entered(old(res.View()), EnvOf(ctl, o))
      ensures res.View() == old(res.View()).(results := Begun(old(res.View()).results),
                                             staleLog := old(res.View()).staleLog.Reset(ctl.now))
    {
      hide World;
      var generation := res.results.BeginGeneration();
      ResetFields(World(ctl.sensors, ctl.cfg.backend).pos,
                  Protocol(generation, res.results.requests, 0, res.results.requests, false, 0, 0));
      res.staleLog := res.staleLog.Reset(ctl.now);
    }

    method ResetFields(here: Vec3, p: Protocol)
      modifies this
      ensures View() == Tracking(0, 0, here, false, false, NO_SETPOINT, false, false, 0, STOPPED, STOPPED, p)
    {
      hover := here;
      armed, held, frozen, entered, finished, failures := false, false, NO_SETPOINT, false, false, 0;
      waitLog, trackLog := STOPPED, STOPPED;
      protocol := p;
      lastSuccess, lastPublish := 0, 0;
    }

    method PrepareBackend(ctl: Controller, res: Resources)
      modifies ctl`effects, res`cache, res`publishPeriod, res.buffer
      ensures res.View() == ReadyFor(old(res.View()), ctl.cfg)
      ensures ctl.effects == old(ctl.effects) + EntryEffects(ctl.cfg, ctl.now)
    {
      match ctl.cfg.backend
      case Nmpc =>
        res.cache := NoCache;
        ctl.EmitEffect(ReferenceActivation(ctl.now));
      case Dfbc =>
        res.cache := NoCache;
        if ctl.cfg.plannerStream {
          res.buffer.Clear();
        } else {
          ctl.EmitEffect(ReferenceActivation(ctl.now));
        }
      case Smc =>
      case PvaSmc => res.publishPeriod := PVA_SMC_PERIOD;
      case Px4Local => res.publishPeriod := SETPOINT_INTERVAL;
    }

    method OnTick(ctl: Controller, res: Resources, o: Oracle)
      modifies this, ctl`setpoint, ctl`effects, ctl`signals, ctl`diagnostics
      modifies res`attitude, res`staleLog, res.results, res.buffer
      ensures Now(ctl, res) == C.Tick(old(Now(ctl, res)), EnvOf(ctl, o))
      ensures Reported(old(ctl.signals), old(ctl.diagnostics), ctl.signals, ctl.diagnostics)
    {
      hide NmpcTick, DfbcStreamTick, DfbcCacheTick, SmcTick, PvaSmcTick, Px4LocalTick;
      NothingReported(ctl.signals, ctl.diagnostics);
      match ctl.cfg.backend
      case Nmpc => HandleNmpc(ctl, res, o);
      case Dfbc =>
        if ctl.cfg.plannerStream { HandleDfbcStream(ctl, res, o); } else { HandleDfbcCache(ctl, res, o); }
      case Smc => HandleSmc(ctl, res, o);
      case PvaSmc => HandlePvaSmc(ctl, res, o);
      case Px4Local => HandlePx4Local(ctl, res, o);
    }

    /** Exit stops the log timers and disarms; the strategy is left where the backend has one to leave. */
    method OnExit(ctl: Controller, res: Resources)
      modifies this, res.results
      ensures res.View() == ExitedShared(old(res.View()), old(View()))
      ensures View() == ExitedTracking(old(View()), ctl.cfg.backend)
      ensures !armed && !protocol.pending && !waitLog.started && !trackLog.started
      ensures entered <==> old(entered) && (ctl.cfg.backend == Nmpc || ctl.cfg.backend == PvaSmc)
    {
      res.results.InvalidateGeneration(protocol.generation);
      waitLog, trackLog, armed := waitLog.Stop(), trackLog.Stop(), false;
      if ctl.cfg.backend != Nmpc && ctl.cfg.backend != PvaSmc {
        entered := false;
      }
      protocol := protocol.(pending := false);
    }
  }
}
