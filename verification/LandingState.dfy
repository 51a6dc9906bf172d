/** The landing leaf: descent, touchdown confirmation and the single disarm request. */
module LandingLeaf {
  import opened Options
  import opened Ticks
  import opened Sensors
  import opened FlightTypes

  const LANDING_ALTITUDE_THRESHOLD := 0.3
  const LANDING_VZ_HIGH_ALTITUDE := -0.2
  const LANDING_VZ_LOW_ALTITUDE := -0.9
  const GROUND_ALTITUDE := 0.1
  const LANDING_TIMEOUT := 60.0
  const LANDING_TIME_MARGIN := 5.0
  const TOUCHDOWN_VELOCITY_THRESHOLD := 0.1
  const CONSECUTIVE_SETTLED_FRAMES: nat := 5
  const LOG_INTERVAL: int := SECOND
  const LANDING_MASK: bv16 := 0xDC7

  /** `limit` is the longest expected landing, in ticks, after which a timeout is reported once. */
  datatype Landing = Landing(
    vz: real, limit: int, frames: nat, posted: bool, reported: bool, disarmed: bool, log: Timer, publish: Timer)

  function DescentVelocity(altitude: real): real {
    if altitude > LANDING_ALTITUDE_THRESHOLD then LANDING_VZ_HIGH_ALTITUDE else LANDING_VZ_LOW_ALTITUDE
  }

  function LandingSetpoint(vz: real): Setpoint {
    Setpoint(ZERO3, Vec3(0.0, 0.0, vz), ZERO3, LANDING_MASK)
  }

  /** The slowest descent from the entry altitude plus a margin, at most the overall timeout. */
  function LandingLimit(altitude: real): int {
    var height := if altitude < 0.0 then 0.0 else altitude;
    var expected := height / 0.2 + LANDING_TIME_MARGIN;
    Ceil((if expected < LANDING_TIMEOUT then expected else LANDING_TIMEOUT) * 1000000000.0)
  }

  function LandingEntered(s: Sensors, b: Backend, now: int): Landing {
    var z := World(s, b).pos.z;
    Landing(DescentVelocity(z), LandingLimit(z), 0, false, false, false, STOPPED.Start(now), STOPPED.Start(now))
  }

  predicate FeedbackActive(s: Sensors, b: Backend) {
    if Fused(b) then ControlStateActive(s) else s.localPos.isActive && s.localVel.isActive
  }

  predicate Settled(s: Sensors, b: Backend) {
    Abs(World(s, b).vel.z) <= TOUCHDOWN_VELOCITY_THRESHOLD && World(s, b).pos.z <= GROUND_ALTITUDE
  }

  function ConfirmedFrames(frames: nat, s: Sensors, b: Backend): nat {
    if !FeedbackActive(s, b) then 0
    else if !PoseNew(s, b) then frames
    else if !Settled(s, b) then 0
    else if frames < CONSECUTIVE_SETTLED_FRAMES then frames + 1
    else frames
  }

  /** The confirmed vehicle may be asked, or may report, that it is disarmed. */
  predicate TouchdownReady(d: Landing, frames: nat, s: Sensors, b: Backend) {
    && !d.posted && frames >= CONSECUTIVE_SETTLED_FRAMES
    && FeedbackActive(s, b) && s.fcu.isActive && s.connected
  }

  function LandingTick(d: Landing, s: Sensors, b: Backend, now: int, elapsed: int): Ticked<Landing> {
    var vz := if PoseNew(s, b) then DescentVelocity(World(s, b).pos.z) else d.vz;
    var frames := if d.posted then d.frames else ConfirmedFrames(d.frames, s, b);
    var ready := TouchdownReady(d, frames, s, b);
    var down := ready && !s.armed && s.fcu.isNew;
    var ask := ready && s.armed && !d.disarmed;
    Ticked(Landing(vz, d.limit, frames, d.posted || down, d.reported || elapsed >= d.limit, d.disarmed || ask,
                   if d.log.Elapsed(now) < LOG_INTERVAL then d.log else d.log.Reset(now),
                   d.publish.Ran(now, SETPOINT_INTERVAL)),
           Publishing(d.publish, now) + if ask then [ArmRequest(now, false)] else [],
           if down then [Touchdown] else [])
  }

  /** The shared setpoint after a tick: the landing one, when it is published. */
  function LandingTickSetpoint(d: Landing, s: Sensors, b: Backend, now: int, sp: Setpoint): Setpoint {
    if d.publish.Runs(now, SETPOINT_INTERVAL)
    then LandingSetpoint(if PoseNew(s, b) then DescentVelocity(World(s, b).pos.z) else d.vz)
    else sp
  }

  function LandingWake(d: Landing): Option<int> {
    Earlier(d.publish.DueAfter(SETPOINT_INTERVAL), d.log.DueAfter(LOG_INTERVAL))
  }

  class LandingState {
    var vz: real
    var limit: int
    var frames: nat
    var posted: bool
    var reported: bool
    var disarmed: bool
    var logTimer: Timer
    var publishTimer: Timer

    ghost function View(): Landing
      reads this
    {
      Landing(vz, limit, frames, posted, reported, disarmed, logTimer, publishTimer)
    }

    constructor () {
      vz, limit, frames := 0.0, Ceil(LANDING_TIMEOUT * 1000000000.0), 0;
      posted, reported, disarmed, logTimer, publishTimer := false, false, false, STOPPED, STOPPED;
    }

    method OnEnter(ctl: Controller)
      modifies this, ctl`effects, ctl`setpoint, ctl`custom1Requested
      ensures View() == LandingEntered(ctl.sensors, ctl.cfg.backend, ctl.now)
      ensures ctl.setpoint == LandingSetpoint(vz) && !ctl.custom1Requested
      ensures ctl.effects == old(ctl.effects) + [SetpointOut(ctl.now)]
    {
      ctl.custom1Requested := false;
      var z := World(ctl.sensors, ctl.cfg.backend).pos.z;
      limit := LandingLimit(z);
      vz := DescentVelocity(z);
      ctl.setpoint := LandingSetpoint(vz);
      ctl.EmitEffect(SetpointOut(ctl.now));
      publishTimer := publishTimer.Start(ctl.now);
      logTimer := logTimer.Start(ctl.now);
      posted, reported, disarmed, frames := false, false, false, 0;
    }

    method OnTick(ctl: Controller)
      modifies this, ctl`effects, ctl`signals, ctl`diagnostics, ctl`setpoint
      ensures var t := LandingTick(old(View()), ctl.sensors, ctl.cfg.backend, ctl.now, ctl.now - ctl.enteredAt);
              && View() == t.leaf
              && ctl.effects == old(ctl.effects) + t.effects
              && ctl.signals == old(ctl.signals) + t.signals
              && ctl.diagnostics == old(ctl.diagnostics) + Signalled(t.signals)
      ensures ctl.setpoint ==
              LandingTickSetpoint(old(View()), ctl.sensors, ctl.cfg.backend, ctl.now, old(ctl.setpoint))
    {
      UpdateDescentVelocity(ctl);
      PublishSetpoint(ctl);
      LogAndReportTimeout(ctl);
      UpdateTouchdownConfirmation(ctl);
      PostTouchdownOnce(ctl);
    }

    method UpdateDescentVelocity(ctl: Controller)
      modifies this`vz
      ensures vz == if PoseNew(ctl.sensors, ctl.cfg.backend)
                    then DescentVelocity(World(ctl.sensors, ctl.cfg.backend).pos.z) else old(vz)
    {
      if PoseNew(ctl.sensors, ctl.cfg.backend) {
        vz := DescentVelocity(World(ctl.sensors, ctl.cfg.backend).pos.z);
      }
    }

    method PublishSetpoint(ctl: Controller)
      modifies this`publishTimer, ctl`effects, ctl`setpoint
      ensures publishTimer == old(publishTimer).Ran(ctl.now, SETPOINT_INTERVAL)
      ensures ctl.effects == old(ctl.effects) + Publishing(old(publishTimer), ctl.now)
      ensures ctl.setpoint == if old(publishTimer).Runs(ctl.now, SETPOINT_INTERVAL)
                              then LandingSetpoint(vz) else old(ctl.setpoint)
    {
      if publishTimer.Runs(ctl.now, SETPOINT_INTERVAL) {
        ctl.setpoint := LandingSetpoint(vz);
      }
      publishTimer := ctl.PublishIfDue(publishTimer);
    }

    method LogAndReportTimeout(ctl: Controller)
      modifies this`logTimer, this`reported
      ensures logTimer == if old(logTimer).Elapsed(ctl.now) < LOG_INTERVAL then old(logTimer)
                          else old(logTimer).Reset(ctl.now)
      ensures reported == (old(reported) || ctl.now - ctl.enteredAt >= limit)
    {
      if logTimer.Elapsed(ctl.now) >= LOG_INTERVAL {
        logTimer := logTimer.Reset(ctl.now);
      }
      if !reported && ctl.now - ctl.enteredAt >= limit {
        reported := true;
      }
    }

    method UpdateTouchdownConfirmation(ctl: Controller)
      modifies this`frames
      ensures frames == if posted then old(frames) else ConfirmedFrames(old(frames), ctl.sensors, ctl.cfg.backend)
    {
      if posted {
        return;
      }
      if !FeedbackActive(ctl.sensors, ctl.cfg.backend) {
        frames := 0;
        return;
      }
      if !PoseNew(ctl.sensors, ctl.cfg.backend) {
        return;
      }
      if !Settled(ctl.sensors, ctl.cfg.backend) {
        frames := 0;
        return;
      }
      if frames < CONSECUTIVE_SETTLED_FRAMES {
        frames := frames + 1;
      }
    }

    method PostTouchdownOnce(ctl: Controller)
      modifies this`posted, this`disarmed, ctl`effects, ctl`signals, ctl`diagnostics
      ensures var ready := TouchdownReady(old(View()), frames, ctl.sensors, ctl.cfg.backend);
              var down := ready && !ctl.sensors.armed && ctl.sensors.fcu.isNew;
              var ask := ready && ctl.sensors.armed && !old(disarmed);
              && posted == (old(posted) || down) && disarmed == (old(disarmed) || ask)
              && ctl.effects == old(ctl.effects) + (if ask then [ArmRequest(ctl.now, false)] else [])
              && ctl.signals == old(ctl.signals) + (if down then [Touchdown] else [])
              && ctl.diagnostics == old(ctl.diagnostics) + Signalled(if down then [Touchdown] else [])
    {
      if posted || frames < CONSECUTIVE_SETTLED_FRAMES {
        return;
      }
      if !FeedbackActive(ctl.sensors, ctl.cfg.backend) || !ctl.sensors.fcu.isActive || !ctl.sensors.connected {
        return;
      }
      if !ctl.sensors.armed {
        if !ctl.sensors.fcu.isNew {
          return;
        }
        posted := true;
        ctl.EmitSignal(Touchdown);
        return;
      }
      if !disarmed {
        ctl.EmitEffect(ArmRequest(ctl.now, false));
        disarmed := true;
      }
    }
  }
}
