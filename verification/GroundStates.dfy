/** The leaves without a flight behind them (self check, ready) and the hover leaf. */
module GroundStates {
  import opened Ticks
  import opened Sensors
  import opened FlightTypes

  const SELF_CHECK_LOG_INTERVAL: int := 2 * SECOND
  const HOVER_MASK: bv16 := 0xDC0
  const HOVER_MASK_WITH_YAW: bv16 := 0x9C0

  // ------------------------------------------------------------ SelfCheck

  function SelfCheckTick(log: Timer, now: int): Timer {
    if log.Elapsed(now) >= SELF_CHECK_LOG_INTERVAL then log.Reset(now) else log
  }

  class SelfCheckState {
    var logTimer: Timer

    constructor () {
      logTimer := STOPPED;
    }

    method OnEnter(ctl: Controller)
      modifies this
      ensures logTimer == STOPPED.Start(ctl.now)
    {
      logTimer := logTimer.Start(ctl.now);
    }

    method OnTick(ctl: Controller)
      modifies this
      ensures logTimer == SelfCheckTick(old(logTimer), ctl.now)
    {
      if logTimer.Elapsed(ctl.now) >= SELF_CHECK_LOG_INTERVAL {
        logTimer := logTimer.Reset(ctl.now);
      }
    }
  }

  // ---------------------------------------------------------------- Ready

  /** Entering Ready asks for a disarm, unless the vehicle looks airborne. */
  function ReadyEntry(s: Sensors, b: Backend, now: int): seq<Effect> {
    if Airborne(s, b) then [] else [ArmRequest(now, false)]
  }

  class ReadyState {
    constructor () {
    }

    method OnEnter(ctl: Controller)
      modifies ctl`effects
      ensures ctl.effects == old(ctl.effects) + ReadyEntry(ctl.sensors, ctl.cfg.backend, ctl.now)
    {
      if !Airborne(ctl.sensors, ctl.cfg.backend) {
        ctl.EmitEffect(ArmRequest(ctl.now, false));
      }
    }
  }

  // ---------------------------------------------------------------- Hover

  function HoverSetpoint(cfg: Config, s: Sensors): Setpoint {
    Setpoint(World(s, cfg.backend).pos, ZERO3, ZERO3, if cfg.yawControl then HOVER_MASK_WITH_YAW else HOVER_MASK)
  }

  class HoverState {
    var publishTimer: Timer

    constructor () {
      publishTimer := STOPPED;
    }

    method OnEnter(ctl: Controller)
      modifies this, ctl`effects, ctl`setpoint
      ensures publishTimer == STOPPED.Start(ctl.now)
      ensures ctl.setpoint == HoverSetpoint(ctl.cfg, ctl.sensors)
      ensures ctl.effects == old(ctl.effects) + [SetpointOut(ctl.now)]
    {
      var mask := HOVER_MASK;
      if ctl.cfg.yawControl {
        mask := HOVER_MASK_WITH_YAW;
      }
      ctl.setpoint := Setpoint(World(ctl.sensors, ctl.cfg.backend).pos, ZERO3, ZERO3, mask);
      ctl.EmitEffect(SetpointOut(ctl.now));
      publishTimer := publishTimer.Start(ctl.now);
    }

    method OnTick(ctl: Controller)
      modifies this, ctl`effects
      ensures publishTimer == old(publishTimer).Ran(ctl.now, SETPOINT_INTERVAL)
      ensures ctl.effects == old(ctl.effects) + Publishing(old(publishTimer), ctl.now)
    {
      publishTimer := ctl.PublishIfDue(publishTimer);
    }

    /** Commands that did not cause a transition: Track is latched until a reference is ready. */
    method OnEvent(ctl: Controller, c: Command)
      modifies ctl`custom1Requested
      ensures ctl.custom1Requested == (old(ctl.custom1Requested) || c == Track)
    {
      if c == Track {
        ctl.custom1Requested := true;
      }
    }
  }
}
