/** The four takeoff leaves: ALTCTL gate, OFFBOARD request, arm request and ascent. */
module TakeoffStates {
  import opened Options
  import opened Ticks
  import opened Sensors
  import opened FlightTypes

  const REQUIRED_ALTCTL_FRAMES: nat := 2
  const REQUIRED_OFFBOARD_FRAMES: nat := 1
  const REQUIRED_ARM_FRAMES: nat := 1
  const CONSECUTIVE_SETTLED_FRAMES: nat := 5
  const REQUEST_INTERVAL: int := 3 * SECOND
  const STATUS_LOG_INTERVAL: int := SECOND
  const ASCENDING_TIMEOUT: int := 30 * SECOND
  const ALTITUDE_THRESHOLD := 0.1
  const VELOCITY_THRESHOLD := 0.05
  const TAKEOFF_POSITION_MASK: bv16 := 0xFF8

  /** A frame counter: a fresh frame either counts, up to `required`, or starts the count again. */
  function Counted(frames: nat, required: nat, isNew: bool, good: bool): nat {
    if !isNew then frames else if !good then 0 else if frames < required then frames + 1 else frames
  }

  function Requests(t: Timer, now: int, request: Effect): seq<Effect> {
    if t.Elapsed(now) >= REQUEST_INTERVAL then [request] else []
  }

  function AfterRequest(t: Timer, now: int): Timer {
    if t.Elapsed(now) >= REQUEST_INTERVAL then t.Reset(now) else t
  }

  // ----------------------------------------------------------- TakeoffInit

  datatype Init = Init(skip: bool, posted: bool, frames: nat, altctl: Timer, publish: Timer)

  function InitEntered(cfg: Config, now: int): Init {
    Init(cfg.skipAltctlGate, false, if cfg.skipAltctlGate then REQUIRED_ALTCTL_FRAMES else 0,
         if cfg.skipAltctlGate then STOPPED else STOPPED.Start(now), STOPPED.Start(now))
  }

  function InitEntry(cfg: Config, now: int): seq<Effect> {
    [SetpointOut(now)] + if cfg.skipAltctlGate then [] else [ArmRequest(now, false)]
  }

  /** Hold the horizontal position and climb to the configured altitude, or stay if already above it. */
  function TakeoffSetpoint(cfg: Config, s: Sensors): Setpoint {
    var p := World(s, cfg.backend).pos;
    Setpoint(Vec3(p.x, p.y, if cfg.takeoffAltitude < p.z then p.z else cfg.takeoffAltitude),
             ZERO3, ZERO3, TAKEOFF_POSITION_MASK)
  }

  function InitTick(d: Init, s: Sensors, now: int): Ticked<Init> {
    var frames := if d.skip then d.frames
                  else Counted(d.frames, REQUIRED_ALTCTL_FRAMES, s.fcu.isNew, s.mode == ALTCTL);
    var post := !d.posted && frames >= REQUIRED_ALTCTL_FRAMES;
    Ticked(Init(d.skip, d.posted || post, frames,
                if d.skip then d.altctl else AfterRequest(d.altctl, now),
                d.publish.Ran(now, SETPOINT_INTERVAL)),
           Publishing(d.publish, now) +
             if d.skip then [] else Requests(d.altctl, now, ModeRequest(now, ALTCTL)),
           if post then [AltctlReady] else [])
  }

  function InitWake(d: Init): Option<int> {
    var due := d.publish.DueAfter(SETPOINT_INTERVAL);
    if d.skip then due else Earlier(due, d.altctl.DueAfter(REQUEST_INTERVAL))
  }

  class TakeoffInitState {
    var skip: bool
    var posted: bool
    var frames: nat
    var altctlTimer: Timer
    var publishTimer: Timer

    ghost function View(): Init
      reads this
    {
      Init(skip, posted, frames, altctlTimer, publishTimer)
    }

    constructor () {
      skip, posted, frames, altctlTimer, publishTimer := false, false, 0, STOPPED, STOPPED;
    }

    /** Construction of the state value followed by its entry action. */
    method OnEnter(ctl: Controller)
      modifies this, ctl`setpoint, ctl`effects
      ensures View() == InitEntered(ctl.cfg, ctl.now)
      ensures ctl.setpoint == TakeoffSetpoint(ctl.cfg, ctl.sensors)
      ensures ctl.effects == old(ctl.effects) + InitEntry(ctl.cfg, ctl.now)
    {
      altctlTimer, publishTimer := STOPPED, STOPPED;
      skip := ctl.cfg.skipAltctlGate;
      frames := if skip then REQUIRED_ALTCTL_FRAMES else 0;
      posted := false;
      ctl.setpoint := TakeoffSetpoint(ctl.cfg, ctl.sensors);
      ctl.EmitEffect(SetpointOut(ctl.now));
      publishTimer := publishTimer.Start(ctl.now);
      if !skip {
        ctl.EmitEffect(ArmRequest(ctl.now, false));
        altctlTimer := altctlTimer.Start(ctl.now);
      }
    }

    method OnTick(ctl: Controller)
      modifies this, ctl`effects, ctl`signals, ctl`diagnostics
      ensures var t := InitTick(old(View()), ctl.sensors, ctl.now);
              && View() == t.leaf
              && ctl.effects == old(ctl.effects) + t.effects
              && ctl.signals == old(ctl.signals) + t.signals
              && ctl.diagnostics == old(ctl.diagnostics) + Signalled(t.signals)
    {
      publishTimer := ctl.PublishIfDue(publishTimer);
      if !skip {
        if altctlTimer.Elapsed(ctl.now) >= REQUEST_INTERVAL {
          ctl.EmitEffect(ModeRequest(ctl.now, ALTCTL));
          altctlTimer := altctlTimer.Reset(ctl.now);
        }
        if ctl.sensors.fcu.isNew {
          if ctl.sensors.mode == ALTCTL {
            if frames < REQUIRED_ALTCTL_FRAMES { frames := frames + 1; }
          } else {
            frames := 0;
          }
        }
      }
      if !posted && frames >= REQUIRED_ALTCTL_FRAMES {
        posted := true;
        ctl.EmitSignal(AltctlReady);
      }
    }
  }

  // ----------------------------------------------- TakeoffOffboardRequest

  datatype Offboard = Offboard(posted: bool, frames: nat, request: Timer, publish: Timer)

  function OffboardEntered(now: int): Offboard {
    Offboard(false, 0, STOPPED.Start(now), STOPPED.Start(now))
  }

  function OffboardTick(d: Offboard, s: Sensors, now: int): Ticked<Offboard> {
    var frames := Counted(d.frames, REQUIRED_OFFBOARD_FRAMES, s.fcu.isNew, s.mode == OFFBOARD);
    var post := !d.posted && frames >= REQUIRED_OFFBOARD_FRAMES;
    Ticked(Offboard(d.posted || post, frames, AfterRequest(d.request, now), d.publish.Ran(now, SETPOINT_INTERVAL)),
           Publishing(d.publish, now) + Requests(d.request, now, ModeRequest(now, OFFBOARD)),
           if post then [OffboardReady] else [])
  }

  function OffboardWake(d: Offboard): Option<int> {
    Earlier(d.publish.DueAfter(SETPOINT_INTERVAL), d.request.DueAfter(REQUEST_INTERVAL))
  }

  class TakeoffOffboardRequestState {
    var posted: bool
    var frames: nat
    var requestTimer: Timer
    var publishTimer: Timer

    ghost function View(): Offboard
      reads this
    {
      Offboard(posted, frames, requestTimer, publishTimer)
    }

    constructor () {
      posted, frames, requestTimer, publishTimer := false, 0, STOPPED, STOPPED;
    }

    method OnEnter(ctl: Controller)
      modifies this, ctl`effects
      ensures View() == OffboardEntered(ctl.now)
      ensures ctl.effects == old(ctl.effects) + [SetpointOut(ctl.now)]
    {
      frames, posted := 0, false;
      ctl.EmitEffect(SetpointOut(ctl.now));
      publishTimer := publishTimer.Start(ctl.now);
      requestTimer := requestTimer.Start(ctl.now);
    }

    method OnTick(ctl: Controller)
      modifies this, ctl`effects, ctl`signals, ctl`diagnostics
      ensures var t := OffboardTick(old(View()), ctl.sensors, ctl.now);
              && View() == t.leaf
              && ctl.effects == old(ctl.effects) + t.effects
              && ctl.signals == old(ctl.signals) + t.signals
              && ctl.diagnostics == old(ctl.diagnostics) + Signalled(t.signals)
    {
      publishTimer := ctl.PublishIfDue(publishTimer);
      if requestTimer.Elapsed(ctl.now) >= REQUEST_INTERVAL {
        ctl.EmitEffect(ModeRequest(ctl.now, OFFBOARD));
        requestTimer := requestTimer.Reset(ctl.now);
      }
      if ctl.sensors.fcu.isNew {
        if ctl.sensors.mode == OFFBOARD {
          if frames < REQUIRED_OFFBOARD_FRAMES { frames := frames + 1; }
        } else {
          frames := 0;
        }
      }
      if !posted && frames >= REQUIRED_OFFBOARD_FRAMES {
        posted := true;
        ctl.EmitSignal(OffboardReady);
      }
    }
  }

  // ---------------------------------------------------- TakeoffArmRequest

  datatype Arm = Arm(posted: bool, frames: nat, request: Timer, publish: Timer)

  function ArmEntered(now: int): Arm {
    Arm(false, 0, STOPPED.Start(now), STOPPED.Start(now))
  }

  function ArmTick(d: Arm, s: Sensors, now: int): Ticked<Arm> {
    var frames := Counted(d.frames, REQUIRED_ARM_FRAMES, s.fcu.isNew, s.armed);
    var post := !d.posted && frames >= REQUIRED_ARM_FRAMES;
    Ticked(Arm(d.posted || post, frames, AfterRequest(d.request, now), d.publish.Ran(now, SETPOINT_INTERVAL)),
           Publishing(d.publish, now) + Requests(d.request, now, ArmRequest(now, true)),
           if post then [ArmReady] else [])
  }

  function ArmWake(d: Arm): Option<int> {
    Earlier(d.publish.DueAfter(SETPOINT_INTERVAL), d.request.DueAfter(REQUEST_INTERVAL))
  }

  class TakeoffArmRequestState {
    var posted: bool
    var frames: nat
    var requestTimer: Timer
    var publishTimer: Timer

    ghost function View(): Arm
      reads this
    {
      Arm(posted, frames, requestTimer, publishTimer)
    }

    constructor () {
      posted, frames, requestTimer, publishTimer := false, 0, STOPPED, STOPPED;
    }

    method OnEnter(ctl: Controller)
      modifies this, ctl`effects
      ensures View() == ArmEntered(ctl.now)
      ensures ctl.effects == old(ctl.effects) + [SetpointOut(ctl.now)]
    {
      frames, posted := 0, false;
      ctl.EmitEffect(SetpointOut(ctl.now));
      publishTimer := publishTimer.Start(ctl.now);
      requestTimer := requestTimer.Start(ctl.now);
    }

    method OnTick(ctl: Controller)
      modifies this, ctl`effects, ctl`signals, ctl`diagnostics
      ensures var t := ArmTick(old(View()), ctl.sensors, ctl.now);
              && View() == t.leaf
              && ctl.effects == old(ctl.effects) + t.effects
              && ctl.signals == old(ctl.signals) + t.signals
              && ctl.diagnostics == old(ctl.diagnostics) + Signalled(t.signals)
    {
      publishTimer := ctl.PublishIfDue(publishTimer);
      if requestTimer.Elapsed(ctl.now) >= REQUEST_INTERVAL {
        ctl.EmitEffect(ArmRequest(ctl.now, true));
        requestTimer := requestTimer.Reset(ctl.now);
      }
      if ctl.sensors.fcu.isNew {
        if ctl.sensors.armed {
          if frames < REQUIRED_ARM_FRAMES { frames := frames + 1; }
        } else {
          frames := 0;
        }
      }
      if !posted && frames >= REQUIRED_ARM_FRAMES {
        posted := true;
        ctl.EmitSignal(ArmReady);
      }
    }
  }

  // ------------------------------------------------------ TakeoffAscending

  datatype Ascent = Ascent(reached: bool, timedOut: bool, frames: nat, log: Timer, publish: Timer)

  function AscentEntered(now: int): Ascent {
    Ascent(false, false, 0, STOPPED.Start(now), STOPPED.Start(now))
  }

  /** Within the altitude band on either side of the target, and slow. */
  predicate AtAltitude(s: Sensors, b: Backend, target: real) {
    Abs(World(s, b).pos.z - target) <= ALTITUDE_THRESHOLD && Abs(World(s, b).vel.z) < VELOCITY_THRESHOLD
  }

  function Logged(t: Timer, now: int, interval: int): Timer {
    if t.Elapsed(now) >= interval then t.Reset(now) else t
  }

  function AscentTick(d: Ascent, s: Sensors, b: Backend, target: real, now: int, elapsed: int): Ticked<Ascent> {
    var log, publish := Logged(d.log, now, STATUS_LOG_INTERVAL), d.publish.Ran(now, SETPOINT_INTERVAL);
    var late := elapsed > ASCENDING_TIMEOUT;
    if d.timedOut || late then
      Ticked(Ascent(d.reached, true, d.frames, log, publish), Publishing(d.publish, now),
             if d.timedOut then [] else [TakeoffTimeout])
    else
      var frames := if d.reached then d.frames
                    else Counted(d.frames, CONSECUTIVE_SETTLED_FRAMES, PoseNew(s, b), AtAltitude(s, b, target));
      var post := !d.reached && frames >= CONSECUTIVE_SETTLED_FRAMES;
      Ticked(Ascent(d.reached || post, false, frames, log, publish), Publishing(d.publish, now),
             if post then [AltitudeReached] else [])
  }

  function AscentWake(d: Ascent): Option<int> {
    Earlier(d.publish.DueAfter(SETPOINT_INTERVAL), d.log.DueAfter(STATUS_LOG_INTERVAL))
  }

  class TakeoffAscendingState {
    var reached: bool
    var timedOut: bool
    var frames: nat
    var logTimer: Timer
    var publishTimer: Timer

    ghost function View(): Ascent
      reads this
    {
      Ascent(reached, timedOut, frames, logTimer, publishTimer)
    }

    constructor () {
      reached, timedOut, frames, logTimer, publishTimer := false, false, 0, STOPPED, STOPPED;
    }

    method OnEnter(ctl: Controller)
      modifies this, ctl`effects
      ensures View() == AscentEntered(ctl.now)
      ensures ctl.effects == old(ctl.effects) + [SetpointOut(ctl.now)]
    {
      reached, timedOut, frames := false, false, 0;
      ctl.EmitEffect(SetpointOut(ctl.now));
      publishTimer := publishTimer.Start(ctl.now);
      logTimer := logTimer.Start(ctl.now);
    }

    method OnTick(ctl: Controller)
      modifies this, ctl`effects, ctl`signals, ctl`diagnostics
      ensures var t := AscentTick(old(View()), ctl.sensors, ctl.cfg.backend, ctl.setpoint.pos.z, ctl.now,
                                  ctl.now - ctl.enteredAt);
              && View() == t.leaf
              && ctl.effects == old(ctl.effects) + t.effects
              && ctl.signals == old(ctl.signals) + t.signals
              && ctl.diagnostics == old(ctl.diagnostics) + Signalled(t.signals)
    {
      publishTimer := ctl.PublishIfDue(publishTimer);
      if logTimer.Elapsed(ctl.now) >= STATUS_LOG_INTERVAL {
        logTimer := logTimer.Reset(ctl.now);
      }
      if timedOut {
        return;
      }
      if ctl.now - ctl.enteredAt > ASCENDING_TIMEOUT {
        timedOut := true;
        ctl.EmitSignal(TakeoffTimeout);
        return;
      }
      if !reached && PoseNew(ctl.sensors, ctl.cfg.backend) {
        if AtAltitude(ctl.sensors, ctl.cfg.backend, ctl.setpoint.pos.z) {
          if frames < CONSECUTIVE_SETTLED_FRAMES { frames := frames + 1; }
        } else {
          frames := 0;
        }
      }
      if !reached && frames >= CONSECUTIVE_SETTLED_FRAMES {
        reached := true;
        ctl.EmitSignal(AltitudeReached);
      }
    }

    /** Commands that did not cause a transition: Track is latched until a reference is ready. */
    method OnEvent(ctl: Controller, c: Command)
      modifies ctl`custom1Requested
      ensures ctl.custom1Requested == (old(ctl.custom1Requested) || c == Track)
    {
      if c == Track {
        ctl.custom1Requested := true;
      }
    }
  }
}
