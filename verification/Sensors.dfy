/** Sensor data, configuration and the checks that every flight state shares. */
module Sensors {
  import opened Options

  datatype Vec3 = Vec3(x: real, y: real, z: real)

  const ZERO3 := Vec3(0.0, 0.0, 0.0)

  datatype Motion = Motion(pos: Vec3, vel: Vec3)

  /** The part of a topic's receive statistics that the flight states read. */
  datatype Stats = Stats(isActive: bool, isNew: bool)

  datatype FeedbackSource = RigidEstimate | MavrosLocal

  datatype FcuMode = ALTCTL | OFFBOARD | OtherMode

  /**
   estimatorOk summarises the estimator state and its blocking flags, and localUsable the
   finiteness of the local pose and velocity together with a non-degenerate local attitude.
   */
  datatype Sensors = Sensors(
    source: FeedbackSource,
    estimate: Stats, localPos: Stats, localVel: Stats, imu: Stats, fcu: Stats, canonicalPose: Stats,
    estimatorOk: bool, inertialValid: bool, localUsable: bool,
    est: Motion, local: Motion, canonical: Vec3,
    connected: bool, armed: bool, mode: FcuMode,
    paired: Option<Motion>)

  datatype Backend = Px4Local | Smc | PvaSmc | Dfbc | Nmpc

  datatype Bounds = Bounds(lo: Vec3, hi: Vec3) {
    predicate Outside(p: Vec3) {
      p.x < lo.x || p.x > hi.x || p.y < lo.y || p.y > hi.y || p.z < lo.z || p.z > hi.z
    }
  }

  /** Durations are in ticks; planningPeriodNs is negative when the configured period is unusable. */
  datatype Config = Config(
    backend: Backend, zeroOrderHold: bool, plannerStream: bool, skipAltctlGate: bool,
    takeoffAltitude: real, localMask: bv16, yawControl: bool,
    planningPeriodNs: int, controlPeriod: int, solveTimeout: int, resultTimeout: int,
    horizonSpan: int, hoverXyTol: real, hoverZTol: real,
    tripDelay: int, maxVelXy: real, maxVelZ: real, maxAccXy: real, maxAccZ: real,
    bounds: Option<Bounds>)

  predicate Fused(backend: Backend) {
    backend == Nmpc || backend == Dfbc
  }

  predicate ControlStateActive(s: Sensors) {
    if s.source == RigidEstimate then s.estimate.isActive
    else s.localPos.isActive && s.localVel.isActive && s.imu.isActive
  }

  predicate ControlStateNew(s: Sensors) {
    if s.source == RigidEstimate then s.estimate.isNew
    else s.localPos.isNew || s.localVel.isNew || s.imu.isNew
  }

  predicate PoseNew(s: Sensors, b: Backend) {
    if Fused(b) then ControlStateNew(s) else s.localPos.isNew
  }

  predicate PassThroughActive(s: Sensors) {
    s.localPos.isActive && s.localVel.isActive && s.imu.isActive && s.fcu.isActive
  }

  predicate ControlStateUsable(s: Sensors) {
    if s.source == RigidEstimate then s.estimate.isActive && s.estimatorOk
    else ControlStateActive(s) && s.inertialValid && s.localUsable
  }

  predicate SensorsReady(s: Sensors, b: Backend) {
    if Fused(b) then ControlStateActive(s) && s.fcu.isActive && ControlStateUsable(s)
    else PassThroughActive(s)
  }

  /** Position and velocity in the declared control frame of the backend. */
  function World(s: Sensors, b: Backend): Motion {
    if Fused(b) && s.source == RigidEstimate then s.est else s.local
  }

  const AIRBORNE_ALTITUDE := 0.3

  predicate Airborne(s: Sensors, b: Backend) {
    s.armed && World(s, b).pos.z > AIRBORNE_ALTITUDE
  }

  function Abs(x: real): real {
    if x < 0.0 then -x else x
  }

  /** sqrt(x*x + y*y) > limit, without the root. */
  predicate LongerThan(x: real, y: real, limit: real) {
    limit < 0.0 || x * x + y * y > limit * limit
  }

  /** The sensors after the owner of the turn has cleared every freshness flag. */
  function Stale(s: Sensors): Sensors {
    s.(estimate := s.estimate.(isNew := false), localPos := s.localPos.(isNew := false),
       localVel := s.localVel.(isNew := false), imu := s.imu.(isNew := false),
       fcu := s.fcu.(isNew := false), canonicalPose := s.canonicalPose.(isNew := false))
  }

  /** What a turn hands to the vehicle as a local setpoint. */
  datatype Setpoint = Setpoint(pos: Vec3, vel: Vec3, acc: Vec3, mask: bv16)

  const NO_SETPOINT := Setpoint(ZERO3, ZERO3, ZERO3, 0)
}
