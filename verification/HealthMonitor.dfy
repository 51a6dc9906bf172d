/** The health monitor: edge-triggered safety signals and the cached position distance. */
module HealthMonitor {
  import opened Options
  import opened Ticks
  import opened Sensors
  import opened FlightTypes

  const DISTANCE_LIMIT := 1.0

  /** The last comparison of the canonical pose with the local pose; unavailable before both were seen. */
  datatype Distance = Distance(available: bool, exceeded: bool)

  /** Which watched streams were active at the last tick. */
  datatype Activity = Activity(estimate: bool, localPos: bool, localVel: bool, imu: bool, fcu: bool)

  /** Which limits the last new pose exceeded. */
  datatype Limits = Limits(fence: bool, fastXY: bool, fastZ: bool)

  /** How long the control state has been unusable: `since` is -1 while it is not. */
  datatype Estimate = Estimate(unusable: bool, since: int)

  /** The position comparison and which of the two poses have been received at all. */
  datatype Comparison = Comparison(distance: Distance, sawCanonical: bool, sawLocal: bool)

  datatype Health = Health(activity: Activity, limits: Limits, estimate: Estimate, comparison: Comparison)

  const FRESH_HEALTH :=
    Health(Activity(false, false, false, false, false), Limits(false, false, false), Estimate(false, -1),
           Comparison(Distance(false, false), false, false))

  predicate FarApart(p: Vec3, q: Vec3) {
    var dx, dy, dz := p.x - q.x, p.y - q.y, p.z - q.z;
    dx * dx + dy * dy + dz * dz > DISTANCE_LIMIT * DISTANCE_LIMIT
  }

  function Compared(c: Comparison, s: Sensors): Comparison {
    var canonical, local := c.sawCanonical || s.canonicalPose.isNew, c.sawLocal || s.localPos.isNew;
    Comparison(
      if (s.canonicalPose.isNew || s.localPos.isNew) && canonical && local
      then Distance(true, FarApart(s.canonical, s.local.pos)) else c.distance,
      canonical, local)
  }

  /** The control state is being received but must not be used. */
  predicate Unusable(s: Sensors, cfg: Config) {
    Fused(cfg.backend) && ControlStateActive(s) && !ControlStateUsable(s)
  }

  function Estimated(e: Estimate, unusable: bool, now: int, tripDelay: int): Estimate {
    var since := if !unusable then -1 else if e.since < 0 then now else e.since;
    Estimate(unusable && (if since >= 0 then now - since else 0) >= tripDelay, since)
  }

  predicate OutsideFence(s: Sensors, cfg: Config) {
    cfg.bounds.Some? && cfg.bounds.value.Outside(World(s, cfg.backend).pos)
  }

  predicate TooFastXY(s: Sensors, cfg: Config) {
    LongerThan(World(s, cfg.backend).vel.x, World(s, cfg.backend).vel.y, cfg.maxVelXy)
  }

  predicate TooFastZ(s: Sensors, cfg: Config) {
    Abs(World(s, cfg.backend).vel.z) > cfg.maxVelZ
  }

  predicate WatchesEstimate(s: Sensors, cfg: Config) {
    Fused(cfg.backend) && s.source == RigidEstimate
  }

  predicate WatchesLocal(s: Sensors, cfg: Config) {
    Fused(cfg.backend) && s.source == MavrosLocal
  }

  function If(raised: bool, signal: Signal): seq<Signal> {
    if raised then [signal] else []
  }

  predicate Lost(watched: bool, was: bool, stats: Stats) {
    watched && was && !stats.isActive
  }

  function ActivitySignals(a: Activity, s: Sensors, cfg: Config): seq<Signal> {
    var e, l := WatchesEstimate(s, cfg), WatchesLocal(s, cfg);
    If(Lost(e, a.estimate, s.estimate), TimeoutEstimate) +
    (If(Lost(l, a.localPos, s.localPos), TimeoutLocalPosition) +
     (If(Lost(l, a.localVel, s.localVel), TimeoutLocalVelocity) +
      (If(Lost(l, a.imu, s.imu), TimeoutImu) +
       If(Lost(true, a.fcu, s.fcu), TimeoutFcuState))))
  }

  function ActivityAfter(a: Activity, s: Sensors, cfg: Config): Activity {
    var e, l := WatchesEstimate(s, cfg), WatchesLocal(s, cfg);
    Activity(if e then s.estimate.isActive else a.estimate,
             if l then s.localPos.isActive else a.localPos,
             if l then s.localVel.isActive else a.localVel,
             if l then s.imu.isActive else a.imu,
             s.fcu.isActive)
  }

  function LimitSignals(m: Limits, s: Sensors, cfg: Config): seq<Signal> {
    if !PoseNew(s, cfg.backend) then []
    else
      If(!m.fence && OutsideFence(s, cfg), Geofence) +
      (If(!m.fastXY && TooFastXY(s, cfg), VelocityXY) +
       If(!m.fastZ && TooFastZ(s, cfg), VelocityZ))
  }

  function LimitsAfter(m: Limits, s: Sensors, cfg: Config): Limits {
    if !PoseNew(s, cfg.backend) then m
    else Limits(OutsideFence(s, cfg), TooFastXY(s, cfg), TooFastZ(s, cfg))
  }

  /** The monitor after a tick. */
  function HealthAfter(h: Health, s: Sensors, cfg: Config, now: int): Health {
    Health(ActivityAfter(h.activity, s, cfg), LimitsAfter(h.limits, s, cfg),
           Estimated(h.estimate, Unusable(s, cfg), now, cfg.tripDelay), Compared(h.comparison, s))
  }

  /** Everything a tick raises, in order. */
  function HealthSignals(h: Health, s: Sensors, cfg: Config, now: int): seq<Signal> {
    var tripped := Estimated(h.estimate, Unusable(s, cfg), now, cfg.tripDelay).unusable;
    ActivitySignals(h.activity, s, cfg) +
    (If(!h.estimate.unusable && tripped, EstimateUnusable) + LimitSignals(h.limits, s, cfg))
  }

  function HealthWake(h: Health, cfg: Config): Option<int> {
    if h.estimate.unusable || h.estimate.since < 0 then None else Some(DueAt(h.estimate.since, cfg.tripDelay))
  }

  /** The signals one delivered IMU message raises, from the current setpoint. */
  function ImuSignals(sp: Setpoint, cfg: Config): seq<Signal> {
    if cfg.backend != Px4Local then []
    else If(LongerThan(sp.acc.x, sp.acc.y, cfg.maxAccXy), SaturationXY) + If(Abs(sp.acc.z) > cfg.maxAccZ, SaturationZ)
  }

  class HealthMonitorState {
    var activity: Activity
    var limits: Limits
    var estimate: Estimate
    var comparison: Comparison

    ghost function View(): Health
      reads this
    {
      Health(activity, limits, estimate, comparison)
    }

    constructor ()
      ensures View() == FRESH_HEALTH
    {
      activity := Activity(false, false, false, false, false);
      limits, estimate := Limits(false, false, false), Estimate(false, -1);
      comparison := Comparison(Distance(false, false), false, false);
    }

    method OnTick(ctl: Controller)
      modifies this, ctl`signals, ctl`diagnostics
      ensures View() == HealthAfter(old(View()), ctl.sensors, ctl.cfg, ctl.now)
      ensures var raised := HealthSignals(old(View()), ctl.sensors, ctl.cfg, ctl.now);
              && ctl.signals == old(ctl.signals) + raised
              && ctl.diagnostics == old(ctl.diagnostics) + Signalled(raised)
    {
      CompareDistance(ctl.sensors);
      var a := CheckActivity(ctl.sensors, ctl.cfg);
      var e := CheckEstimate(ctl.sensors, ctl.cfg, ctl.now);
      var p := CheckPose(ctl.sensors, ctl.cfg);
      Emit(ctl, a + (e + p));
    }

    /** The turn's signals, in the order in which they were raised. */
    method Emit(ctl: Controller, raised: seq<Signal>)
      modifies ctl`signals, ctl`diagnostics
      ensures ctl.signals == old(ctl.signals) + raised
      ensures ctl.diagnostics == old(ctl.diagnostics) + Signalled(raised)
    {
      for i := 0 to |raised|
        invariant ctl.signals == old(ctl.signals) + raised[..i]
        invariant ctl.diagnostics == old(ctl.diagnostics) + Signalled(raised)[..i]
      {
        ctl.EmitSignal(raised[i]);
      }
    }

    method CompareDistance(s: Sensors)
      modifies this`comparison
      ensures comparison == Compared(old(comparison), s)
    {
      if s.canonicalPose.isNew || s.localPos.isNew {
        comparison := comparison.(sawCanonical := comparison.sawCanonical || s.canonicalPose.isNew,
                                  sawLocal := comparison.sawLocal || s.localPos.isNew);
        if comparison.sawCanonical && comparison.sawLocal {
          comparison := comparison.(distance := Distance(true, FarApart(s.canonical, s.local.pos)));
        }
      }
    }

    method CheckActivity(s: Sensors, cfg: Config) returns (raised: seq<Signal>)
      modifies this`activity
      ensures raised == ActivitySignals(old(activity), s, cfg)
      ensures activity == ActivityAfter(old(activity), s, cfg)
    {
      var e, l := WatchesEstimate(s, cfg), WatchesLocal(s, cfg);
      raised := If(Lost(e, activity.estimate, s.estimate), TimeoutEstimate) +
                (If(Lost(l, activity.localPos, s.localPos), TimeoutLocalPosition) +
                 (If(Lost(l, activity.localVel, s.localVel), TimeoutLocalVelocity) +
                  (If(Lost(l, activity.imu, s.imu), TimeoutImu) +
                   If(Lost(true, activity.fcu, s.fcu), TimeoutFcuState))));
      if e {
        activity := activity.(estimate := s.estimate.isActive);
      }
      if l {
        activity := activity.(localPos := s.localPos.isActive, localVel := s.localVel.isActive,
                              imu := s.imu.isActive);
      }
      activity := activity.(fcu := s.fcu.isActive);
    }

    method CheckEstimate(s: Sensors, cfg: Config, now: int) returns (raised: seq<Signal>)
      modifies this`estimate
      ensures estimate == Estimated(old(estimate), Unusable(s, cfg), now, cfg.tripDelay)
      ensures raised == If(!old(estimate).unusable && estimate.unusable, EstimateUnusable)
    {
      var bad := Unusable(s, cfg);
      if bad && estimate.since < 0 {
        estimate := estimate.(since := now);
      } else if !bad {
        estimate := estimate.(since := -1);
      }
      var duration := if estimate.since >= 0 then now - estimate.since else 0;
      var trip := bad && duration >= cfg.tripDelay;
      raised := [];
      if !estimate.unusable && trip {
        raised := [EstimateUnusable];
      }
      estimate := estimate.(unusable := trip);
    }

    method CheckPose(s: Sensors, cfg: Config) returns (raised: seq<Signal>)
      modifies this`limits
      ensures limits == LimitsAfter(old(limits), s, cfg)
      ensures raised == LimitSignals(old(limits), s, cfg)
    {
      raised := [];
      if PoseNew(s, cfg.backend) {
        var outside, tooFastXY, tooFastZ := OutsideFence(s, cfg), TooFastXY(s, cfg), TooFastZ(s, cfg);
        raised := If(!limits.fence && outside, Geofence) +
                  (If(!limits.fastXY && tooFastXY, VelocityXY) + If(!limits.fastZ && tooFastZ, VelocityZ));
        limits := Limits(outside, tooFastXY, tooFastZ);
      }
    }
  }
}
