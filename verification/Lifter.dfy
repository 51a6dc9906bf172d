/** The kinematic lift of a planner segment to the current time. */
module Lifter {
  import opened Options
  import opened Sensors
  import opened Trajectory

  /** The mask a lift works with: the segment's own, or the default for a zero one, then the yaw bits. */
  function LiftMask(g: Segment, defaultMask: bv16, yaw: bool): bv16 {
    var mask := if g.mask != 0 then g.mask else defaultMask;
    if yaw then mask & (ALL_BITS ^ IGNORE_YAW) else mask | IGNORE_YAW | IGNORE_YAW_RATE
  }

  /** Seconds since the segment took effect, never negative; 0 when either time is missing. */
  function Tau(g: Segment, now: int): (tau: real)
    ensures tau >= 0.0
  {
    if g.time != 0 && now != 0 && g.time < now then (now - g.time) as real / 1000000000.0 else 0.0
  }

  function Unless(ignored: bool, x: real): real {
    if ignored then 0.0 else x
  }

  function PositionAt(p: real, v: real, a: real, tau: real): real {
    p + v * tau + 0.5 * a * tau * tau
  }

  datatype Axis = X | Y | Z

  function Along(v: Vec3, axis: Axis): real {
    match axis case X => v.x case Y => v.y case Z => v.z
  }

  /** One axis of a mask: which of its three fields are ignored. */
  datatype AxisMask = AxisMask(position: bool, velocity: bool, acceleration: bool)

  function OnAxis(mask: bv16, axis: Axis): AxisMask {
    match axis
    case X => AxisMask(Ignored(mask, IGNORE_PX), Ignored(mask, IGNORE_VX), Ignored(mask, IGNORE_AX))
    case Y => AxisMask(Ignored(mask, IGNORE_PY), Ignored(mask, IGNORE_VY), Ignored(mask, IGNORE_AY))
    case Z => AxisMask(Ignored(mask, IGNORE_PZ), Ignored(mask, IGNORE_VZ), Ignored(mask, IGNORE_AZ))
  }

  datatype AxisState = AxisState(pos: real, vel: real, acc: real)

  /** Ignored derivatives do not contribute, and ignored fields come out as zero. */
  function LiftAxis(m: AxisMask, p: real, v: real, a: real, tau: real): AxisState {
    var v', a' := Unless(m.velocity, v), Unless(m.acceleration, a);
    AxisState(Unless(m.position, PositionAt(p, v', a', tau)), Unless(m.velocity, v' + a' * tau), a')
  }

  function LiftOn(g: Segment, mask: bv16, axis: Axis, tau: real): AxisState {
    LiftAxis(OnAxis(mask, axis), Along(g.pos, axis), Along(g.vel, axis), Along(g.acc, axis), tau)
  }

  function Lift(g: Segment, now: int, defaultMask: bv16, yaw: bool): Setpoint {
    if !g.valid then NO_SETPOINT
    else
      var mask, tau := LiftMask(g, defaultMask, yaw), Tau(g, now);
      var x, y, z := LiftOn(g, mask, X, tau), LiftOn(g, mask, Y, tau), LiftOn(g, mask, Z, tau);
      Setpoint(Vec3(x.pos, y.pos, z.pos), Vec3(x.vel, y.vel, z.vel), Vec3(x.acc, y.acc, z.acc), mask)
  }

  /** The lift a tracking backend asks for; None when the segment may not be used now. */
  function LiftForBackend(g: Segment, now: int, cfg: Config): Option<Setpoint> {
    if cfg.backend == Smc || cfg.backend == Dfbc then
      if StageWindowOpen(g, now, cfg.planningPeriodNs) && WorldPva(g.mask, g.frame)
      then Some(Lift(g, now, 0, cfg.backend == Dfbc && cfg.yawControl)) else None
    else if cfg.zeroOrderHold then
      if StageWindowOpen(g, now, cfg.planningPeriodNs)
      then Some(Lift(g, g.time, cfg.localMask, cfg.yawControl)) else None
    else if g.valid then Some(Lift(g, now, cfg.localMask, cfg.yawControl))
    else None
  }

  // ----------------------------------------------------------- properties

  /**
   A windowed lift that succeeds integrates over a time within [0, period], and on every axis it
   hands out the constant-acceleration motion of the segment; nothing is ignored.
   */
  lemma WindowedLift(g: Segment, now: int, cfg: Config)
    requires cfg.backend == Smc || cfg.backend == Dfbc
    requires LiftForBackend(g, now, cfg).Some?
    ensures var sp, tau := LiftForBackend(g, now, cfg).value, Tau(g, now);
            && 0 <= now - g.time <= cfg.planningPeriodNs && tau * 1000000000.0 == (now - g.time) as real
            && sp.pos == Vec3(PositionAt(g.pos.x, g.vel.x, g.acc.x, tau),
                              PositionAt(g.pos.y, g.vel.y, g.acc.y, tau),
                              PositionAt(g.pos.z, g.vel.z, g.acc.z, tau))
            && sp.vel == Vec3(g.vel.x + g.acc.x * tau, g.vel.y + g.acc.y * tau, g.vel.z + g.acc.z * tau)
            && sp.acc == g.acc
  {
    SuppliesEveryAxis(g.mask, false);
    SuppliesEveryAxis(g.mask, cfg.backend == Dfbc && cfg.yawControl);
  }

  /** It succeeds for a world segment with all fields, through its window, and only DFBC passes its yaw on. */
  lemma WindowedLiftSucceeds(g: Segment, now: int, cfg: Config)
    requires cfg.backend == Smc || cfg.backend == Dfbc
    ensures var lifted := LiftForBackend(g, now, cfg);
            && (lifted.Some? <==>
                  && g.valid && g.frame == 1 && g.mask & 0x3FF == 0
                  && g.time != 0 && now != 0 && 0 <= now - g.time <= cfg.planningPeriodNs)
            && (lifted.Some? ==> lifted.value.mask ==
                                 if cfg.backend == Dfbc && cfg.yawControl then g.mask & 0xFBFF else g.mask | 0xC00)
  {
    hide LiftOn, Tau;
  }

  /** A mask that supplies world position, velocity and acceleration still does after the yaw bits are set. */
  lemma SuppliesEveryAxis(mask: bv16, yaw: bool)
    requires !Ignored(mask, IGNORE_PVA)
    ensures var m := if yaw then mask & (ALL_BITS ^ IGNORE_YAW) else mask | IGNORE_YAW | IGNORE_YAW_RATE;
            && !Ignored(m, IGNORE_PX) && !Ignored(m, IGNORE_PY) && !Ignored(m, IGNORE_PZ)
            && !Ignored(m, IGNORE_VX) && !Ignored(m, IGNORE_VY) && !Ignored(m, IGNORE_VZ)
            && !Ignored(m, IGNORE_AX) && !Ignored(m, IGNORE_AY) && !Ignored(m, IGNORE_AZ)
  {
  }

  /** On one axis: the motion of the segment after tau seconds, where the mask leaves the fields. */
  predicate Moves(out: AxisState, p: real, v: real, a: real, tau: real, noP: bool, noV: bool, noA: bool) {
    var v', a' := if noV then 0.0 else v, if noA then 0.0 else a;
    && out.acc == a' && out.vel == (if noV then 0.0 else v + a' * tau)
    && out.pos == if noP then 0.0 else p + v' * tau + 0.5 * a' * tau * tau
  }

  /** A setpoint is the segment after tau seconds, with the fields that the mask ignores at zero. */
  predicate IsMoved(sp: Setpoint, g: Segment, tau: real, mask: bv16) {
    && sp.mask == mask
    && Moves(AxisState(sp.pos.x, sp.vel.x, sp.acc.x), g.pos.x, g.vel.x, g.acc.x, tau,
             mask & 1 != 0, mask & 8 != 0, mask & 64 != 0)
    && Moves(AxisState(sp.pos.y, sp.vel.y, sp.acc.y), g.pos.y, g.vel.y, g.acc.y, tau,
             mask & 2 != 0, mask & 16 != 0, mask & 128 != 0)
    && Moves(AxisState(sp.pos.z, sp.vel.z, sp.acc.z), g.pos.z, g.vel.z, g.acc.z, tau,
             mask & 4 != 0, mask & 32 != 0, mask & 256 != 0)
  }

  /** Seconds since the segment took effect; none when it has no time, or is ahead. */
  predicate IsAge(tau: real, g: Segment, now: int) {
    if g.time != 0 && g.time < now then tau * 1000000000.0 == (now - g.time) as real else tau == 0.0
  }

  /** The mask of the segment, or the default for none, with yaw supplied or ignored as configured. */
  predicate IsMaskFor(mask: bv16, g: Segment, cfg: Config) {
    var base := if g.mask == 0 then cfg.localMask else g.mask;
    mask == if cfg.yawControl then base & 0xFBFF else base | 0xC00
  }

  /**
   The pass-through modes move the segment to the present time, however old it is, or hold it as it was
   at its start for as long as its window is open.
   */
  lemma PassThroughLift(g: Segment, now: int, cfg: Config)
    requires (cfg.backend == Px4Local || cfg.backend == PvaSmc) && now >= 0
    ensures var lifted := LiftForBackend(g, now, cfg);
            && (lifted.Some? <==>
                  g.valid && (cfg.zeroOrderHold ==>
                                g.time != 0 && now != 0 && 0 <= now - g.time <= cfg.planningPeriodNs))
            && (lifted.Some? ==>
                  exists tau, mask ::
                    && IsMoved(lifted.value, g, tau, mask) && IsMaskFor(mask, g, cfg)
                    && if cfg.zeroOrderHold then tau == 0.0 else IsAge(tau, g, now))
  {
    var lifted := LiftForBackend(g, now, cfg);
    if lifted.Some? {
      var t := if cfg.zeroOrderHold then g.time else now;
      LiftMoves(g, t, cfg);
    }
  }

  lemma LiftMoves(g: Segment, t: int, cfg: Config)
    requires g.valid && t >= 0
    ensures var mask, tau := LiftMask(g, cfg.localMask, cfg.yawControl), Tau(g, t);
            && IsMoved(Lift(g, t, cfg.localMask, cfg.yawControl), g, tau, mask)
            && IsMaskFor(mask, g, cfg) && IsAge(tau, g, t)
  {
    var mask, tau := LiftMask(g, cfg.localMask, cfg.yawControl), Tau(g, t);
    MaskIsFor(g, cfg);
    AgeOf(g, t);
    hide LiftMask, Tau, IsAge, IsMaskFor;
    AxisMoves(OnAxis(mask, X), g.pos.x, g.vel.x, g.acc.x, tau);
    AxisMoves(OnAxis(mask, Y), g.pos.y, g.vel.y, g.acc.y, tau);
    AxisMoves(OnAxis(mask, Z), g.pos.z, g.vel.z, g.acc.z, tau);
    hide LiftAxis, Moves;
  }

  lemma MaskIsFor(g: Segment, cfg: Config)
    ensures IsMaskFor(LiftMask(g, cfg.localMask, cfg.yawControl), g, cfg)
  {
    var base := if g.mask != 0 then g.mask else cfg.localMask;
    YawSupplied(base);
    YawIgnored(base);
  }

  lemma YawSupplied(mask: bv16)
    ensures mask & (ALL_BITS ^ IGNORE_YAW) == mask & 0xFBFF
  {
    assert ALL_BITS ^ IGNORE_YAW == 0xFBFF;
  }

  lemma YawIgnored(mask: bv16)
    ensures mask | IGNORE_YAW | IGNORE_YAW_RATE == mask | 0xC00
  {
  }

  lemma AgeOf(g: Segment, t: int)
    requires t >= 0
    ensures IsAge(Tau(g, t), g, t)
  {
  }

  lemma AxisMoves(m: AxisMask, p: real, v: real, a: real, tau: real)
    ensures Moves(LiftAxis(m, p, v, a, tau), p, v, a, tau, m.position, m.velocity, m.acceleration)
  {
  }

  /** What a zero-order hold hands out never depends on when in the window it is asked. */
  lemma ZeroOrderHoldIsConstant(g: Segment, t1: int, t2: int, cfg: Config)
    requires cfg.zeroOrderHold && (cfg.backend == Px4Local || cfg.backend == PvaSmc)
    requires LiftForBackend(g, t1, cfg).Some? && LiftForBackend(g, t2, cfg).Some?
    ensures LiftForBackend(g, t1, cfg) == LiftForBackend(g, t2, cfg)
    ensures !Ignored(LiftMask(g, cfg.localMask, cfg.yawControl), IGNORE_PX) ==>
              LiftForBackend(g, t1, cfg).value.pos.x == g.pos.x
  {
  }

  /** The state of one axis after moving on with its own velocity and acceleration. */
  function Coast(s: AxisState, dt: real): AxisState {
    AxisState(PositionAt(s.pos, s.vel, s.acc, dt), s.vel + s.acc * dt, s.acc)
  }

  /**
   Composition on every axis of a valid segment: lifting to a later time is lifting to an earlier
   one and coasting on. The velocity always composes unless it is ignored. The position composes
   if and only if the velocity is not ignored, or the acceleration in use is zero, or one of the two
   motions takes no time: a lift that ignores the velocity still integrates the acceleration into the
   position, but hands out velocity zero.
   */
  lemma LiftComposes(g: Segment, mask: bv16, axis: Axis, t1: int, t2: int)
    requires 0 < g.time <= t1 <= t2
    ensures var m, dt := OnAxis(mask, axis), (t2 - t1) as real / 1000000000.0;
            var a, b := LiftOn(g, mask, axis, Tau(g, t1)), LiftOn(g, mask, axis, Tau(g, t2));
            && b.acc == a.acc
            && (!m.velocity ==> b.vel == Coast(a, dt).vel)
            && (!m.position ==>
                  (b.pos == Coast(a, dt).pos <==> !m.velocity || a.acc == 0.0 || t1 == g.time || t1 == t2))
  {
    var dt := (t2 - t1) as real / 1000000000.0;
    assert Tau(g, t2) == Tau(g, t1) + dt;
    AxisComposes(OnAxis(mask, axis), Along(g.pos, axis), Along(g.vel, axis), Along(g.acc, axis), Tau(g, t1), dt);
  }

  lemma AxisComposes(m: AxisMask, p: real, v: real, a: real, tau: real, dt: real)
    requires tau >= 0.0 && dt >= 0.0
    ensures var s, s' := LiftAxis(m, p, v, a, tau), LiftAxis(m, p, v, a, tau + dt);
            && s'.acc == s.acc
            && (!m.velocity ==> s'.vel == Coast(s, dt).vel)
            && (!m.position ==>
                  (s'.pos == Coast(s, dt).pos <==> !m.velocity || s.acc == 0.0 || tau == 0.0 || dt == 0.0))
  {
    var v', a' := Unless(m.velocity, v), Unless(m.acceleration, a);
    var handed := Unless(m.velocity, v' + a' * tau);
    Gap(p, v', a', handed, tau, dt);
    if m.velocity {
      assert (v' + a' * tau - handed) * dt == a' * (tau * dt);
      assert tau > 0.0 && dt > 0.0 ==> tau * dt > 0.0;
    } else {
      assert a' * (tau + dt) == a' * tau + a' * dt;
    }
  }

  /** The two positions differ by what the velocity handed on lacks. */
  lemma Gap(p: real, v: real, a: real, handed: real, tau: real, dt: real)
    ensures PositionAt(p, v, a, tau + dt) - PositionAt(PositionAt(p, v, a, tau), handed, a, dt)
            == (v + a * tau - handed) * dt
  {
    var t := tau + dt;
    assert 0.5 * a * t * t == 0.5 * a * tau * tau + a * tau * dt + 0.5 * a * dt * dt by {
      assert t * t == tau * tau + 2.0 * (tau * dt) + dt * dt;
      assert a * t * t == a * (t * t);
      assert a * (t * t) == a * (tau * tau) + 2.0 * (a * (tau * dt)) + a * (dt * dt);
    }
    assert v * t == v * tau + v * dt;
  }
}
