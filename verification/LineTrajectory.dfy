/** The quintic line between two points, one axis at a time, over exact reals. */
module LineTrajectory {
  import opened Options

  /** The boundary values of one axis and the duration. */
  datatype Line = Line(s0: real, v0: real, sd: real, vd: real, duration: real)

  /** The coefficients of powers 0, 1, 3, 4 and 5; there is no quadratic term. */
  datatype Coefficients = Coefficients(a0: real, a1: real, a3: real, a4: real, a5: real)

  datatype Flat = Flat(position: real, velocity: real, acceleration: real, jerk: real)

  function P2(t: real): real { t * t }
  function P3(t: real): real { t * t * t }
  function P4(t: real): real { t * t * t * t }
  function P5(t: real): real { t * t * t * t * t }

  function Coefficient(l: Line): Coefficients
    requires l.duration > 0.0
  {
    var t := l.duration;
    PowersPositive(t);
    var a, d := l.sd - l.s0 - l.v0 * t, l.v0 - l.vd;
    Coefficients(l.s0, l.v0, (10.0 * a + 4.0 * d * t) / P3(t), -(15.0 * a + 7.0 * d * t) / P4(t),
                 3.0 * (2.0 * a + d * t) / P5(t))
  }

  lemma PowersPositive(t: real)
    requires t > 0.0
    ensures P2(t) > 0.0 && P3(t) > 0.0 && P4(t) > 0.0 && P5(t) > 0.0
  {
    assert P3(t) == P2(t) * t && P4(t) == P3(t) * t && P5(t) == P4(t) * t;
  }

  // The polynomials of the output and of its derivatives, by their coefficients.

  function Quintic(c0: real, c1: real, c3: real, c4: real, c5: real, t: real): real {
    c0 + c1 * t + c3 * (t * t * t) + c4 * (t * t * t * t) + c5 * (t * t * t * t * t)
  }

  function Quartic(c1: real, c3: real, c4: real, c5: real, t: real): real {
    c1 + 3.0 * c3 * (t * t) + 4.0 * c4 * (t * t * t) + 5.0 * c5 * (t * t * t * t)
  }

  function Cubic(c3: real, c4: real, c5: real, t: real): real {
    6.0 * c3 * t + 12.0 * c4 * (t * t) + 20.0 * c5 * (t * t * t)
  }

  function Quadratic(c3: real, c4: real, c5: real, t: real): real {
    6.0 * c3 + 24.0 * c4 * t + 60.0 * c5 * (t * t)
  }

  function Position(c: Coefficients, t: real): real {
    Quintic(c.a0, c.a1, c.a3, c.a4, c.a5, t)
  }

  function Velocity(c: Coefficients, t: real): real {
    Quartic(c.a1, c.a3, c.a4, c.a5, t)
  }

  function Acceleration(c: Coefficients, t: real): real {
    Cubic(c.a3, c.a4, c.a5, t)
  }

  function Jerk(c: Coefficients, t: real): real {
    Quadratic(c.a3, c.a4, c.a5, t)
  }

  function Clamped(l: Line, time: real): real {
    var low := if time < 0.0 then 0.0 else time;
    if low > l.duration then l.duration else low
  }

  /** The output at any time: before the start and after the end the line rests at its boundary values. */
  function FlatOutput(l: Line, time: real): Result<Flat> {
    if l.duration <= 0.0 then Thrown
    else
      var tau, c := Clamped(l, time), Coefficient(l);
      Ok(Flat(Position(c, tau), Velocity(c, tau), Acceleration(c, tau), Jerk(c, tau)))
  }

  // --------------------------------------------------------------- boundary values

  /** What the coefficients weigh at the end of the line. */
  lemma WeightsAtEnd(l: Line)
    requires l.duration > 0.0
    ensures var t, c := l.duration, Coefficient(l);
            var a, dt := l.sd - l.s0 - l.v0 * t, (l.v0 - l.vd) * t;
            && c.a3 * P3(t) == 10.0 * a + 4.0 * dt && c.a4 * P4(t) == -(15.0 * a + 7.0 * dt)
            && c.a5 * P5(t) == 6.0 * a + 3.0 * dt
  {
    var t := l.duration;
    PowersPositive(t);
    var a, d := l.sd - l.s0 - l.v0 * t, l.v0 - l.vd;
    Undo(10.0 * a + 4.0 * d * t, P3(t));
    Undo(-(15.0 * a + 7.0 * d * t), P4(t));
    Undo(3.0 * (2.0 * a + d * t), P5(t));
    assert 4.0 * d * t == 4.0 * (d * t) && 7.0 * d * t == 7.0 * (d * t);
  }

  lemma Undo(x: real, y: real)
    requires y > 0.0
    ensures x / y * y == x
  {
  }

  lemma Cancel(x: real, y: real, t: real)
    requires t > 0.0 && x * t == y * t
    ensures x == y
  {
  }

  lemma VelocityTimes(c: Coefficients, t: real)
    ensures Velocity(c, t) * t == c.a1 * t + 3.0 * (c.a3 * P3(t)) + 4.0 * (c.a4 * P4(t)) + 5.0 * (c.a5 * P5(t))
  {
  }

  lemma AccelerationTimes(c: Coefficients, t: real)
    ensures Acceleration(c, t) * P2(t) == 6.0 * (c.a3 * P3(t)) + 12.0 * (c.a4 * P4(t)) + 20.0 * (c.a5 * P5(t))
  {
  }

  lemma AtZero(c: Coefficients)
    ensures Position(c, 0.0) == c.a0 && Velocity(c, 0.0) == c.a1 && Acceleration(c, 0.0) == 0.0
  {
  }

  lemma PositionByPowers(c: Coefficients, t: real)
    ensures Position(c, t) == c.a0 + c.a1 * t + c.a3 * P3(t) + c.a4 * P4(t) + c.a5 * P5(t)
  {
  }

  /** The line starts and ends at the given points with the given velocities and without acceleration. */
  lemma MeetsBoundary(l: Line)
    requires l.duration > 0.0
    ensures var c, t := Coefficient(l), l.duration;
            && Position(c, 0.0) == l.s0 && Velocity(c, 0.0) == l.v0 && Acceleration(c, 0.0) == 0.0
            && Position(c, t) == l.sd && Velocity(c, t) == l.vd && Acceleration(c, t) == 0.0
  {
    var c, t := Coefficient(l), l.duration;
    assert c.a0 == l.s0 && c.a1 == l.v0;
    PowersPositive(t);
    hide Coefficient, Position, Velocity, Acceleration, P2, P3, P4, P5;
    AtZero(c);
    WeightsAtEnd(l);
    PositionByPowers(c, t);
    VelocityTimes(c, t);
    AccelerationTimes(c, t);
    assert Velocity(c, t) * t == l.vd * t;
    Cancel(Velocity(c, t), l.vd, t);
    assert Acceleration(c, t) * P2(t) == 0.0 * P2(t);
    Cancel(Acceleration(c, t), 0.0, P2(t));
  }

  // -------------------------------------------------------------------- derivatives

  // What remains of a polynomial after its linear part, over the square of the step.

  function QuinticRest(c3: real, c4: real, c5: real, t: real, h: real): real {
    c3 * (3.0 * t + h) + c4 * (6.0 * t * t + 4.0 * t * h + h * h) +
    c5 * (10.0 * t * t * t + 10.0 * t * t * h + 5.0 * t * h * h + h * h * h)
  }

  function QuarticRest(c3: real, c4: real, c5: real, t: real, h: real): real {
    3.0 * c3 + 4.0 * c4 * (3.0 * t + h) + 5.0 * c5 * (6.0 * t * t + 4.0 * t * h + h * h)
  }

  function CubicRest(c4: real, c5: real, t: real, h: real): real {
    12.0 * c4 + 20.0 * c5 * (3.0 * t + h)
  }

  function Times(a: real, b: real): real {
    a * b
  }

  lemma QuinticStep(c0: real, c1: real, c3: real, c4: real, c5: real, t: real, h: real)
    ensures Quintic(c0, c1, c3, c4, c5, t + h) ==
            Quintic(c0, c1, c3, c4, c5, t) +
            Times(h, c1 + 3.0 * c3 * (t * t) + 4.0 * c4 * (t * t * t) + 5.0 * c5 * (t * t * t * t)) +
            Times(h * h, c3 * (3.0 * t + h) + c4 * (6.0 * t * t + 4.0 * t * h + h * h) +
                         c5 * (10.0 * t * t * t + 10.0 * t * t * h + 5.0 * t * h * h + h * h * h))
  {
  }

  lemma QuinticExpands(c0: real, c1: real, c3: real, c4: real, c5: real, t: real, h: real)
    ensures Quintic(c0, c1, c3, c4, c5, t + h) ==
            Quintic(c0, c1, c3, c4, c5, t) + Times(h, Quartic(c1, c3, c4, c5, t)) +
            Times(h * h, QuinticRest(c3, c4, c5, t, h))
  {
    hide Quintic, Times;
    QuinticStep(c0, c1, c3, c4, c5, t, h);
  }

  lemma QuarticStep(c1: real, c3: real, c4: real, c5: real, t: real, h: real)
    ensures Quartic(c1, c3, c4, c5, t + h) ==
            Quartic(c1, c3, c4, c5, t) +
            Times(h, 6.0 * c3 * t + 12.0 * c4 * (t * t) + 20.0 * c5 * (t * t * t)) +
            Times(h * h, 3.0 * c3 + 4.0 * c4 * (3.0 * t + h) + 5.0 * c5 * (6.0 * t * t + 4.0 * t * h + h * h))
  {
  }

  lemma QuarticExpands(c1: real, c3: real, c4: real, c5: real, t: real, h: real)
    ensures Quartic(c1, c3, c4, c5, t + h) ==
            Quartic(c1, c3, c4, c5, t) + Times(h, Cubic(c3, c4, c5, t)) + Times(h * h, QuarticRest(c3, c4, c5, t, h))
  {
    hide Quartic, Times;
    QuarticStep(c1, c3, c4, c5, t, h);
  }

  lemma CubicStep(c3: real, c4: real, c5: real, t: real, h: real)
    ensures Cubic(c3, c4, c5, t + h) ==
            Cubic(c3, c4, c5, t) +
            Times(h, 6.0 * c3 + 24.0 * c4 * t + 60.0 * c5 * (t * t)) +
            Times(h * h, 12.0 * c4 + 20.0 * c5 * (3.0 * t + h))
  {
  }

  lemma CubicExpands(c3: real, c4: real, c5: real, t: real, h: real)
    ensures Cubic(c3, c4, c5, t + h) ==
            Cubic(c3, c4, c5, t) + Times(h, Quadratic(c3, c4, c5, t)) + Times(h * h, CubicRest(c4, c5, t, h))
  {
    hide Cubic, Times;
    CubicStep(c3, c4, c5, t, h);
  }

  /** Velocity, acceleration and jerk are the exact derivatives: what remains is quadratic in the step. */
  lemma DerivativesAreExact(c: Coefficients, t: real, h: real)
    ensures Position(c, t + h) ==
            Position(c, t) + Times(h, Velocity(c, t)) + Times(h * h, QuinticRest(c.a3, c.a4, c.a5, t, h))
    ensures Velocity(c, t + h) ==
            Velocity(c, t) + Times(h, Acceleration(c, t)) + Times(h * h, QuarticRest(c.a3, c.a4, c.a5, t, h))
    ensures Acceleration(c, t + h) ==
            Acceleration(c, t) + Times(h, Jerk(c, t)) + Times(h * h, CubicRest(c.a4, c.a5, t, h))
  {
    hide Quintic, Quartic, Cubic, Quadratic, QuinticRest, QuarticRest, CubicRest, Times;
    QuinticExpands(c.a0, c.a1, c.a3, c.a4, c.a5, t, h);
    QuarticExpands(c.a1, c.a3, c.a4, c.a5, t, h);
    CubicExpands(c.a3, c.a4, c.a5, t, h);
  }

  // ---------------------------------------------------------------------- overshoot

  /** The share of the way that is covered at the fraction u of the time, from rest to rest. */
  function Share(u: real): real {
    10.0 * P3(u) - 15.0 * P4(u) + 6.0 * P5(u)
  }

  lemma ShareIsBetween(u: real)
    requires 0.0 <= u <= 1.0
    ensures 0.0 <= Share(u) <= 1.0
  {
    var v := 1.0 - u;
    assert Share(u) == P3(u) * (6.0 * P2(u) - 15.0 * u + 10.0);
    assert 6.0 * P2(u) - 15.0 * u + 10.0 == 6.0 * P2(u - 1.25) + 0.625;
    assert 1.0 - Share(u) == P3(v) * (1.0 + 3.0 * u + 6.0 * P2(u));
    Cubes(u);
    Cubes(v);
    Products(P3(u), 6.0 * P2(u) - 15.0 * u + 10.0);
    Products(P3(v), 1.0 + 3.0 * u + 6.0 * P2(u));
  }

  lemma Cubes(u: real)
    requires u >= 0.0
    ensures P2(u) >= 0.0 && P3(u) >= 0.0
  {
    Products(u, u);
    Products(P2(u), u);
  }

  lemma Products(a: real, b: real)
    requires a >= 0.0 && b >= 0.0
    ensures a * b >= 0.0
  {
  }

  lemma Regroup(a: real, x: real, y: real, z: real)
    requires x == y * z
    ensures a * x == y * (a * z)
  {
  }

  lemma Shares(a: real, p3: real, p4: real, p5: real, w3: real, w4: real, w5: real)
    requires w3 == 10.0 * a && w4 == -15.0 * a && w5 == 6.0 * a
    ensures p3 * w3 + p4 * w4 + p5 * w5 == Times(a, 10.0 * p3 - 15.0 * p4 + 6.0 * p5)
  {
  }

  function Blend(a: real, b: real, k: real): real {
    a + Times(b - a, k)
  }

  lemma AtRest(c: Coefficients, t: real)
    requires c.a1 == 0.0
    ensures c.a1 * t == 0.0
  {
  }

  /** From rest to rest the position is the start plus that share of the way. */
  lemma PositionIsShare(l: Line, u: real)
    requires l.duration > 0.0 && l.v0 == 0.0 && l.vd == 0.0
    ensures Position(Coefficient(l), u * l.duration) == Blend(l.s0, l.sd, Share(u))
  {
    var c, t, a := Coefficient(l), l.duration, l.sd - l.s0;
    assert c.a0 == l.s0 && c.a1 == 0.0;
    WeightsAtEnd(l);
    PositionByPowers(c, u * t);
    Rescale(u, t);
    AtRest(c, u * t);
    hide P3, P4, P5, Position, Coefficient, Times;
    Regroup(c.a3, P3(u * t), P3(u), P3(t));
    Regroup(c.a4, P4(u * t), P4(u), P4(t));
    Regroup(c.a5, P5(u * t), P5(u), P5(t));
    Shares(a, P3(u), P4(u), P5(u), c.a3 * P3(t), c.a4 * P4(t), c.a5 * P5(t));
  }

  lemma Rescale(u: real, t: real)
    ensures P3(u * t) == P3(u) * P3(t) && P4(u * t) == P4(u) * P4(t) && P5(u * t) == P5(u) * P5(t)
  {
  }

  /** With zero end velocities an axis never leaves the interval between its end points, at any time. */
  lemma NeverOvershoots(l: Line, time: real)
    requires l.duration > 0.0 && l.v0 == 0.0 && l.vd == 0.0
    ensures var p := FlatOutput(l, time).value.position;
            (l.s0 <= l.sd ==> l.s0 <= p <= l.sd) && (l.sd <= l.s0 ==> l.sd <= p <= l.s0)
  {
    var tau := Clamped(l, time);
    var u := tau / l.duration;
    Undo(tau, l.duration);
    Fraction(tau, l.duration);
    assert u * l.duration == tau;
    hide Coefficient, Position, Velocity, Acceleration, Jerk, Share, Clamped, Blend;
    ShareIsBetween(u);
    PositionIsShare(l, u);
    Interpolates(l.s0, l.sd, Share(u));
  }

  lemma Fraction(x: real, y: real)
    requires 0.0 <= x <= y && y > 0.0
    ensures 0.0 <= x / y <= 1.0
  {
  }

  lemma Interpolates(a: real, b: real, k: real)
    requires 0.0 <= k <= 1.0
    ensures var p := Blend(a, b, k); (a <= b ==> a <= p <= b) && (b <= a ==> b <= p <= a)
  {
    if a <= b {
      Products(b - a, k);
      Products(b - a, 1.0 - k);
    } else {
      Products(a - b, k);
      Products(a - b, 1.0 - k);
    }
  }
}
