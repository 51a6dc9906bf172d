/**
 Times and durations of 32-bit seconds and nanoseconds, as exact images of integer nanoseconds, with
 the 64-bit arithmetic of their operators written out.
 */
module Clock {
  import opened Options

  type int32 = x: int | -0x8000_0000 <= x < 0x8000_0000
  type uint32 = x: int | 0 <= x < 0x1_0000_0000
  type int64 = x: int | -0x8000_0000_0000_0000 <= x < 0x8000_0000_0000_0000
  type uint64 = x: int | 0 <= x < 0x1_0000_0000_0000_0000

  const NANO: int := 1_000_000_000
  const WRAP: int := 0x1_0000_0000_0000_0000

  predicate Fits32(x: int) {
    -0x8000_0000 <= x < 0x8000_0000
  }

  predicate FitsU32(x: int) {
    0 <= x < 0x1_0000_0000
  }

  // ---------------------------------------------------------- machine arithmetic

  /** Division that truncates towards zero, and its remainder. */
  function Quotient(a: int, b: int): int
    requires b > 0
  {
    if a >= 0 then a / b else -((-a) / b)
  }

  function Remainder(a: int, b: int): int
    requires b > 0
  {
    a - Quotient(a, b) * b
  }

  function Unsigned(x: int): uint64 {
    x % WRAP
  }

  function Signed(x: uint64): int64 {
    if x < 0x8000_0000_0000_0000 then x else x - WRAP
  }

  lemma QuotientBounds(a: int)
    ensures -NANO < Remainder(a, NANO) < NANO
    ensures a >= 0 ==> Remainder(a, NANO) >= 0
    ensures a <= 0 ==> Remainder(a, NANO) <= 0
    ensures a == Quotient(a, NANO) * NANO + Remainder(a, NANO)
  {
  }

  /** Seconds and nanoseconds below one second determine each other and the count of nanoseconds. */
  lemma Split(s: int, ns: int, t: int)
    requires 0 <= ns < NANO
    ensures s * NANO + ns == t <==> s == t / NANO && ns == t % NANO
  {
    if s * NANO + ns == t {
      assert t / NANO == s;
    }
  }

  /** Wrapping a sum or a difference and reading it back as signed is exact for values of 63 bits. */
  lemma WrapIsExact(x: int)
    requires -0x8000_0000_0000_0000 <= x < 0x8000_0000_0000_0000
    ensures Signed(Unsigned(x)) == x
  {
    if x < 0 {
      assert x % WRAP == x + WRAP;
    }
  }

  lemma UnsignedAdds(a: int, b: int)
    ensures Unsigned(Unsigned(a) + Unsigned(b)) == Unsigned(a + b)
  {
  }

  // -------------------------------------------------------------------- Duration

  datatype Duration = Duration(sec: int32, nsec: int32) {
    predicate Canonical() {
      0 <= nsec < NANO
    }

    function ToNSec(): (t: int64)
      ensures t == sec * NANO + nsec
    {
      sec * NANO + nsec
    }

    predicate Less(r: Duration) {
      sec < r.sec || (sec == r.sec && nsec < r.nsec)
    }

    function Plus(r: Duration): Result<Duration> {
      DurationFromNSec(ToNSec() + r.ToNSec())
    }

    function Minus(r: Duration): Result<Duration> {
      DurationFromNSec(ToNSec() - r.ToNSec())
    }

    function Negated(): Result<Duration> {
      DurationFromNSec(-ToNSec())
    }
  }

  function NormalizedDuration(s: int32, ns: int32): Result<Duration> {
    var part := Remainder(ns, NANO);
    var sec := s + Quotient(ns, NANO);
    var (sec', part') := if part < 0 then (sec - 1, part + NANO) else (sec, part);
    if !Fits32(sec') then Thrown else Ok(Duration(sec', part'))
  }

  function DurationFromNSec(t: int64): Result<Duration> {
    var sec := Quotient(t, NANO);
    QuotientBounds(t);
    if !Fits32(sec) then Thrown else NormalizedDuration(sec, Remainder(t, NANO))
  }

  /** A duration holds exactly the counts whose whole seconds, rounded down, fit 32 bits. */
  predicate DurationRange(t: int) {
    Fits32(t / NANO)
  }

  /** Normalising keeps the value, and fails exactly when the value does not fit. */
  lemma NormalizingIsExact(s: int32, ns: int32)
    ensures var r := NormalizedDuration(s, ns);
            if DurationRange(s * NANO + ns) then r.Ok? && r.value.Canonical() && r.value.ToNSec() == s * NANO + ns
            else r == Thrown
  {
    QuotientBounds(ns);
    var part, sec := Remainder(ns, NANO), s + Quotient(ns, NANO);
    if part < 0 {
      Split(sec - 1, part + NANO, s * NANO + ns);
    } else {
      Split(sec, part, s * NANO + ns);
    }
  }

  /** From nanoseconds and back is the identity, and there is an error exactly when the count does not fit. */
  lemma DurationRoundTrip(t: int64)
    ensures var r := DurationFromNSec(t);
            if DurationRange(t) then r.Ok? && r.value.Canonical() && r.value.ToNSec() == t else r == Thrown
  {
    QuotientBounds(t);
    var sec, part := Quotient(t, NANO), Remainder(t, NANO);
    if Fits32(sec) {
      NormalizingIsExact(sec, part);
    } else if part < 0 {
      Split(sec - 1, part + NANO, t);
    } else {
      Split(sec, part, t);
    }
  }

  lemma DurationFromOwnNSec(d: Duration)
    requires d.Canonical()
    ensures DurationRange(d.ToNSec()) && DurationFromNSec(d.ToNSec()) == Ok(d)
  {
    Split(d.sec, d.nsec, d.ToNSec());
    DurationRoundTrip(d.ToNSec());
    var r := DurationFromNSec(d.ToNSec()).value;
    Split(r.sec, r.nsec, d.ToNSec());
  }

  /** What an operator returns: the canonical duration of the exact count, or an error if there is none. */
  predicate IsDuration(r: Result<Duration>, t: int) {
    if DurationRange(t) then r.Ok? && r.value.Canonical() && r.value.ToNSec() == t else r == Thrown
  }

  lemma DurationArithmetic(a: Duration, b: Duration)
    ensures IsDuration(a.Plus(b), a.ToNSec() + b.ToNSec())
    ensures IsDuration(a.Minus(b), a.ToNSec() - b.ToNSec())
    ensures IsDuration(a.Negated(), -a.ToNSec())
  {
    hide DurationFromNSec, DurationRange;
    DurationRoundTrip(a.ToNSec() + b.ToNSec());
    DurationRoundTrip(a.ToNSec() - b.ToNSec());
    DurationRoundTrip(-a.ToNSec());
  }

  // ------------------------------------------------------------------------ Time

  datatype Time = Time(sec: uint32, nsec: uint32) {
    predicate Canonical() {
      nsec < NANO
    }

    function ToNSec(): (t: uint64)
      ensures t == sec * NANO + nsec
    {
      sec * NANO + nsec
    }

    predicate Less(r: Time) {
      sec < r.sec || (sec == r.sec && nsec < r.nsec)
    }

    function Since(r: Time): Result<Duration> {
      DurationFromNSec(Signed(Unsigned(ToNSec() - r.ToNSec())))
    }

    function Plus(d: Duration): Result<Time> {
      var s := Signed(Unsigned(sec + Unsigned(d.sec)));
      var ns := Signed(Unsigned(nsec + Unsigned(d.nsec)));
      NormalizedSum(s, ns)
    }

    function Minus(d: Duration): Result<Time> {
      match d.Negated()
      case Thrown => Thrown
      case Ok(n) => Plus(n)
    }
  }

  function TimeFromNSec(t: uint64): Result<Time> {
    if t / NANO > 0xFFFF_FFFF then Thrown else Ok(Time(t / NANO, t % NANO))
  }

  function NormalizedSum(s: int64, ns: int64): Result<Time> {
    var part := Remainder(ns, NANO);
    var sec := s + Quotient(ns, NANO);
    var (sec', part') := if part < 0 then (sec - 1, part + NANO) else (sec, part);
    QuotientBounds(ns);
    if !FitsU32(sec') then Thrown else Ok(Time(sec', part'))
  }

  predicate TimeRange(t: int) {
    FitsU32(t / NANO)
  }

  predicate IsTime(r: Result<Time>, t: int) {
    if TimeRange(t) then r.Ok? && r.value.Canonical() && r.value.ToNSec() == t else r == Thrown
  }

  lemma TimeRoundTrip(t: uint64)
    ensures IsTime(TimeFromNSec(t), t)
  {
  }

  lemma TimeFromOwnNSec(a: Time)
    requires a.Canonical()
    ensures TimeFromNSec(a.ToNSec()) == Ok(a)
  {
    Split(a.sec, a.nsec, a.ToNSec());
  }

  /** The difference of two times is exact, although it is taken in unsigned arithmetic. */
  lemma TimeDifference(a: Time, b: Time)
    ensures IsDuration(a.Since(b), a.ToNSec() - b.ToNSec())
  {
    WrapIsExact(a.ToNSec() - b.ToNSec());
    DurationRoundTrip(a.ToNSec() - b.ToNSec());
  }

  lemma SumIsExact(s: int64, ns: int64)
    ensures IsTime(NormalizedSum(s, ns), s * NANO + ns)
  {
    QuotientBounds(ns);
    var part, sec := Remainder(ns, NANO), s + Quotient(ns, NANO);
    if part < 0 {
      Split(sec - 1, part + NANO, s * NANO + ns);
    } else {
      Split(sec, part, s * NANO + ns);
    }
  }

  lemma FieldSum(a: uint32, b: int32)
    ensures Signed(Unsigned(a + Unsigned(b))) == a + b
  {
    UnsignedAdds(a, b);
    WrapIsExact(a + b);
  }

  /** Adding a duration, positive or negative, is exact, although its fields are added as unsigned numbers. */
  lemma TimePlusDuration(a: Time, d: Duration)
    ensures IsTime(a.Plus(d), a.ToNSec() + d.ToNSec())
  {
    hide NormalizedSum, TimeRange;
    FieldSum(a.sec, d.sec);
    FieldSum(a.nsec, d.nsec);
    SumIsExact(a.sec + d.sec, a.nsec + d.nsec);
  }

  /** Subtracting works by negating, which the most negative whole second forbids. */
  lemma TimeMinusDuration(a: Time, d: Duration)
    ensures if DurationRange(-d.ToNSec()) then IsTime(a.Minus(d), a.ToNSec() - d.ToNSec()) else a.Minus(d) == Thrown
  {
    DurationArithmetic(d, d);
    if d.Negated().Ok? {
      TimePlusDuration(a, d.Negated().value);
    }
  }

  /** Going from b by the difference to a arrives at a, whenever that difference exists. */
  lemma DifferenceBridges(a: Time, b: Time)
    requires a.Canonical() && b.Canonical()
    ensures a.Since(b).Ok? <==> DurationRange(a.ToNSec() - b.ToNSec())
    ensures a.Since(b).Ok? ==> b.Plus(a.Since(b).value) == Ok(a)
  {
    TimeDifference(a, b);
    if a.Since(b).Ok? {
      TimePlusDuration(b, a.Since(b).value);
      TimeFromOwnNSec(a);
      var r := b.Plus(a.Since(b).value);
      Split(a.sec, a.nsec, a.ToNSec());
      assert TimeRange(a.ToNSec());
      Split(r.value.sec, r.value.nsec, a.ToNSec());
    }
  }

  /** Canonical values are ordered as their counts are. */
  lemma OrderAgrees(a: Time, b: Time, c: Duration, d: Duration)
    requires a.Canonical() && b.Canonical() && c.Canonical() && d.Canonical()
    ensures a.Less(b) <==> a.ToNSec() < b.ToNSec()
    ensures c.Less(d) <==> c.ToNSec() < d.ToNSec()
  {
  }
}
