/**
 The search for the first host tick at which a comparison made in doubles comes true.

 Doubles are a grid of reals in order, measured in nanoseconds. Reading a tick count as a double
 rounds twice: the fraction of a second is a product, which is off by far less than a tick, and the
 sum of seconds and fraction takes a nearest grid point. Reading a double as a tick count rounds twice
 as well: the fraction of a second times a thousand million is such a product, and it is rounded to the
 nearest whole number, upwards from halfway.
 */
module ClockWake {
  import opened Options

  /** How far a product may be off, in ticks. */
  const PRODUCT_ERROR := 0.001

  /**
   The j-th double; the sum that stands for n ticks before it is rounded, and the double that it is rounded
   to; the product that stands for the j-th double before it is rounded, and the ticks that it is rounded
   to, which fail out of range.
   */
  datatype Grid = Grid(
    point: int -> real, sum: nat -> real, read: nat -> int, product: int -> real, ticks: int -> Result<nat>)

  function Distance(x: real, y: real): real {
    if x < y then y - x else x - y
  }

  ghost predicate Ordered(g: Grid) {
    g.point(0) == 0.0 && forall i, j :: i < j ==> g.point(i) < g.point(j)
  }

  predicate SumsUp(g: Grid, n: nat) {
    g.sum(n) >= 0.0 && Distance(g.sum(n), n as real) <= PRODUCT_ERROR
  }

  /** The double of n ticks is no further from their sum than the j-th double is. */
  predicate NoNearer(g: Grid, n: nat, j: int) {
    Distance(g.point(g.read(n)), g.sum(n)) <= Distance(g.point(j), g.sum(n))
  }

  ghost predicate ReadsNearest(g: Grid) {
    (forall n: nat :: SumsUp(g, n)) && forall n: nat, j: int :: NoNearer(g, n, j)
  }

  /** The product is not far off, and the ticks are the whole number next to it. */
  predicate Rounds(g: Grid, j: int) {
    && Distance(g.product(j), g.point(j)) <= PRODUCT_ERROR
    && (g.ticks(j).Ok? ==> g.product(j) - 0.5 < g.ticks(j).value as real <= g.product(j) + 0.5)
  }

  /** Products are in the order of their doubles, and the doubles in range are those below some limit. */
  predicate InStep(g: Grid, i: int, j: int) {
    i <= j ==> g.product(i) <= g.product(j) && (g.ticks(j).Ok? ==> g.ticks(i).Ok?)
  }

  /** A double in range becomes the tick nearest to its product. */
  ghost predicate TicksNearest(g: Grid) {
    (forall j :: j >= 0 ==> Rounds(g, j)) && forall i, j :: i >= 0 && j >= 0 ==> InStep(g, i, j)
  }

  /** Doubles lie no closer together as they grow. */
  ghost predicate Widening(g: Grid) {
    forall j :: j > 0 ==> g.point(j) - g.point(j - 1) <= g.point(j + 1) - g.point(j)
  }

  ghost predicate Sound(g: Grid) {
    Ordered(g) && ReadsNearest(g) && TicksNearest(g)
  }

  // ------------------------------------------------------------ nearest reading

  lemma InOrder(g: Grid, i: int, j: int)
    requires Ordered(g)
    ensures i < j <==> g.point(i) < g.point(j)
    ensures i <= j <==> g.point(i) <= g.point(j)
  {
  }

  lemma ReadsBelow(g: Grid, n: nat, j: int)
    requires Ordered(g) && ReadsNearest(g) && g.sum(n) <= g.point(j)
    ensures g.read(n) <= j
  {
    assert NoNearer(g, n, j);
    InOrder(g, g.read(n), j);
  }

  lemma ReadsAbove(g: Grid, n: nat, j: int)
    requires Ordered(g) && ReadsNearest(g) && g.point(j) <= g.sum(n)
    ensures j <= g.read(n)
  {
    assert NoNearer(g, n, j);
    InOrder(g, j, g.read(n));
  }

  lemma ReadsMonotone(g: Grid, m: nat, n: nat)
    requires Ordered(g) && ReadsNearest(g) && m <= n
    ensures g.read(m) <= g.read(n)
  {
    assert SumsUp(g, m) && SumsUp(g, n);
    assert NoNearer(g, m, g.read(n));
    assert NoNearer(g, n, g.read(m));
    InOrder(g, g.read(n), g.read(m));
  }

  lemma TicksMonotone(g: Grid, i: int, j: int)
    requires Sound(g) && 0 <= i <= j && g.ticks(j).Ok?
    ensures g.ticks(i).Ok? && g.ticks(i).value <= g.ticks(j).value
  {
    assert InStep(g, i, j) && Rounds(g, i) && Rounds(g, j);
  }

  // --------------------------------------------------------------- flight clock

  /** One tick below the double before the deadline reads too early; one above the double after it does not. */
  lemma FlightBracket(g: Grid, k: int)
    requires Sound(g) && k > 0 && g.ticks(k - 1).Ok? && g.ticks(k + 1).Ok?
    ensures forall n: nat :: n + 1 < g.ticks(k - 1).value ==> g.read(n) < k
    ensures g.read(g.ticks(k + 1).value + 1) >= k
  {
    assert Rounds(g, k - 1) && Rounds(g, k + 1);
    forall n: nat | n + 1 < g.ticks(k - 1).value ensures g.read(n) < k {
      assert SumsUp(g, n);
      ReadsBelow(g, n, k - 1);
    }
    InOrder(g, k, k + 1);
    assert SumsUp(g, g.ticks(k + 1).value + 1);
    ReadsAbove(g, g.ticks(k + 1).value + 1, k);
  }

  /** The least tick whose double reaches the deadline, the k-th double. */
  method ControllerClockWakeNs(g: Grid, k: int) returns (r: Result<nat>)
    requires Sound(g)
    ensures k <= 0 ==> r == Ok(0)
    ensures k > 0 ==> (r.Ok? <==> g.ticks(k + 1).Ok?)
    ensures k > 0 && r.Ok? ==> g.read(r.value) >= k && forall n: nat :: n < r.value ==> g.read(n) < k
  {
    if k <= 0 {
      return Ok(0);
    }
    assert InStep(g, k - 1, k + 1);
    if g.ticks(k - 1).Thrown? || g.ticks(k + 1).Thrown? {
      return Thrown;
    }
    FlightBracket(g, k);
    TicksMonotone(g, k - 1, k + 1);
    var low: nat := g.ticks(k - 1).value;
    if low > 0 { low := low - 1; }
    var high: nat := g.ticks(k + 1).value + 1;
    while low < high
      invariant low <= high
      invariant forall n: nat :: n < low ==> g.read(n) < k
      invariant g.read(high) >= k
    {
      var mid := low + (high - low) / 2;
      if g.read(mid) < k {
        forall n: nat | n <= mid ensures g.read(n) < k { ReadsMonotone(g, n, mid); }
        low := mid + 1;
      } else {
        high := mid;
      }
    }
    return Ok(low);
  }

  // ----------------------------------------------------------- statistics clock

  /** What a tick count becomes when it is turned into a double and back. */
  function Through(g: Grid, n: nat): Result<nat> {
    g.ticks(g.read(n))
  }

  lemma ReadsNonNegative(g: Grid, n: nat)
    requires Sound(g)
    ensures g.read(n) >= 0
  {
    assert SumsUp(g, n);
    ReadsAbove(g, n, 0);
  }

  lemma ThroughMonotone(g: Grid, m: nat, n: nat)
    requires Sound(g) && m <= n && Through(g, n).Ok?
    ensures Through(g, m).Ok? && Through(g, m).value <= Through(g, n).value
  {
    ReadsNonNegative(g, m);
    ReadsMonotone(g, m, n);
    TicksMonotone(g, g.read(m), g.read(n));
  }

  /** The sum of a tick is at least halfway from every double below the one it reads as. */
  lemma PastMidpoint(g: Grid, due: nat, k: int)
    requires Ordered(g) && ReadsNearest(g) && g.read(due) == k
    ensures 2.0 * g.sum(due) >= g.point(k - 1) + g.point(k)
    ensures 2.0 * g.sum(due) <= g.point(k) + g.point(k + 1)
  {
    InOrder(g, k - 1, k);
    InOrder(g, k, k + 1);
    assert NoNearer(g, due, k - 1);
    assert NoNearer(g, due, k + 1);
  }

  /** A double that a lower tick is rounded up to has a wide gap below it, and so has every later one. */
  lemma AfterGap(g: Grid, due: nat, k: int, j: int, gap: real)
    requires Ordered(g) && Widening(g) && 0 < j < k
    requires SumsUp(g, due) && 2.0 * g.sum(due) >= g.point(k - 1) + g.point(k)
    requires g.point(j) - g.point(j - 1) >= gap && (if j == k - 1 then gap > 1.1 else gap >= 0.5)
    ensures due as real > g.point(j) + 0.51
  {
    assert g.point(j) - g.point(j - 1) <= g.point(j + 1) - g.point(j);
    assert g.point(j + 1) - g.point(j) <= g.point(j + 2) - g.point(j + 1);
    InOrder(g, j + 2, k);
    InOrder(g, j + 1, k - 1);
  }

  /** Two ticks below the double before the deadline's own, the round trip is still too early. */
  lemma TooEarly(g: Grid, due: nat, k: int, n: nat)
    requires Sound(g) && Widening(g) && k == g.read(due) && k > 0
    requires g.ticks(k - 1).Ok? && n + 1 < g.ticks(k - 1).value
    ensures Through(g, n).Ok? && Through(g, n).value < due
  {
    var j := g.read(n);
    assert SumsUp(g, n) && SumsUp(g, due) && Rounds(g, k - 1);
    ReadsBelow(g, n, k - 1);
    ReadsNonNegative(g, n);
    TicksMonotone(g, j, k - 1);
    PastMidpoint(g, due, k);
    InOrder(g, k - 1, k);
    assert Rounds(g, j) && n < due;
    if g.point(j) > g.sum(n) {
      PastMidpoint(g, n, j);
      InOrder(g, 0, j);
      hide ReadsNearest, Widening;
      RoundedUp(g, due, k, n, j);
    } else {
      hide Ordered, ReadsNearest, Widening, TicksNearest;
    }
  }

  lemma RoundedUp(g: Grid, due: nat, k: int, n: nat, j: int)
    requires Ordered(g) && Widening(g) && 0 < j < k && g.ticks(j).Ok? && g.ticks(k - 1).Ok?
    requires Rounds(g, j) && Rounds(g, k - 1)
    requires g.sum(n) < g.point(j) && 2.0 * g.sum(n) >= g.point(j - 1) + g.point(j)
    requires n + 1 < g.ticks(k - 1).value && 2.0 * g.sum(due) >= g.point(k - 1) + g.point(k)
    requires n < due && SumsUp(g, n) && SumsUp(g, due)
    ensures g.ticks(j).value < due
  {
    var gap := g.point(j) - g.point(j - 1);
    var r := g.ticks(j).value as real;
    assert r <= g.point(j) + 0.501;
    assert g.point(j) - g.sum(n) <= gap / 2.0;
    if j == k - 1 {
      assert gap >= 2.9;
      AfterGap(g, due, k, j, gap);
    } else if gap >= 0.5 {
      AfterGap(g, due, k, j, gap);
    } else {
      assert r < n as real + 1.0;
    }
  }

  /** One tick above the double after the deadline's own, the round trip is late enough. */
  lemma LateEnough(g: Grid, due: nat, k: int, n: nat)
    requires Sound(g) && k == g.read(due) && g.ticks(k + 1).Ok? && n > g.ticks(k + 1).value
    ensures Through(g, n).Ok? ==> Through(g, n).value >= due
  {
    assert SumsUp(g, due) && SumsUp(g, n);
    ReadsNonNegative(g, due);
    assert Rounds(g, k + 1);
    ReadsAbove(g, n, k + 1);
    PastMidpoint(g, due, k);
    InOrder(g, k, k + 1);
    assert g.ticks(k + 1).value >= due;
    if Through(g, n).Ok? {
      TicksMonotone(g, k + 1, g.read(n));
    }
  }

  /** The round trip of the tick reaches the deadline, or leaves the range. */
  predicate Reaches(g: Grid, n: nat, due: nat) {
    Through(g, n).Thrown? || Through(g, n).value >= due
  }

  /**
   The least tick whose round trip through a double reaches the deadline. It fails only where a
   double next to the deadline, or a tick below it, is out of range.
   */
  method RosStatisticsWakeNs(g: Grid, due: nat) returns (r: Result<nat>)
    requires Sound(g) && Widening(g)
    ensures g.read(due) <= 0 ==> r == Ok(0)
    ensures g.read(due) > 0 && r.Ok? ==>
              Reaches(g, r.value, due) && forall n: nat :: n < r.value ==> !Reaches(g, n, due)
    ensures r == Thrown ==>
              var after := g.ticks(g.read(due) + 1);
              after == Thrown || exists n: nat :: n <= after.value && Through(g, n) == Thrown
  {
    var k := g.read(due);
    if k <= 0 {
      return Ok(0);
    }
    assert InStep(g, k - 1, k + 1);
    if g.ticks(k - 1).Thrown? || g.ticks(k + 1).Thrown? {
      return Thrown;
    }
    TicksMonotone(g, k - 1, k + 1);
    var low: nat := g.ticks(k - 1).value;
    if low > 0 { low := low - 1; }
    var high: nat := g.ticks(k + 1).value + 1;
    forall n: nat | n < low ensures !Reaches(g, n, due) { TooEarly(g, due, k, n); }
    LateEnough(g, due, k, high);
    while low < high
      invariant low <= high <= g.ticks(k + 1).value + 1
      invariant forall n: nat :: n < low ==> !Reaches(g, n, due)
      invariant Reaches(g, high, due)
    {
      var mid := low + (high - low) / 2;
      if Through(g, mid).Thrown? {
        return Thrown;
      }
      if Through(g, mid).value < due {
        forall n: nat | n <= mid ensures !Reaches(g, n, due) { ThroughMonotone(g, n, mid); }
        low := mid + 1;
      } else {
        high := mid;
      }
    }
    return Ok(low);
  }
}
