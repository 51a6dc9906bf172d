/**
 Controller time as an integer count of nanoseconds.

 The original keeps controller time in a double and steps to the next double
 where a comparison is strict. Here one tick plays the part of that step, so
 "strictly later than t" is "at t + 1 or later".
 */
module Ticks {
  import opened Options

  const SECOND: int := 1_000_000_000

  /** The first whole tick that is at least 1/30 s. */
  const SETPOINT_INTERVAL: int := 33_333_334

  function DueAt(start: int, interval: int): int {
    start + interval
  }

  function StrictDueAt(start: int, interval: int): int {
    start + interval + 1
  }

  function Max(a: int, b: int): int {
    if a < b then b else a
  }

  function Earlier(a: Option<int>, b: Option<int>): Option<int> {
    match (a, b)
    case (None, _) => b
    case (_, None) => a
    case (Some(x), Some(y)) => if x < y then a else b
  }

  /** A deadline is still ahead of `t`; an absent one always is. */
  predicate After(due: Option<int>, t: int) {
    due.Some? ==> t < due.value
  }

  /** The earlier of two deadlines is ahead exactly when both are. */
  lemma EarlierAfter(a: Option<int>, b: Option<int>, t: int)
    ensures After(Earlier(a, b), t) <==> After(a, t) && After(b, t)
  {
  }

  /** The smallest whole number of ticks that is at least `ticks`. */
  function Ceil(ticks: real): (n: int)
    ensures n as real >= ticks && (n - 1) as real < ticks
  {
    -((-ticks).Floor)
  }

  /** A controller timer: stopping keeps its start time, and resetting does not start it. */
  datatype Timer = Timer(start: int, started: bool) {
    function Elapsed(now: int): int {
      if started then now - start else 0
    }

    function Start(now: int): Timer {
      Timer(now, true)
    }

    function Reset(now: int): Timer {
      Timer(now, started)
    }

    function Stop(): Timer {
      Timer(start, false)
    }

    function DueAfter(interval: int): Option<int> {
      if started then Some(DueAt(start, interval)) else None
    }

    /** Whether an every-`interval` action runs now: a stopped timer starts and runs at once. */
    predicate Runs(now: int, interval: int) {
      !started || Elapsed(now) >= interval
    }

    /** The timer after that question, when running also resets it. */
    function Ran(now: int, interval: int): Timer {
      if !started then Start(now) else if Elapsed(now) >= interval then Reset(now) else this
    }
  }

  const STOPPED := Timer(0, false)
}
