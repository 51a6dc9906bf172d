/** The one-slot buffer between the NMPC worker and the owner of the control turn. */
module ResultBuffer {
  import opened Options
  import opened Sensors

  const DISPATCHER_BUSY: int := -1
  const REFERENCE_SAMPLING_FAILED: int := -2
  const BACKEND_UNAVAILABLE: int := -3

  datatype Target = Target(rates: Vec3, thrust: real)

  /** A time stamp in ticks; it is canonical when its nanosecond field is below one second. */
  datatype Stamp = Stamp(ns: int, canonical: bool)

  datatype SolveResult = SolveResult(
    generation: nat, sequence: nat, success: bool, status: int, stamp: Stamp, target: Target)

  /** Generation 0 stands for "no generation is active". */
  datatype Results = Results(latest: Option<SolveResult>, generations: nat, active: nat, requests: nat)

  const NO_RESULTS := Results(None, 0, 0, 0)

  function Begun(r: Results): Results {
    Results(None, r.generations + 1, r.generations + 1, r.requests)
  }

  /** Invalidating generation 0 invalidates whatever is active. */
  function Invalidated(r: Results, generation: nat): Results {
    if generation == 0 || generation == r.active then r.(latest := None, active := 0) else r
  }

  predicate IsActive(r: Results, generation: nat) {
    generation != 0 && generation == r.active
  }

  function Reserved(r: Results): Results {
    r.(requests := r.requests + 1)
  }

  predicate Storable(r: Results, x: SolveResult) {
    && r.active != 0 && x.generation == r.active
    && 0 < x.sequence <= r.requests && x.stamp.canonical
    && (r.latest.Some? ==> r.latest.value.sequence < x.sequence)
  }

  function Stored(r: Results, x: SolveResult): Results {
    if Storable(r, x) then r.(latest := Some(x)) else r
  }

  predicate HasNewer(r: Results, sequence: nat) {
    r.latest.Some? && r.active != 0 && r.latest.value.generation == r.active && sequence < r.latest.value.sequence
  }

  /** A non-positive timeout disables the age limit, but never admits a stamp from the future. */
  predicate TimestampFresh(stamp: Stamp, now: int, timeout: int) {
    stamp.canonical && stamp.ns <= now && (timeout <= 0 || now - stamp.ns <= timeout)
  }

  class NmpcResultBuffer {
    var latest: Option<SolveResult>
    var generations: nat
    var active: nat
    var requests: nat

    ghost function View(): Results
      reads this
    {
      Results(latest, generations, active, requests)
    }

    constructor ()
      ensures View() == NO_RESULTS
    {
      latest, generations, active, requests := None, 0, 0, 0;
    }

    method BeginGeneration() returns (generation: nat)
      modifies this
      ensures View() == Begun(old(View())) && generation == active
    {
      generations := generations + 1;
      active := generations;
      latest := None;
      generation := active;
    }

    method InvalidateGeneration(generation: nat)
      modifies this
      ensures View() == Invalidated(old(View()), generation)
    {
      if generation == 0 || generation == active {
        active := 0;
        latest := None;
      }
    }

    method ReserveRequestSequence() returns (sequence: nat)
      modifies this
      ensures View() == Reserved(old(View())) && sequence == requests
    {
      requests := requests + 1;
      sequence := requests;
    }

    method Store(x: SolveResult) returns (stored: bool)
      modifies this
      ensures stored == Storable(old(View()), x) && View() == Stored(old(View()), x)
    {
      if active == 0 || x.generation != active || x.sequence == 0 || x.sequence > requests || !x.stamp.canonical {
        return false;
      }
      if latest.Some? && x.sequence <= latest.value.sequence {
        return false;
      }
      latest := Some(x);
      return true;
    }

    method ConsumeNewerThan(sequence: nat) returns (x: Option<SolveResult>)
      ensures x == if HasNewer(View(), sequence) then latest else None
    {
      if latest == None || active == 0 || latest.value.generation != active || latest.value.sequence <= sequence {
        return None;
      }
      return latest;
    }
  }
}
