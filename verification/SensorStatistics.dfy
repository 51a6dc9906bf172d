/**
 Receive statistics: a window of the last receipts per stream, updated on a 100 ms grid, and a
 heartbeat on a 1 s grid.
 */
module SensorStatistics {
  import opened Options

  const STATISTICS_PERIOD: int := 100_000_000
  const HEARTBEAT_PERIOD: int := 1_000_000_000
  const ACTIVE_LIMIT: int := 2_500_000_000
  const WINDOW: nat := 10
  const STREAMS: nat := 7
  const TICKS_PER_SECOND := 1000000000.0

  // -------------------------------------------------------------------- deadlines

  /** The next tick of a deadline's grid, once it is reached. */
  function NextDeadline(deadline: int, now: int, period: int): int
    requires deadline <= now && period > 0
  {
    now + (period - (now - deadline) % period)
  }

  function Advanced(deadline: int, now: int, period: int): int
    requires period > 0
  {
    if now >= deadline then NextDeadline(deadline, now, period) else deadline
  }

  /** The first tick strictly after t of the grid that `start` begins. */
  function GridAfter(start: int, period: int, t: int): int
    requires period > 0
  {
    start + period * ((t - start) / period + 1)
  }

  predicate OnGrid(start: int, period: int, t: int)
    requires period > 0
  {
    (t - start) % period == 0
  }

  lemma GridAfterIsFirst(start: int, period: int, t: int)
    requires period > 0
    ensures var g := GridAfter(start, period, t);
            t < g <= t + period && OnGrid(start, period, g) && forall u :: t < u < g ==> !OnGrid(start, period, u)
  {
    var q := (t - start) / period;
    var g := GridAfter(start, period, t);
    Division(t - start, period);
    OneMore(q, period);
    Quotients(q + 1, 0, period);
    assert g == start + (q + 1) * period;
    forall u | t < u < g ensures !OnGrid(start, period, u) {
      Division(u - start, period);
      NotBetween(q, (u - start) / period, period);
    }
  }

  lemma Division(x: int, period: int)
    requires period > 0
    ensures x == (x / period) * period + x % period && 0 <= x % period < period
  {
  }

  lemma OneMore(q: int, period: int)
    ensures (q + 1) * period == q * period + period == period * (q + 1)
  {
  }

  lemma MulLe(a: int, b: int, c: int)
    requires a <= b && c >= 0
    ensures a * c <= b * c
  {
  }

  lemma Quotients(q: int, r: int, period: int)
    requires 0 <= r < period
    ensures (q * period + r) / period == q && (q * period + r) % period == r
  {
    var x := q * period + r;
    var d := x / period;
    assert d * period <= x < (d + 1) * period;
    if d < q {
      MulLe(d + 1, q, period);
    } else if d > q {
      MulLe(q + 1, d, period);
    }
  }

  lemma NotBetween(q: int, m: int, period: int)
    requires period > 0
    ensures !(q * period < m * period < (q + 1) * period)
  {
    if m <= q {
      MulLe(m, q, period);
    } else {
      MulLe(q + 1, m, period);
    }
  }

  /** Two first ticks after the same or after neighbouring times are the same. */
  lemma FirstIsUnique(start: int, period: int, t: int, g: int)
    requires period > 0 && t < g && OnGrid(start, period, g)
    requires forall u :: t < u < g ==> !OnGrid(start, period, u)
    ensures g == GridAfter(start, period, t)
  {
    GridAfterIsFirst(start, period, t);
  }

  /** The code's formula steps to the first later tick of the same grid. */
  lemma NextDeadlineOnGrid(start: int, deadline: int, now: int, period: int)
    requires period > 0 && deadline <= now && OnGrid(start, period, deadline)
    ensures NextDeadline(deadline, now, period) == GridAfter(start, period, now)
  {
    var k, q, r := (deadline - start) / period, (now - deadline) / period, (now - deadline) % period;
    assert deadline == start + k * period && now == deadline + q * period + r;
    calc {
      NextDeadline(deadline, now, period);
      deadline + q * period + period;
      start + k * period + q * period + period;
      start + (k + q + 1) * period;
    }
    Quotients(k + q, r, period);
    assert now - start == (k + q) * period + r;
  }

  /** The deadline after a series of advances, which may come at any times. */
  function DeadlineAfter(start: int, period: int, nows: seq<int>): int
    requires period > 0
  {
    if nows == [] then start + period
    else Advanced(DeadlineAfter(start, period, nows[..|nows| - 1]), nows[|nows| - 1], period)
  }

  /** The latest of the times at which the clock was advanced. */
  function Latest(start: int, nows: seq<int>): int {
    if nows == [] then start
    else
      var before, now := Latest(start, nows[..|nows| - 1]), nows[|nows| - 1];
      if before < now then now else before
  }

  /**
   After any series of advances the deadline is the first tick of the original grid after the latest
   of them: it never drifts and never falls behind, and passed ticks are not replayed.
   */
  lemma {:induction false} DeadlineStaysOnGrid(start: int, period: int, nows: seq<int>)
    requires period > 0
    ensures DeadlineAfter(start, period, nows) == GridAfter(start, period, Latest(start, nows))
  {
    if nows == [] {
      assert (start - start) / period == 0;
    } else {
      var before, now := nows[..|nows| - 1], nows[|nows| - 1];
      DeadlineStaysOnGrid(start, period, before);
      var deadline := DeadlineAfter(start, period, before);
      GridAfterIsFirst(start, period, Latest(start, before));
      if now >= deadline {
        NextDeadlineOnGrid(start, deadline, now, period);
      } else if Latest(start, before) < now {
        FirstIsUnique(start, period, now, deadline);
      }
    }
  }

  /** An advance does its work exactly when a tick of the grid lies between the latest advance and now. */
  lemma WorksOncePerTick(start: int, period: int, nows: seq<int>, now: int)
    requires period > 0
    ensures now >= DeadlineAfter(start, period, nows) <==>
            exists g :: OnGrid(start, period, g) && Latest(start, nows) < g <= now
    ensures now < DeadlineAfter(start, period, nows + [now])
    ensures Latest(start, nows) <= now ==> DeadlineAfter(start, period, nows + [now]) <= now + period
  {
    DeadlineStaysOnGrid(start, period, nows);
    GridAfterIsFirst(start, period, Latest(start, nows));
    assert (nows + [now])[..|nows|] == nows;
    DeadlineStaysOnGrid(start, period, nows + [now]);
    GridAfterIsFirst(start, period, Latest(start, nows + [now]));
  }

  // ---------------------------------------------------------------------- window

  /** `variance` is the square of the reported jitter; times and intervals are in ticks. */
  datatype TopicStats = TopicStats(
    frequency: real, dtMax: int, variance: real, sinceLast: int, lastMessage: nat, isActive: bool, isNew: bool)

  /** The last receipts of one stream and the intervals before them. Time 0 means "none yet". */
  datatype Track = Track(
    times: seq<nat>, dt: seq<int>, last: nat, effective: Option<real>, validFrames: nat, stats: TopicStats)

  const EMPTY_TRACK := Track([], [], 0, None, 0, TopicStats(-1.0, 0, 0.0, 0, 0, false, false))

  /** The time from one receipt to the next, which is not counted from time 0. */
  function Interval(before: int, receipt: int): int {
    if before == 0 then 0 else receipt - before
  }

  function Span(times: seq<nat>): int
    requires times != []
  {
    var first: int, last: int := times[0], times[|times| - 1];
    last - first
  }

  function Observed(t: Track, receipt: nat): Track {
    var times, dts := t.times + [receipt], t.dt + [Interval(t.last, receipt)];
    t.(times := if |times| > WINDOW then times[1..] else times,
       dt := if |times| > WINDOW && dts != [] then dts[1..] else dts,
       last := receipt,
       stats := t.stats.(lastMessage := receipt, isActive := true, isNew := true))
  }

  /** Each interval but the first is the distance to the receipt before, unless that was at time 0. */
  predicate Aligned(t: Track) {
    && |t.dt| == |t.times| <= WINDOW
    && (forall i :: 0 < i < |t.dt| ==> t.dt[i] == Interval(t.times[i - 1], t.times[i]))
    && t.last == if t.times == [] then 0 else t.times[|t.times| - 1]
  }

  lemma ObservingKeepsAlignment(t: Track, receipt: nat)
    requires Aligned(t)
    ensures Aligned(Observed(t, receipt))
  {
    var times, dts := t.times + [receipt], t.dt + [Interval(t.last, receipt)];
    assert forall i :: 0 < i < |dts| ==> dts[i] == Interval(times[i - 1], times[i]);
  }

  function Observations(receipts: seq<nat>): Track {
    if receipts == [] then EMPTY_TRACK
    else Observed(Observations(receipts[..|receipts| - 1]), receipts[|receipts| - 1])
  }

  /** The window holds exactly the last ten receipts, or all of them, aligned with their intervals. */
  lemma {:induction false} WindowIsSuffix(receipts: seq<nat>)
    ensures var t := Observations(receipts);
            && Aligned(t)
            && t.times == if |receipts| <= WINDOW then receipts else receipts[|receipts| - WINDOW..]
  {
    if receipts != [] {
      var before := receipts[..|receipts| - 1];
      WindowIsSuffix(before);
      ObservingKeepsAlignment(Observations(before), receipts[|receipts| - 1]);
      assert receipts == before + [receipts[|receipts| - 1]];
    }
  }

  function Sum(xs: seq<int>): int {
    if xs == [] then 0 else Sum(xs[..|xs| - 1]) + xs[|xs| - 1]
  }

  /** How much of the time was not counted because a receipt at time 0 came before. */
  function Uncounted(times: seq<nat>): nat {
    if |times| <= 1 then 0
    else Uncounted(times[..|times| - 1]) + if times[|times| - 2] == 0 then times[|times| - 1] else 0
  }

  lemma {:induction false} IntervalsCover(times: seq<nat>, dt: seq<int>)
    requires |dt| == |times| > 0
    requires forall i :: 0 < i < |dt| ==> dt[i] == Interval(times[i - 1], times[i])
    ensures Sum(dt[1..]) == Span(times) - Uncounted(times)
  {
    var n := |times| - 1;
    if n > 0 {
      IntervalsCover(times[..n], dt[..n]);
      assert dt[1..][..n - 1] == dt[..n][1..];
    }
  }

  /** The interval before receipt i is all counted. */
  predicate Counted(times: seq<nat>, i: int)
    requires 0 < i < |times|
  {
    times[i - 1] != 0 || times[i] == 0
  }

  lemma {:induction false} UncountedIsZero(times: seq<nat>)
    ensures Uncounted(times) == 0 <==> forall i :: 0 < i < |times| ==> Counted(times, i)
  {
    if |times| > 1 {
      var n := |times| - 1;
      UncountedIsZero(times[..n]);
      assert forall i :: 0 < i < n ==> Counted(times[..n], i) == Counted(times, i);
      assert Counted(times, n) || Uncounted(times) > 0;
    }
  }

  /**
   The intervals after the first add up to the time from the first receipt of the window to the last,
   exactly when no later receipt in the window follows one at time 0.
   */
  lemma IntervalsAddUp(receipts: seq<nat>)
    requires receipts != []
    ensures var t := Observations(receipts);
            && t.times != [] && |t.dt| == |t.times|
            && (Sum(t.dt[1..]) == Span(t.times) <==>
                forall i :: 0 < i < |t.times| ==> Counted(t.times, i))
  {
    WindowIsSuffix(receipts);
    var t := Observations(receipts);
    IntervalsCover(t.times, t.dt);
    UncountedIsZero(t.times);
  }

  // ------------------------------------------------------------------ statistics

  function Squares(xs: seq<int>, mean: real): real {
    if xs == [] then 0.0
    else
      var d := xs[|xs| - 1] as real - mean;
      Squares(xs[..|xs| - 1], mean) + d * d
  }

  function Mean(xs: seq<int>): real
    requires xs != []
  {
    Sum(xs) as real / |xs| as real
  }

  function Variance(xs: seq<int>): real
    requires xs != []
  {
    Squares(xs, Mean(xs)) / |xs| as real
  }

  predicate IsGreatest(xs: seq<int>, m: int) {
    m >= 0 && (m == 0 || m in xs) && forall x :: x in xs ==> x <= m
  }

  lemma {:induction false} SquaresShift(xs: seq<int>, mean: real)
    ensures Squares(xs, mean) == Shifted(Squares(xs, 0.0), Sum(xs) as real, |xs| as real, mean)
  {
    if xs != [] {
      var n := |xs| - 1;
      SquaresShift(xs[..n], mean);
      ShiftStep(Squares(xs[..n], 0.0), Sum(xs[..n]) as real, xs[n] as real, n as real, mean);
      hide Shifted;
    }
  }

  /** The sum of the squared distances from m of n numbers, by the sum q of their squares and their sum s. */
  ghost function Shifted(q: real, s: real, n: real, m: real): real {
    q - 2.0 * m * s + n * m * m
  }

  lemma ShiftStep(q: real, s: real, x: real, n: real, m: real)
    ensures Shifted(q, s, n, m) + (x - m) * (x - m) == Shifted(q + x * x, s + x, n + 1.0, m)
    ensures (x - 0.0) * (x - 0.0) == x * x
  {
    assert (x - m) * (x - m) == x * x - 2.0 * m * x + m * m;
    assert 2.0 * m * (s + x) == 2.0 * m * s + 2.0 * m * x;
    assert (n + 1.0) * m * m == n * m * m + m * m;
  }

  /** The variance is the mean of the squares less the square of the mean. */
  lemma VarianceFormula(xs: seq<int>)
    requires xs != []
    ensures Variance(xs) == Squares(xs, 0.0) / |xs| as real - Mean(xs) * Mean(xs)
  {
    hide Squares, Sum;
    var n, m := |xs| as real, Mean(xs);
    SquaresShift(xs, m);
    MeanScales(Sum(xs) as real, n, m);
    Divide(Squares(xs, 0.0), n, m);
  }

  lemma MeanScales(sum: real, n: real, m: real)
    requires n > 0.0 && m == sum / n
    ensures 2.0 * m * sum == 2.0 * n * m * m
  {
    assert sum == n * m;
  }

  lemma Divide(q: real, n: real, m: real)
    requires n > 0.0
    ensures (q - 2.0 * n * m * m + n * m * m) / n == q / n - m * m
  {
    assert q - 2.0 * n * m * m + n * m * m == q - n * (m * m);
    assert (q - n * (m * m)) / n == q / n - m * m;
  }

  function Greatest(xs: seq<int>): int {
    if xs == [] then 0
    else if Greatest(xs[..|xs| - 1]) < xs[|xs| - 1] then xs[|xs| - 1] else Greatest(xs[..|xs| - 1])
  }

  lemma {:induction false} GreatestIsGreatest(xs: seq<int>)
    ensures IsGreatest(xs, Greatest(xs))
  {
    if xs != [] {
      GreatestIsGreatest(xs[..|xs| - 1]);
      assert xs == xs[..|xs| - 1] + [xs[|xs| - 1]];
    }
  }

  /** So many in so many ticks, in hertz. */
  function Rate(count: int, duration: int): real
    requires duration > 0
  {
    count as real / (duration as real / TICKS_PER_SECOND)
  }

  /** The statistics of a stream after an update; fewer than two receipts have none. */
  function Updated(t: Track): Track
    requires Aligned(t)
  {
    if |t.times| < 2 then t
    else
      var duration := Span(t.times);
      var counts := t.effective.Some? && duration > 0;
      t.(stats := t.stats.(
           frequency := if duration > 0 then Rate(|t.times| - 1, duration) else t.stats.frequency,
           dtMax := Greatest(t.dt), variance := Variance(t.dt)),
         effective := if counts then Some(Rate(t.validFrames, duration)) else t.effective,
         validFrames := if counts then 0 else t.validFrames)
  }

  function Heartbeat(t: Track, now: nat): Track {
    if t.times == [] then t
    else
      var elapsed := now - t.times[|t.times| - 1];
      t.(stats := t.stats.(sinceLast := elapsed, isActive := elapsed <= ACTIVE_LIMIT))
  }

  /** One stream with the deadlines that all streams share. */
  datatype Stream = Stream(track: Track, started: bool, nextStats: int, nextHeartbeat: int)

  /** The deadline that an advance meets: its own, or one period on from it if it is the first. */
  function Met(started: bool, next: int, now: int, period: int): int {
    if started then next else now + period
  }

  function AdvancedStream(s: Stream, now: nat): Stream
    requires Aligned(s.track)
  {
    var stats := Met(s.started, s.nextStats, now, STATISTICS_PERIOD);
    var heartbeat := Met(s.started, s.nextHeartbeat, now, HEARTBEAT_PERIOD);
    var track := if now >= stats then Updated(s.track) else s.track;
    Stream(if now >= heartbeat then Heartbeat(track, now) else track, true,
           Advanced(stats, now, STATISTICS_PERIOD), Advanced(heartbeat, now, HEARTBEAT_PERIOD))
  }

  class Statistics {
    var tracks: array<Track>
    var nextStats: int
    var nextHeartbeat: int
    var started: bool

    ghost predicate Valid()
      reads this, tracks
    {
      tracks.Length == STREAMS && forall i :: 0 <= i < STREAMS ==> Aligned(tracks[i])
    }

    ghost function View(i: nat): Stream
      requires Valid() && i < STREAMS
      reads this, tracks
    {
      Stream(tracks[i], started, nextStats, nextHeartbeat)
    }

    constructor ()
      ensures Valid() && fresh(tracks) && !started
      ensures forall i :: 0 <= i < STREAMS ==> tracks[i] == EMPTY_TRACK
    {
      tracks := new Track[STREAMS](_ => EMPTY_TRACK);
      nextStats, nextHeartbeat, started := 0, 0, false;
    }

    method Start(now: nat)
      requires Valid()
      modifies this`nextStats, this`nextHeartbeat, this`started
      ensures started
      ensures nextStats == if old(started) then old(nextStats) else now + STATISTICS_PERIOD
      ensures nextHeartbeat == if old(started) then old(nextHeartbeat) else now + HEARTBEAT_PERIOD
    {
      if started {
        return;
      }
      nextStats, nextHeartbeat, started := now + STATISTICS_PERIOD, now + HEARTBEAT_PERIOD, true;
    }

    method Observe(stream: nat, receipt: nat)
      requires Valid() && stream < STREAMS
      modifies tracks
      ensures Valid()
      ensures View(stream) == old(View(stream)).(track := Observed(old(tracks[stream]), receipt))
      ensures forall i :: 0 <= i < STREAMS && i != stream ==> tracks[i] == old(tracks[i])
    {
      ObservingKeepsAlignment(tracks[stream], receipt);
      var t := tracks[stream];
      var dt: int := 0;
      if t.last != 0 {
        dt := receipt as int - t.last as int;
      }
      t := t.(times := t.times + [receipt], dt := t.dt + [dt]);
      if |t.times| > WINDOW {
        t := t.(times := t.times[1..], dt := t.dt[1..]);
      }
      t := t.(last := receipt, stats := t.stats.(lastMessage := receipt, isActive := true, isNew := true));
      tracks[stream] := t;
    }

    /** The greatest of the intervals, or 0. */
    method Widest(dt: seq<int>) returns (dtMax: int)
      ensures dtMax == Greatest(dt) && IsGreatest(dt, dtMax)
    {
      dtMax := 0;
      for i := 0 to |dt|
        invariant dtMax == Greatest(dt[..i])
      {
        assert dt[..i + 1][..i] == dt[..i];
        if dtMax < dt[i] {
          dtMax := dt[i];
        }
      }
      assert dt[..|dt|] == dt;
      GreatestIsGreatest(dt);
    }

    method Average(dt: seq<int>) returns (mean: real)
      requires dt != []
      ensures mean == Mean(dt)
    {
      var sum := 0;
      for i := 0 to |dt|
        invariant sum == Sum(dt[..i])
      {
        assert dt[..i + 1][..i] == dt[..i];
        sum := sum + dt[i];
      }
      assert dt[..|dt|] == dt;
      mean := sum as real / |dt| as real;
    }

    /** The mean square deviation of the intervals. */
    method Deviation(dt: seq<int>) returns (variance: real)
      requires dt != []
      ensures variance == Variance(dt)
    {
      var mean := Average(dt);
      variance := 0.0;
      for i := 0 to |dt|
        invariant variance == Squares(dt[..i], mean)
      {
        assert dt[..i + 1][..i] == dt[..i];
        var diff := dt[i] as real - mean;
        variance := variance + diff * diff;
      }
      assert dt[..|dt|] == dt;
      variance := variance / |dt| as real;
    }

    method UpdateStatistics()
      requires Valid()
      modifies tracks
      ensures Valid()
      ensures forall i :: 0 <= i < STREAMS ==> tracks[i] == Updated(old(tracks[i]))
    {
      for k := 0 to tracks.Length
        invariant forall i :: 0 <= i < k ==> tracks[i] == Updated(old(tracks[i]))
        invariant forall i :: k <= i < STREAMS ==> tracks[i] == old(tracks[i])
      {
        var t := tracks[k];
        if |t.times| >= 2 {
          var dtMax := Widest(t.dt);
          var variance := Deviation(t.dt);
          var duration := Span(t.times);
          var seconds := duration as real / TICKS_PER_SECOND;
          t := t.(stats := t.stats.(dtMax := dtMax, variance := variance));
          if duration > 0 {
            t := t.(stats := t.stats.(frequency := (|t.times| - 1) as real / seconds));
            if t.effective.Some? {
              t := t.(effective := Some(t.validFrames as real / seconds), validFrames := 0);
            }
          }
          tracks[k] := t;
        }
      }
    }

    method UpdateHeartbeats(now: nat)
      requires Valid()
      modifies tracks
      ensures Valid()
      ensures forall i :: 0 <= i < STREAMS ==> tracks[i] == Heartbeat(old(tracks[i]), now)
      ensures forall i :: 0 <= i < STREAMS && old(tracks[i]).times != [] ==>
                var times := old(tracks[i]).times;
                var silence: int := now - times[|times| - 1];
                && tracks[i].stats.sinceLast == silence
                && (tracks[i].stats.isActive <==> silence <= 2_500_000_000)
    {
      for k := 0 to tracks.Length
        invariant forall i :: 0 <= i < k ==> tracks[i] == Heartbeat(old(tracks[i]), now)
        invariant forall i :: k <= i < STREAMS ==> tracks[i] == old(tracks[i])
      {
        var t := tracks[k];
        if t.times != [] {
          var elapsed := now - t.times[|t.times| - 1];
          tracks[k] := t.(stats := t.stats.(sinceLast := elapsed, isActive := elapsed <= ACTIVE_LIMIT));
        }
      }
    }

    method Advance(now: nat)
      requires Valid()
      modifies this`nextStats, this`nextHeartbeat, this`started, tracks
      ensures Valid() && started
      ensures forall i :: 0 <= i < STREAMS ==> View(i) == AdvancedStream(old(View(i)), now)
    {
      if !started {
        Start(now);
      }
      if now >= nextStats {
        UpdateStatistics();
        nextStats := NextDeadline(nextStats, now, STATISTICS_PERIOD);
      }
      if now >= nextHeartbeat {
        UpdateHeartbeats(now);
        nextHeartbeat := NextDeadline(nextHeartbeat, now, HEARTBEAT_PERIOD);
      }
    }

    method NextWake() returns (due: Option<int>)
      ensures due == if !started then None else Some(if nextStats < nextHeartbeat then nextStats else nextHeartbeat)
    {
      if !started {
        return None;
      }
      return Some(if nextStats < nextHeartbeat then nextStats else nextHeartbeat);
    }

    method ResetNewFlags()
      requires Valid()
      modifies tracks
      ensures Valid()
      ensures forall i :: 0 <= i < STREAMS ==>
                tracks[i] == old(tracks[i]).(stats := old(tracks[i]).stats.(isNew := false))
    {
      for k := 0 to tracks.Length
        invariant forall i :: 0 <= i < k ==>
                    tracks[i] == old(tracks[i]).(stats := old(tracks[i]).stats.(isNew := false))
        invariant forall i :: k <= i < STREAMS ==> tracks[i] == old(tracks[i])
      {
        tracks[k] := tracks[k].(stats := tracks[k].stats.(isNew := false));
      }
    }
  }
}
