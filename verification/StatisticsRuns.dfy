/** What the statistics of a stream say after any series of receipts and advances. */
module StatisticsRuns {
  import opened SensorStatistics

  /** The marks of new messages are cleared after each turn of the owner. */
  datatype Event = Receives(receipt: nat) | Advances(now: nat) | Clears

  function Run(es: seq<Event>): (s: Stream)
    ensures Aligned(s.track)
  {
    if es == [] then Stream(EMPTY_TRACK, false, 0, 0)
    else
      var s := Run(es[..|es| - 1]);
      match es[|es| - 1]
      case Receives(receipt) =>
        ObservingKeepsAlignment(s.track, receipt);
        s.(track := Observed(s.track, receipt))
      case Advances(now) => AdvancedStream(s, now)
      case Clears => s.(track := s.track.(stats := s.track.stats.(isNew := false)))
  }

  function Receipts(es: seq<Event>): seq<nat> {
    if es == [] then []
    else
      var before := Receipts(es[..|es| - 1]);
      match es[|es| - 1] case Receives(receipt) => before + [receipt] case _ => before
  }

  function Times(es: seq<Event>): seq<int> {
    if es == [] then []
    else
      var before := Times(es[..|es| - 1]);
      match es[|es| - 1] case Advances(now) => before + [now] case _ => before
  }

  /** The last ten receipts, or all of them. */
  function Window(receipts: seq<nat>): seq<nat> {
    if |receipts| <= 10 then receipts else receipts[|receipts| - 10..]
  }

  lemma AdvanceKeepsWindow(s: Stream, now: nat)
    requires Aligned(s.track)
    ensures var t := AdvancedStream(s, now).track;
            t.times == s.track.times && t.dt == s.track.dt && t.last == s.track.last
  {
    hide Greatest, Variance, Advanced;
  }

  lemma ObservedReads(t: Track, u: Track, receipt: nat)
    requires t.times == u.times && t.dt == u.dt && t.last == u.last
    ensures var t', u' := Observed(t, receipt), Observed(u, receipt);
            t'.times == u'.times && t'.dt == u'.dt && t'.last == u'.last
  {
  }

  lemma {:induction false} TrackOfRun(es: seq<Event>)
    ensures var t, seen := Run(es).track, Observations(Receipts(es));
            t.times == seen.times && t.dt == seen.dt && t.last == seen.last
  {
    hide AdvancedStream, Observed;
    if es != [] {
      var before := es[..|es| - 1];
      TrackOfRun(before);
      match es[|es| - 1]
      case Receives(receipt) =>
        assert Receipts(es)[..|Receipts(es)| - 1] == Receipts(before);
        ObservedReads(Run(before).track, Observations(Receipts(before)), receipt);
      case Advances(now) => AdvanceKeepsWindow(Run(before), now);
      case Clears =>
    }
  }

  /** The window holds the last ten receipts, and depends on the receipts only. */
  lemma WindowOfRun(es: seq<Event>)
    ensures var t, seen := Run(es).track, Observations(Receipts(es));
            t.times == seen.times == Window(Receipts(es)) && t.dt == seen.dt && t.last == seen.last
  {
    TrackOfRun(es);
    WindowIsSuffix(Receipts(es));
  }

  /** The deadlines depend on the times of the advances only. */
  lemma {:induction false} DeadlinesOfRun(es: seq<Event>)
    ensures var s, times := Run(es), Times(es);
            && (s.started <==> times != [])
            && (s.started ==>
                  && s.nextStats == DeadlineAfter(times[0], STATISTICS_PERIOD, times)
                  && s.nextHeartbeat == DeadlineAfter(times[0], HEARTBEAT_PERIOD, times))
  {
    hide Updated, Heartbeat, Observed, Advanced;
    if es != [] {
      var before := es[..|es| - 1];
      DeadlinesOfRun(before);
      if es[|es| - 1].Advances? {
        var times, now := Times(es), es[|es| - 1].now;
        assert times[..|times| - 1] == Times(before);
        if Times(before) == [] {
          FirstDeadline(now, STATISTICS_PERIOD);
          FirstDeadline(now, HEARTBEAT_PERIOD);
          assert times == [now];
          assert DeadlineAfter(now, STATISTICS_PERIOD, []) == now + STATISTICS_PERIOD;
          assert DeadlineAfter(now, HEARTBEAT_PERIOD, []) == now + HEARTBEAT_PERIOD;
        }
      }
    }
  }

  /** The advance at the end of es passes a tick of the grid that the first advance began. */
  ghost predicate PassesTick(es: seq<Event>, now: nat, period: int)
    requires period > 0
  {
    var times := Times(es);
    times != [] && exists g :: OnGrid(times[0], period, g) && Latest(times[0], times) < g <= now
  }

  /** An advance works exactly when it passes a tick. */
  lemma WorksOnTicks(es: seq<Event>, now: nat)
    ensures var s := Run(es);
            && (now >= Met(s.started, s.nextStats, now, STATISTICS_PERIOD) <==> PassesTick(es, now, 100_000_000))
            && (now >= Met(s.started, s.nextHeartbeat, now, HEARTBEAT_PERIOD) <==>
                  PassesTick(es, now, 1_000_000_000))
  {
    DeadlinesOfRun(es);
    hide Run, DeadlineAfter, OnGrid, Latest;
    var times := Times(es);
    if times != [] {
      WorksOncePerTick(times[0], STATISTICS_PERIOD, times, now);
      WorksOncePerTick(times[0], HEARTBEAT_PERIOD, times, now);
    }
  }

  // ------------------------------------------------------------------- activity

  /** How long ago the last receipt was. */
  function Silence(es: seq<Event>, now: int): int
    requires Receipts(es) != []
  {
    now - Receipts(es)[|Receipts(es)| - 1]
  }

  /** A stream lives from a receipt on, and past a heartbeat while it has been silent for at most 2.5 s. */
  ghost predicate Lives(es: seq<Event>) {
    if es == [] then false
    else
      var before := es[..|es| - 1];
      match es[|es| - 1]
      case Receives(_) => true
      case Clears => Lives(before)
      case Advances(now) =>
        if Receipts(before) != [] && PassesTick(before, now, 1_000_000_000) then
          Silence(before, now) <= 2_500_000_000
        else Lives(before)
  }

  /** How long the stream had been silent at the last heartbeat that found a receipt. */
  ghost function SilenceSeen(es: seq<Event>): int {
    if es == [] then 0
    else
      var before := es[..|es| - 1];
      match es[|es| - 1]
      case Receives(_) => SilenceSeen(before)
      case Clears => SilenceSeen(before)
      case Advances(now) =>
        if Receipts(before) != [] && PassesTick(before, now, 1_000_000_000) then Silence(before, now)
        else SilenceSeen(before)
  }

  lemma HeartbeatStep(s: Stream, now: nat)
    requires Aligned(s.track)
    ensures var t, beats := AdvancedStream(s, now).track, now >= Met(s.started, s.nextHeartbeat, now, HEARTBEAT_PERIOD);
            if beats && s.track.times != [] then
              var silence: int := now - s.track.times[|s.track.times| - 1];
              t.stats.sinceLast == silence && (t.stats.isActive <==> silence <= 2_500_000_000)
            else t.stats.isActive == s.track.stats.isActive && t.stats.sinceLast == s.track.stats.sinceLast
  {
    hide Greatest, Variance, Advanced;
  }

  /** After any series of receipts and advances a stream is active exactly while it lives. */
  lemma {:induction false} ActiveWhileAlive(es: seq<Event>)
    ensures var stats := Run(es).track.stats; (stats.isActive <==> Lives(es)) && stats.sinceLast == SilenceSeen(es)
  {
    hide PassesTick, AdvancedStream;
    if es != [] {
      var before := es[..|es| - 1];
      ActiveWhileAlive(before);
      WindowOfRun(before);
      if es[|es| - 1].Advances? {
        WorksOnTicks(before, es[|es| - 1].now);
        HeartbeatStep(Run(before), es[|es| - 1].now);
      }
    }
  }

  /** A message was received after the last clearing. */
  predicate ReceivedSince(es: seq<Event>) {
    exists j :: 0 <= j < |es| && es[j].Receives? && forall i :: j < i < |es| ==> !es[i].Clears?
  }

  lemma ReceivedStep(es: seq<Event>)
    requires es != []
    ensures ReceivedSince(es) <==>
            es[|es| - 1].Receives? || (es[|es| - 1].Advances? && ReceivedSince(es[..|es| - 1]))
  {
    var n := |es| - 1;
    var before := es[..n];
    if ReceivedSince(before) && !es[n].Clears? {
      var j :| 0 <= j < n && before[j].Receives? && forall i :: j < i < n ==> !before[i].Clears?;
      assert es[j].Receives? && forall i :: j < i < n ==> es[i] == before[i];
    }
    if ReceivedSince(es) && !es[n].Receives? {
      var j :| 0 <= j < |es| && es[j].Receives? && forall i :: j < i < |es| ==> !es[i].Clears?;
      assert before[j].Receives? && forall i :: j < i < n ==> before[i] == es[i];
    }
  }

  lemma AdvanceKeepsMarks(s: Stream, now: nat)
    requires Aligned(s.track)
    ensures var stats := AdvancedStream(s, now).track.stats;
            stats.isNew == s.track.stats.isNew && stats.lastMessage == s.track.stats.lastMessage
  {
    hide Greatest, Variance, Advanced;
  }

  /** A stream is new exactly when it has received a message since the marks were last cleared. */
  lemma {:induction false} NewWhenReceived(es: seq<Event>)
    ensures var stats, receipts := Run(es).track.stats, Receipts(es);
            && (stats.isNew <==> ReceivedSince(es))
            && stats.lastMessage == if receipts == [] then 0 else receipts[|receipts| - 1]
  {
    if es != [] {
      var before := es[..|es| - 1];
      NewWhenReceived(before);
      ReceivedStep(es);
      hide ReceivedSince, AdvancedStream;
      if es[|es| - 1].Advances? {
        AdvanceKeepsMarks(Run(before), es[|es| - 1].now);
      }
    }
  }

  lemma FirstDeadline(now: int, period: int)
    requires period > 0
    ensures DeadlineAfter(now, period, [now]) == now + period
  {
    assert [now][..0] == [];
  }

  // ----------------------------------------------------------------- statistics

  /** What an update says about the receipts in the window and the intervals between them. */
  ghost predicate Describes(times: seq<nat>, dt: seq<int>, stats: TopicStats)
    requires |times| == |dt| >= 2
  {
    && (Span(times) > 0 ==> IsRate(stats.frequency, |times| - 1, Span(times)))
    && IsGreatest(dt, stats.dtMax)
    && stats.variance == Spread(dt)
  }

  /** The rate of valid frames since the last update, when there is one to tell. */
  ghost predicate CountsFrames(t: Track, t': Track) {
    if |t.times| >= 2 && t.effective.Some? && Span(t.times) > 0 then
      && t'.effective.Some? && t'.validFrames == 0
      && IsRate(t'.effective.value, t.validFrames, Span(t.times))
    else t'.effective == t.effective && t'.validFrames == t.validFrames
  }

  function Seconds(span: int): real {
    span as real / 1000000000.0
  }

  /** So many per second, over a span of time. */
  predicate IsRate(rate: real, count: int, span: int) {
    rate * Seconds(span) == count as real
  }

  /** The mean square of the intervals less the square of their mean. */
  ghost function Spread(dt: seq<int>): real
    requires dt != []
  {
    Squares(dt, 0.0) / |dt| as real - Mean(dt) * Mean(dt)
  }

  lemma VarianceIsSpread(dt: seq<int>)
    requires dt != []
    ensures Variance(dt) == Spread(dt)
  {
    VarianceFormula(dt);
  }

  lemma RateTimesSpan(count: int, span: int)
    requires span > 0
    ensures IsRate(Rate(count, span), count, span)
  {
    Cancels(count as real, Seconds(span));
  }

  lemma Cancels(count: real, seconds: real)
    requires seconds > 0.0
    ensures (count / seconds) * seconds == count
  {
  }

  lemma UpdateDescribes(t: Track)
    requires Aligned(t)
    ensures |t.times| >= 2 ==> Describes(t.times, t.dt, Updated(t).stats)
    ensures CountsFrames(t, Updated(t))
  {
    if |t.times| >= 2 {
      GreatestIsGreatest(t.dt);
      VarianceIsSpread(t.dt);
      hide Spread, Greatest, Variance, IsGreatest, Span, Aligned, Rate, IsRate;
      if Span(t.times) > 0 {
        RateTimesSpan(|t.times| - 1, Span(t.times));
        RateTimesSpan(t.validFrames, Span(t.times));
      }
    }
  }

  /** The statistics a stream shows, apart from its heartbeat. */
  predicate SameStatistics(a: TopicStats, b: TopicStats) {
    a.frequency == b.frequency && a.dtMax == b.dtMax && a.variance == b.variance
  }

  lemma StatisticsStep(s: Stream, now: nat)
    requires Aligned(s.track)
    ensures var t := AdvancedStream(s, now).track;
            if now >= Met(s.started, s.nextStats, now, STATISTICS_PERIOD) then
              SameStatistics(t.stats, Updated(s.track).stats) && CountsFrames(s.track, t)
            else SameStatistics(t.stats, s.track.stats) && t.effective == s.track.effective
  {
    UpdateDescribes(s.track);
    hide Updated, Advanced, Describes;
  }

  /**
   An advance that passes a tick of 100 ms describes the last ten receipts, once there are two of them: their
   rate, widest gap and spread. Any other advance leaves the statistics as they were.
   */
  lemma AdvanceDescribesWindow(es: seq<Event>, now: nat)
    ensures var t, t' := Run(es).track, AdvancedStream(Run(es), now).track;
            if PassesTick(es, now, 100_000_000) then
              && CountsFrames(t, t')
              && (|Receipts(es)| >= 2 ==>
                    var dt := Observations(Receipts(es)).dt;
                    |dt| == |Window(Receipts(es))| && Describes(Window(Receipts(es)), dt, t'.stats))
            else SameStatistics(t'.stats, t.stats) && t'.effective == t.effective
  {
    hide Run, AdvancedStream, PassesTick, CountsFrames, Describes, Updated, SameStatistics;
    var s := Run(es);
    WindowOfRun(es);
    WorksOnTicks(es, now);
    StatisticsStep(s, now);
    UpdateDescribes(s.track);
    if PassesTick(es, now, 100_000_000) && |s.track.times| >= 2 {
      DescribesReads(s.track.times, s.track.dt, Updated(s.track).stats, AdvancedStream(s, now).track.stats);
    }
  }

  lemma DescribesReads(times: seq<nat>, dt: seq<int>, a: TopicStats, b: TopicStats)
    requires |times| == |dt| >= 2 && SameStatistics(b, a)
    ensures Describes(times, dt, a) == Describes(times, dt, b)
  {
  }
}
