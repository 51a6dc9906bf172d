/** What can become of planner segments over whole runs of the buffer. */
module TrajectoryRuns {
  import opened Sensors
  import opened Trajectory

  // ------------------------------------------------------------------ one arrival

  /** Segments of these modes take effect at their own time. */
  predicate Timed(cfg: Config) {
    match cfg.backend
    case Smc => true
    case Dfbc => true
    case Px4Local => cfg.zeroOrderHold
    case PvaSmc => cfg.zeroOrderHold
    case Nmpc => false
  }

  /** In the world frame, with position, velocity and acceleration on every axis. */
  predicate Complete(mask: bv16, frame: nat) {
    frame == 1 && mask & 0x3FF == 0
  }

  /** The segment that a message describes. */
  predicate Describes(m: Ingress, g: Segment, cfg: Config) {
    var own := cfg.backend == Smc || cfg.backend == Dfbc || m.frame != 0;
    g == Segment(m.pos, m.vel, m.acc, if Timed(cfg) then m.header else m.receipt, m.mask,
                 if own then m.frame else 1, true)
  }

  /**
   Which messages are used, which are refused and why, and what becomes of the slots: a segment that is due on
   receipt is made active before the new one takes its place.
   */
  lemma ArrivalsAreAdmitted(buf: Buffer, m: Ingress, cfg: Config)
    ensures var kind, buf' := Admit(m, cfg), Ingested(buf, m, cfg);
            var used := cfg.backend != Nmpc && (cfg.backend == Dfbc ==> cfg.plannerStream);
            var complete := cfg.backend == Smc || cfg.backend == Dfbc ==> Complete(m.mask, m.frame);
            && (kind == NotUsed <==> !used)
            && (kind == Trajectory.Cached <==> used && (Timed(cfg) ==> m.finite && m.header != 0 && complete))
            && (kind == RejectedSmcFrame <==> cfg.backend == Smc && !complete)
            && (kind != Trajectory.Cached ==> buf' == buf)
            && (kind == Trajectory.Cached ==>
                  && Describes(m, buf'.pending, cfg)
                  && buf'.active == if Timed(cfg) && buf.pending.valid && 0 < buf.pending.time <= m.receipt
                                    then buf.pending else buf.active)
  {
    CompleteIsWorld(m.mask, m.frame);
    hide Complete, WorldPva;
  }

  lemma CompleteIsWorld(mask: bv16, frame: nat)
    ensures WorldPva(mask, frame) <==> Complete(mask, frame)
  {
  }

  // -------------------------------------------------------------------- whole runs

  /** What can happen to the buffer, with the clock reading at which it happens. */
  datatype Event = Arrives(m: Ingress) | Ticks(now: nat) | Restarts(at: nat)

  function TimeOf(e: Event): nat {
    match e
    case Arrives(m) => m.receipt
    case Ticks(now) => now
    case Restarts(at) => at
  }

  function Step(buf: Buffer, e: Event, cfg: Config): Buffer {
    match e
    case Arrives(m) => Ingested(buf, m, cfg)
    case Ticks(now) => Promoted(buf, now, cfg.backend, cfg.zeroOrderHold)
    case Restarts(_) => EMPTY
  }

  function Run(es: seq<Event>, cfg: Config): Buffer {
    if es == [] then EMPTY else Step(Run(es[..|es| - 1], cfg), es[|es| - 1], cfg)
  }

  predicate Monotone(es: seq<Event>) {
    forall i, j :: 0 <= i < j < |es| ==> TimeOf(es[i]) <= TimeOf(es[j])
  }

  /** The i-th event delivered exactly this segment, and it was admitted. */
  predicate AdmittedAt(es: seq<Event>, i: nat, g: Segment, cfg: Config) {
    i < |es| && es[i].Arrives? && Admit(es[i].m, cfg) == Cached &&
    g == SegmentOf(es[i].m, cfg.backend, cfg.zeroOrderHold)
  }

  ghost predicate Admitted(es: seq<Event>, g: Segment, cfg: Config) {
    exists i :: 0 <= i < |es| && AdmittedAt(es, i, g, cfg)
  }

  /** This segment was admitted at an event no earlier than t. */
  ghost predicate ArrivedAfter(es: seq<Event>, g: Segment, t: nat, cfg: Config) {
    exists i :: 0 <= i < |es| && AdmittedAt(es, i, g, cfg) && t <= TimeOf(es[i])
  }

  /**
   For a backend that honours effective times, after any run under a monotone clock: both slots
   hold admitted segments or nothing, and the active one took effect no later than the last event.
   */
  lemma {:induction false} OnlyDueSegmentsAreActive(es: seq<Event>, cfg: Config)
    requires EffectiveTime(cfg.backend, cfg.zeroOrderHold) && Monotone(es)
    ensures var buf := Run(es, cfg);
            && (buf.active.valid ==>
                  es != [] && Admitted(es, buf.active, cfg) && 0 < buf.active.time <= TimeOf(es[|es| - 1]))
            && (buf.pending.valid ==> es != [] && Admitted(es, buf.pending, cfg) && 0 < buf.pending.time)
            && (!buf.active.valid ==> buf.active == NO_SEGMENT)
  {
    if es != [] {
      var n := |es| - 1;
      var before, e := es[..n], es[n];
      OnlyDueSegmentsAreActive(before, cfg);
      forall g: Segment, i | 0 <= i < n && AdmittedAt(before, i, g, cfg) ensures AdmittedAt(es, i, g, cfg) {
      }
      if e.Arrives? && Admit(e.m, cfg) == Cached {
        assert AdmittedAt(es, n, SegmentOf(e.m, cfg.backend, cfg.zeroOrderHold), cfg);
      }
    }
  }

  /** The active segment took effect no later than the one that waits to replace it was received. */
  lemma {:induction false} SlotsAreInOrder(es: seq<Event>, cfg: Config)
    requires EffectiveTime(cfg.backend, cfg.zeroOrderHold) && Monotone(es)
    ensures var buf := Run(es, cfg);
            buf.active.valid && buf.pending.valid ==> ArrivedAfter(es, buf.pending, buf.active.time, cfg)
  {
    if es != [] {
      var n := |es| - 1;
      var before, e := es[..n], es[n];
      var buf, g := Run(before, cfg), Run(es, cfg).pending;
      SlotsAreInOrder(before, cfg);
      OnlyDueSegmentsAreActive(before, cfg);
      if e.Arrives? && Admit(e.m, cfg) == Cached {
        assert AdmittedAt(es, n, SegmentOf(e.m, cfg.backend, cfg.zeroOrderHold), cfg);
      } else if buf.active.valid && buf.pending.valid {
        var i :| 0 <= i < n && AdmittedAt(before, i, buf.pending, cfg) && buf.active.time <= TimeOf(before[i]);
        assert AdmittedAt(es, i, buf.pending, cfg) && es[i] == before[i];
      }
    }
  }

  /** A segment's fate once it has been admitted as the i-th event. */
  datatype Fate = Waiting | TookEffect | Replaced | Dropped

  /** Where the segment admitted at event i stands after event k, for i < k. */
  function FateOf(es: seq<Event>, i: nat, k: nat, cfg: Config): Fate
    requires i < k <= |es|
    decreases k
  {
    if k == i + 1 then Waiting
    else
      var f := FateOf(es, i, k - 1, cfg);
      if f != Waiting then f
      else match es[k - 1]
        case Restarts(_) => Dropped
        case Ticks(now) =>
          if Due(Run(es[..k - 1], cfg), now, cfg.backend, cfg.zeroOrderHold) then TookEffect else Waiting
        case Arrives(m) =>
          if Admit(m, cfg) != Cached then Waiting
          else if Due(Run(es[..k - 1], cfg), m.receipt, cfg.backend, cfg.zeroOrderHold) then TookEffect
          else Replaced
  }

  /** While it waits, an admitted segment is the pending one. */
  lemma {:induction false} WaitingIsPending(es: seq<Event>, i: nat, k: nat, g: Segment, cfg: Config)
    requires EffectiveTime(cfg.backend, cfg.zeroOrderHold)
    requires AdmittedAt(es, i, g, cfg) && i < k <= |es| && FateOf(es, i, k, cfg) == Waiting
    ensures g.valid && Run(es[..k], cfg).pending == g
  {
    assert es[..k][..k - 1] == es[..k - 1];
    if k > i + 1 {
      WaitingIsPending(es, i, k - 1, g, cfg);
    }
  }

  /**
   A segment is never overwritten once it is due: if an event at or after its effective time
   finds it waiting, it becomes active at that event unless the buffer is restarted. So being
   replaced means that the successor was received before the segment took effect.
   */
  lemma DueIsPromotedNotOverwritten(es: seq<Event>, i: nat, k: nat, g: Segment, cfg: Config)
    requires EffectiveTime(cfg.backend, cfg.zeroOrderHold)
    requires AdmittedAt(es, i, g, cfg) && i + 1 < k <= |es| && FateOf(es, i, k - 1, cfg) == Waiting
    requires !es[k - 1].Restarts? && (es[k - 1].Arrives? ==> Admit(es[k - 1].m, cfg) == Cached)
    ensures g.time <= TimeOf(es[k - 1]) <==> FateOf(es, i, k, cfg) == TookEffect
    ensures FateOf(es, i, k, cfg) == TookEffect ==> Run(es[..k], cfg).active == g
    ensures FateOf(es, i, k, cfg) == Replaced ==> TimeOf(es[k - 1]) < g.time
  {
    WaitingIsPending(es, i, k - 1, g, cfg);
    assert es[..k][..k - 1] == es[..k - 1];
  }
}
