/**
 The tracking leaf as a whole: what settles in its tick, when its next tick does nothing, and what is
 left to do at the wake-up it computes.
 */
module TrackingWake {
  import opened Options
  import opened Ticks
  import opened Sensors
  import opened Trajectory
  import opened Lifter
  import Custom1
  import opened Custom1Wake

  function WorkOf(c: Custom1.Tracking, sh: Custom1.Shared): Custom1.Work {
    Custom1.Work(c, sh, NO_SETPOINT, [], [])
  }

  /** What a tracking tick that ended nothing leaves behind, in each mode. */
  predicate TrackingSettled(c: Custom1.Tracking, sh: Custom1.Shared, cfg: Config, s: Sensors, now: int) {
    match cfg.backend
    case Nmpc => NmpcSettled(WorkOf(c, sh), cfg, now)
    case Dfbc => DfbcSettled(c, sh, cfg, now) && (!cfg.plannerStream ==> !sh.buffer.pending.valid)
    case Smc => SmcSettled(c, sh, cfg, s, now)
    case PvaSmc => SlotsSettled(sh.buffer, cfg, now)
    case Px4Local => Px4LocalSettled(c, sh, cfg, now)
  }

  lemma SlotsAfterTick(w: Custom1.Work, e: Custom1.Env)
    requires e.cfg.backend == PvaSmc && SlotsAdmitted(w.sh.buffer, e.cfg, e.now)
    ensures SlotsSettled(Custom1.PvaSmcTick(w, e).sh.buffer, e.cfg, e.now)
  {
  }

  lemma CacheTickKeepsBuffer(w: Custom1.Work, e: Custom1.Env)
    ensures Custom1.DfbcCacheTick(w, e).sh.buffer == w.sh.buffer
  {
  }

  /** A settled slot has nothing due. */
  lemma SegmentsAhead(c: Custom1.Tracking, sh: Custom1.Shared, cfg: Config, s: Sensors, now: int)
    requires TrackingSettled(c, sh, cfg, s, now)
    ensures After(Earlier(Custom1.PendingDue(sh, cfg, s.paired.Some?), Custom1.ExpiryDue(sh, cfg, now)), now)
  {
  }

  /** The mode's own part of the wake-up time. */
  function ModeWake(c: Custom1.Tracking, sh: Custom1.Shared, cfg: Config, s: Sensors, now: int): Option<int> {
    match cfg.backend
    case Nmpc => Custom1.NmpcWake(c, sh, cfg, now)
    case Dfbc => Custom1.DfbcWake(c, sh, cfg, now)
    case Smc => Custom1.SmcWake(c, sh, cfg, now)
    case PvaSmc => Custom1.PvaSmcWake(c, sh, s.paired.Some?)
    case Px4Local => Custom1.Px4LocalWake(c, sh, cfg)
  }

  lemma WakeParts(c: Custom1.Tracking, sh: Custom1.Shared, cfg: Config, s: Sensors, now: int, t: int)
    ensures After(Custom1.Wake(c, sh, cfg, s, now), t) <==>
            && After(Custom1.PendingDue(sh, cfg, s.paired.Some?), t)
            && After(Custom1.ExpiryDue(sh, cfg, now), t)
            && After(ModeWake(c, sh, cfg, s, now), t)
  {
    hide Custom1.PendingDue, Custom1.ExpiryDue, Custom1.NmpcWake, Custom1.DfbcWake, Custom1.SmcWake;
    hide Custom1.PvaSmcWake, Custom1.Px4LocalWake;
    var pending, expiry := Custom1.PendingDue(sh, cfg, s.paired.Some?), Custom1.ExpiryDue(sh, cfg, now);
    EarlierAfter(pending, expiry, t);
    EarlierAfter(Earlier(pending, expiry), ModeWake(c, sh, cfg, s, now), t);
  }

  /** After a tracking tick that did not finish, everything is settled and the wake-up is ahead. */
  lemma TrackingMovesOn(w: Custom1.Work, e: Custom1.Env)
    requires !w.c.finished && e.now >= 0 && w.sh.publishPeriod > 0
    requires e.cfg.controlPeriod > 0 && e.cfg.solveTimeout >= 0 && e.cfg.horizonSpan >= 0
    requires ResultsReserved(w.sh.results) && SlotsAdmitted(w.sh.buffer, e.cfg, e.now)
    requires !TakesPlannerSetpoint(e.cfg) ==> !w.sh.buffer.pending.valid
    ensures var w' := Custom1.Tick(w, e);
            w'.sg == w.sg ==>
              TrackingSettled(w'.c, w'.sh, e.cfg, e.s, e.now) &&
              After(Custom1.Wake(w'.c, w'.sh, e.cfg, e.s, e.now), e.now)
  {
    hide Custom1.NmpcTick, Custom1.SmcTick, Custom1.PvaSmcTick, Custom1.Px4LocalTick;
    hide Custom1.DfbcStreamTick, Custom1.DfbcCacheTick;
    hide DfbcSettled, SmcSettled, Px4LocalSettled, SlotsSettled, SlotsAdmitted, ResultsReserved, Custom1.Wake;
    hide Custom1.NmpcWake, Custom1.DfbcWake, Custom1.SmcWake, Custom1.PvaSmcWake, Custom1.Px4LocalWake;
    var w' := Custom1.Tick(w, e);
    match e.cfg.backend {
      case Nmpc => NmpcMovesOn(w, e);
      case Dfbc =>
        if e.cfg.plannerStream {
          DfbcStreamMovesOn(w, e);
        } else {
          DfbcCacheMovesOn(w, e);
          CacheTickKeepsBuffer(w, e);
        }
      case Smc => SmcMovesOn(w, e);
      case PvaSmc => PvaSmcMovesOn(w, e); SlotsAfterTick(w, e);
      case Px4Local => Px4LocalMovesOn(w, e);
    }
    if w'.sg == w.sg {
      assert NmpcSettled(w', e.cfg, e.now) == NmpcSettled(WorkOf(w'.c, w'.sh), e.cfg, e.now);
      SegmentsAhead(w'.c, w'.sh, e.cfg, e.s, e.now);
      EarlierAfter(Custom1.PendingDue(w'.sh, e.cfg, e.s.paired.Some?), Custom1.ExpiryDue(w'.sh, e.cfg, e.now), e.now);
      WakeParts(w'.c, w'.sh, e.cfg, e.s, e.now, e.now);
    }
  }

  // ------------------------------------------------------------ when it does nothing

  /** At t, a leaf that settled before has nothing to do, but that DFBC may be entered. */
  predicate TrackingIdles(c: Custom1.Tracking, sh: Custom1.Shared, cfg: Config, s: Sensors, now: int, t: int) {
    match cfg.backend
    case Nmpc => NmpcIdles(c, sh, cfg, now, t)
    case Dfbc => DfbcIdles(c, sh, cfg, now, t)
    case Smc => SmcIdles(c, sh, cfg, now, t)
    case PvaSmc => PvaSmcIdles(c, sh, cfg, s.paired.Some?, t)
    case Px4Local => Px4LocalIdles(c, sh, cfg, t)
  }

  lemma DfbcKeepsEntered(w: Custom1.Work, e: Custom1.Env)
    requires e.cfg.backend == Dfbc
    ensures Custom1.Tick(w, e).c.entered == Custom1.DfbcEnter(w, e).c.entered
    ensures Custom1.DfbcEnter(w, e) == w <==> w.c.entered || !e.o.thrustKnown
    ensures Custom1.DfbcEnter(w, e) == w <==> Custom1.DfbcEnter(w, e).c.entered == w.c.entered
  {
    hide Custom1.ActiveLift, Custom1.MayTake, Custom1.EndsWithin, Custom1.MeasuredHover, Custom1.ShouldPublish;
    hide Custom1.ShouldRunSync, Promoted;
    if !e.cfg.plannerStream {
      hide Custom1.DfbcStreamTick;
    } else {
      hide Custom1.DfbcCacheTick;
    }
  }

  /** The tick of a settled leaf that nothing new has reached, at any later time, does nothing exactly when it idles. */
  lemma TrackingIdlesExactly(w: Custom1.Work, e: Custom1.Env, s: Sensors, now: int)
    requires TrackingSettled(w.c, w.sh, e.cfg, s, now) && e.s == Stale(s) && 0 <= now <= e.now && !w.c.finished
    requires e.cfg.controlPeriod > 0 && e.cfg.horizonSpan >= 0
    ensures Custom1.Tick(w, e) == w <==>
            && TrackingIdles(w.c, w.sh, e.cfg, s, now, e.now)
            && (e.cfg.backend == Dfbc ==> w.c.entered || !e.o.thrustKnown)
    ensures TrackingIdles(w.c, w.sh, e.cfg, s, now, e.now) && e.cfg.backend == Dfbc ==>
              Custom1.Tick(w, e) == Custom1.DfbcEnter(w, e)
    ensures e.cfg.backend == PvaSmc && s.paired == None ==> Custom1.Tick(w, e) == Custom1.PromoteDue(w, e)
  {
    hide Custom1.NmpcTick, Custom1.SmcTick, Custom1.PvaSmcTick, Custom1.Px4LocalTick;
    hide Custom1.DfbcStreamTick, Custom1.DfbcCacheTick, DfbcSettled, SmcSettled, Px4LocalSettled, SlotsSettled;
    hide NmpcIdles, DfbcIdles, SmcIdles, PvaSmcIdles, Px4LocalIdles, Custom1.PromoteDue, Custom1.DfbcEnter;
    match e.cfg.backend
    case Nmpc =>
      assert NmpcSettled(w, e.cfg, now) == NmpcSettled(WorkOf(w.c, w.sh), e.cfg, now);
      NmpcIdlesExactly(w, e, now);
    case Dfbc =>
      DfbcIdlesExactly(w, e, now);
      DfbcKeepsEntered(w, e);
    case Smc => SmcIdlesExactly(w, e, s, now);
    case PvaSmc => PvaSmcIdlesExactly(w, e, now);
    case Px4Local => Px4LocalIdlesExactly(w, e, now);
  }

  /** Before the wake-up the leaf idles, but for a DFBC publication at time 0 and an unpaired PVA_SMC's promotion. */
  lemma IdlesBeforeWake(c: Custom1.Tracking, sh: Custom1.Shared, cfg: Config, s: Sensors, now: int, t: int)
    requires TrackingSettled(c, sh, cfg, s, now) && now <= t && After(Custom1.Wake(c, sh, cfg, s, now), t)
    requires !Unpublished(c, sh, cfg) && (cfg.backend == PvaSmc ==> s.paired.Some?)
    ensures TrackingIdles(c, sh, cfg, s, now, t)
  {
    hide Custom1.Wake;
    WakeParts(c, sh, cfg, s, now, t);
    NmpcWakeParts(c, sh, cfg, now, t);
    if StaleAt(c, cfg, t) {
      StaleParts(c, sh, cfg, now, t);
    }
    hide Custom1.NmpcWake, Custom1.DfbcWake, Custom1.SmcWake, Custom1.PvaSmcWake, Custom1.Px4LocalWake;
    hide Custom1.StreamReady, Custom1.EndsWithin, MayTakeSetpoint, LiftForBackend, Custom1.NextEndsWithin;
  }

  // ------------------------------------------------------------------ at the wake-up

  /**
   The window of the active segment closes at t, and that is nothing to the leaf: nothing else is due,
   and no position has to be held that is not held already.
   */
  predicate IdleWindowClose(c: Custom1.Tracking, sh: Custom1.Shared, cfg: Config, now: int, t: int) {
    && Custom1.ExpiryDue(sh, cfg, now) == Some(t) && After(Custom1.PendingDue(sh, cfg, true), t)
    && match cfg.backend
       case Px4Local => After(Custom1.Px4LocalWake(c, sh, cfg), t)
       case Smc =>
         && (c.armed ==> c.held) && t < Custom1.PublishDue(c, sh)
         && (!c.armed && !c.held ==> After(c.trackLog.DueAfter(Custom1.LOG_INTERVAL), t))
       case Dfbc =>
         if cfg.plannerStream then t < Custom1.PublishDue(c, sh)
         else After(Custom1.DfbcWake(c, sh, cfg, now), t) && !Unpublished(c, sh, cfg)
       case _ => false
  }

  /** The last successful solve goes stale at t, and that is nothing to the leaf: it need not log or publish. */
  predicate IdleStaleOnset(c: Custom1.Tracking, sh: Custom1.Shared, cfg: Config, now: int, t: int) {
    && cfg.backend == Nmpc && sh.cache.Cached? && c.lastSuccess > 0 && cfg.resultTimeout > 0
    && t == StrictDueAt(c.lastSuccess, cfg.resultTimeout)
    && sh.staleLog.started && After(sh.staleLog.DueAfter(Custom1.LOG_INTERVAL), t) && t < Custom1.PublishDue(c, sh)
    && After(TimeoutDue(c.protocol), t) && After(Custom1.NmpcDispatchWake(c.protocol, cfg, now), t)
    && After(Custom1.NextEndsWithin(sh.cache, now, cfg.horizonSpan + Custom1.FINISH_MARGIN), t)
  }

  /** At its wake-up the leaf idles in these two cases and in no other. */
  lemma IdlesAtWake(c: Custom1.Tracking, sh: Custom1.Shared, cfg: Config, s: Sensors, now: int, t: int)
    requires TrackingSettled(c, sh, cfg, s, now) && Custom1.Wake(c, sh, cfg, s, now) == Some(t) && now < t
    ensures TrackingIdles(c, sh, cfg, s, now, t) <==>
            IdleWindowClose(c, sh, cfg, now, t) || IdleStaleOnset(c, sh, cfg, now, t)
  {
    hide Custom1.Wake;
    WakeParts(c, sh, cfg, s, now, t);
    WakeParts(c, sh, cfg, s, now, t - 1);
    NmpcWakeParts(c, sh, cfg, now, t);
    NmpcWakeParts(c, sh, cfg, now, t - 1);
    if c.lastSuccess > 0 && cfg.resultTimeout > 0 {
      StaleParts(c, sh, cfg, now, t);
      StaleParts(c, sh, cfg, now, t - 1);
    }
    hide Custom1.NmpcWake, Custom1.DfbcWake, Custom1.SmcWake, Custom1.PvaSmcWake, Custom1.Px4LocalWake;
    hide Custom1.StreamReady, Custom1.EndsWithin, MayTakeSetpoint, LiftForBackend, Custom1.NextEndsWithin;
  }
}
