/**
 When a tracking tick that nothing new has reached does nothing at all, exactly, in each of the five
 modes; and that the wake-up which Custom1 computes is never late and always moves on.
 */
module Custom1Wake {
  import opened Options
  import opened Ticks
  import opened Sensors
  import opened Trajectory
  import opened Lifter
  import opened ResultBuffer
  import opened Custom1

  /** Segments are in the slots their times allow: none active from the future, none due still pending. */
  predicate SlotsSettled(buf: Buffer, cfg: Config, now: int) {
    && (buf.pending.valid ==>
          EffectiveTime(cfg.backend, cfg.zeroOrderHold) && buf.pending.time != 0 && now < buf.pending.time)
    && (buf.active.valid && EffectiveTime(cfg.backend, cfg.zeroOrderHold) ==> buf.active.time <= now)
  }

  /** The same before the tick's own promotion, when the pending segment may be due. */
  predicate SlotsAdmitted(buf: Buffer, cfg: Config, now: int) {
    EffectiveTime(cfg.backend, cfg.zeroOrderHold) ==>
      (buf.pending.valid ==> buf.pending.time != 0) && (buf.active.valid ==> buf.active.time <= now)
  }

  lemma PromotionSettles(w: Work, e: Env)
    requires SlotsAdmitted(w.sh.buffer, e.cfg, e.now)
    ensures SlotsSettled(PromoteDue(w, e).sh.buffer, e.cfg, e.now)
  {
  }

  // ----------------------------------------------------------------- PX4_LOCAL

  /** What a PX4_LOCAL tick leaves behind. */
  predicate Px4LocalSettled(c: Tracking, sh: Shared, cfg: Config, now: int) {
    var taken := MayTakeSetpoint(sh.buffer.active, c.hover, cfg, c.armed);
    && SlotsSettled(sh.buffer, cfg, now)
    && (!taken ==> !c.armed && c.trackLog.started)
    && (taken && LiftForBackend(sh.buffer.active, now, cfg).Some? ==> c.armed)
  }

  /** At t, a PX4_LOCAL leaf that settled before has nothing to do: the closing of a window is nothing to it. */
  predicate Px4LocalIdles(c: Tracking, sh: Shared, cfg: Config, t: int) {
    After(PendingDue(sh, cfg, true), t) && After(Px4LocalWake(c, sh, cfg), t)
  }

  lemma Px4LocalIdlesExactly(w: Work, e: Env, now: int)
    requires e.cfg.backend == Px4Local && Px4LocalSettled(w.c, w.sh, e.cfg, now) && 0 <= now <= e.now
    ensures Px4LocalTick(w, e) == w <==> Px4LocalIdles(w.c, w.sh, e.cfg, e.now)
  {
    EarlierAfter(Some(PublishDue(w.c, w.sh)), w.c.trackLog.DueAfter(Custom1.LOG_INTERVAL), e.now);
    PromotionIsWork(w, e, now);
    EmissionIsWork(w, Px4LocalTick(w, e));
  }

  lemma EmissionIsWork(w: Work, w': Work)
    ensures |w'.fx| != |w.fx| ==> w' != w
  {
  }

  /** A promotion changes the slots, and happens exactly when the pending segment is due. */
  lemma PromotionIsWork(w: Work, e: Env, now: int)
    requires SlotsSettled(w.sh.buffer, e.cfg, now)
    ensures PromoteDue(w, e) == w <==> !Due(w.sh.buffer, e.now, e.cfg.backend, e.cfg.zeroOrderHold)
    ensures e.cfg.backend != PvaSmc || e.s.paired.Some? ==>
              (PromoteDue(w, e) == w <==> After(PendingDue(w.sh, e.cfg, e.s.paired.Some?), e.now))
  {
  }

  /** A publication that was due is not due any more. */
  lemma HoverMovesOn(w: Work, e: Env)
    requires w.sh.publishPeriod > 0
    ensures var w' := HoverIfDue(w, e);
            && w'.sg == w.sg && w'.sh == w.sh && e.now < PublishDue(w'.c, w'.sh)
            && w'.c == w.c.(lastPublish := w'.c.lastPublish)
  {
  }

  lemma LogMovesOn(t: Timer, now: int)
    ensures After(t.Ran(now, Custom1.LOG_INTERVAL).DueAfter(Custom1.LOG_INTERVAL), now)
  {
  }

  lemma Px4LocalMovesOn(w: Work, e: Env)
    requires e.cfg.backend == Px4Local && w.sh.publishPeriod > 0 && SlotsAdmitted(w.sh.buffer, e.cfg, e.now)
    ensures var w' := Px4LocalTick(w, e);
            && w'.sg == w.sg && Px4LocalSettled(w'.c, w'.sh, e.cfg, e.now)
            && After(Px4LocalWake(w'.c, w'.sh, e.cfg), e.now)
  {
    var w1, w' := PromoteDue(w, e), Px4LocalTick(w, e);
    PromotionSettles(w, e);
    hide Promoted, SlotsSettled, SlotsAdmitted;
    EarlierAfter(Some(PublishDue(w'.c, w'.sh)), w'.c.trackLog.DueAfter(Custom1.LOG_INTERVAL), e.now);
    if !MayTake(w1, e) {
      HoverMovesOn(LogTrack(w1.(c := w1.c.(armed := false)), e.now), e);
      LogMovesOn(w1.c.trackLog, e.now);
    } else if ActiveLift(w1, e) == None {
      HoverMovesOn(w1, e);
      assert MayTakeSetpoint(w'.sh.buffer.active, w'.c.hover, e.cfg, w'.c.armed);
    } else {
      assert w'.sh == w1.sh && w'.c.armed && e.now < PublishDue(w'.c, w'.sh);
    }
  }

  // ------------------------------------------------------------------- PVA_SMC

  predicate PvaSmcIdles(c: Tracking, sh: Shared, cfg: Config, paired: bool, t: int) {
    After(PendingDue(sh, cfg, true), t) && After(PvaSmcWake(c, sh, paired), t)
  }

  lemma PvaSmcIdlesExactly(w: Work, e: Env, now: int)
    requires e.cfg.backend == PvaSmc && SlotsSettled(w.sh.buffer, e.cfg, now)
    ensures PvaSmcTick(w, e) == w <==> PvaSmcIdles(w.c, w.sh, e.cfg, e.s.paired.Some?, e.now)
    ensures e.s.paired == None ==> PvaSmcTick(w, e) == PromoteDue(w, e)
  {
    EmissionIsWork(w, PvaSmcTick(w, e));
  }

  lemma PvaSmcMovesOn(w: Work, e: Env)
    requires e.cfg.backend == PvaSmc && w.sh.publishPeriod > 0
    ensures var w' := PvaSmcTick(w, e);
            w'.sg == w.sg && After(PvaSmcWake(w'.c, w'.sh, e.s.paired.Some?), e.now)
  {
  }

  // ----------------------------------------------------- windows over time

  /** A settled stream that was usable stays usable until its window closes; one that was not stays so. */
  lemma ReadinessKept(c: Tracking, sh: Shared, cfg: Config, now: int, t: int)
    requires cfg.backend == Smc || cfg.backend == Dfbc
    requires SlotsSettled(sh.buffer, cfg, now) && 0 <= now <= t
    ensures StreamReady(c, sh, cfg, t) == (StreamReady(c, sh, cfg, now) && After(ExpiryDue(sh, cfg, now), t))
  {
  }

  /** What the tick tests before tracking is what the wake-up calls ready. */
  lemma ReadyMeansUsable(w: Work, e: Env)
    requires e.cfg.backend == Smc || e.cfg.backend == Dfbc
    ensures (ActiveLift(w, e) == None || !MayTake(w, e)) <==> !StreamReady(w.c, w.sh, e.cfg, e.now)
  {
  }

  // ----------------------------------------------------------------------- SMC

  /** What an SMC tick leaves behind. */
  predicate SmcSettled(c: Tracking, sh: Shared, cfg: Config, s: Sensors, now: int) {
    var ready := StreamReady(c, sh, cfg, now);
    && SlotsSettled(sh.buffer, cfg, now)
    && (!ready ==> !c.armed || c.held) && (!ready && !c.armed && !c.held ==> c.trackLog.started)
    && (ready ==> c.armed) && (ready && c.entered ==> c.lastPublish > 0)
    && (!c.entered ==> !PassThroughActive(s))
  }

  /**
   At t, an SMC leaf that settled before has nothing to do. Once the window has closed that is the case
   when it holds its position already, or never took over, and no publication is due.
   */
  predicate SmcIdles(c: Tracking, sh: Shared, cfg: Config, now: int, t: int) {
    && After(PendingDue(sh, cfg, true), t)
    && if After(ExpiryDue(sh, cfg, now), t) then After(SmcWake(c, sh, cfg, now), t)
       else && (c.armed ==> c.held) && t < PublishDue(c, sh)
            && (!c.armed && !c.held ==> After(c.trackLog.DueAfter(Custom1.LOG_INTERVAL), t))
  }

  lemma SmcIdlesExactly(w: Work, e: Env, s: Sensors, now: int)
    requires e.cfg.backend == Smc && SmcSettled(w.c, w.sh, e.cfg, s, now) && 0 <= now <= e.now
    requires e.s == Stale(s)
    ensures SmcTick(w, e) == w <==> SmcIdles(w.c, w.sh, e.cfg, now, e.now)
  {
    assert SmcEnter(w, e) == w;
    PromotionIsWork(w, e, now);
    ReadinessKept(w.c, w.sh, e.cfg, now, e.now);
    ReadyMeansUsable(w, e);
    EmissionIsWork(w, SmcTick(w, e));
    EarlierAfter(Some(PublishDue(w.c, w.sh)), w.c.trackLog.DueAfter(Custom1.LOG_INTERVAL), e.now);
  }

  lemma SmcWaitMovesOn(w: Work, e: Env)
    requires w.sh.publishPeriod > 0
    ensures var w' := SmcWait(w, e);
            && w'.sg == w.sg && w'.sh == w.sh && e.now < PublishDue(w'.c, w'.sh)
            && w'.c.armed == w.c.armed && w'.c.hover == w.c.hover && w'.c.entered == w.c.entered
            && (!w'.c.armed || w'.c.held)
            && (!w'.c.armed && !w'.c.held ==>
                  w'.c.trackLog.started && After(w'.c.trackLog.DueAfter(Custom1.LOG_INTERVAL), e.now))
  {
  }

  lemma SmcTrackMovesOn(w: Work, e: Env)
    requires w.sh.publishPeriod > 0 && e.now > 0
    ensures var w' := SmcTrack(w, e);
            && w'.sg == w.sg && w'.sh == w.sh
            && w'.c.armed && w'.c.hover == w.c.hover && w'.c.entered == w.c.entered
            && (w'.c.entered ==> w'.c.lastPublish > 0 && e.now < SyncDue(w'.c, e.now, e.cfg.controlPeriod))
            && (!w'.c.entered ==> e.now < PublishDue(w'.c, w'.sh))
  {
  }

  lemma SmcMovesOn(w: Work, e: Env)
    requires e.cfg.backend == Smc && w.sh.publishPeriod > 0 && e.now >= 0
    requires SlotsAdmitted(w.sh.buffer, e.cfg, e.now)
    ensures var w' := SmcTick(w, e);
            && w'.sg == w.sg && SmcSettled(w'.c, w'.sh, e.cfg, e.s, e.now)
            && After(SmcWake(w'.c, w'.sh, e.cfg, e.now), e.now)
  {
    var w1, w' := PromoteDue(SmcEnter(w, e), e), SmcTick(w, e);
    PromotionSettles(SmcEnter(w, e), e);
    ReadyMeansUsable(w1, e);
    if StreamReady(w1.c, w1.sh, e.cfg, e.now) {
      SmcTrackMovesOn(w1, e);
      assert StreamReady(w'.c, w'.sh, e.cfg, e.now);
    } else {
      SmcWaitMovesOn(w1, e);
      assert !StreamReady(w'.c, w'.sh, e.cfg, e.now);
    }
  }

  // ---------------------------------------------------------------------- DFBC

  /** A cached reference is being followed with the last publication at time 0, which reads as "never". */
  predicate Unpublished(c: Tracking, sh: Shared, cfg: Config) {
    cfg.backend == Dfbc && !cfg.plannerStream && sh.cache.Cached? && c.lastPublish <= 0
  }

  /** What a DFBC tick leaves behind, following the planner or the cached reference. */
  predicate DfbcSettled(c: Tracking, sh: Shared, cfg: Config, now: int) {
    && (cfg.plannerStream ==>
          SlotsSettled(sh.buffer, cfg, now) && (StreamReady(c, sh, cfg, now) ==> c.lastPublish > 0 && c.armed))
    && (!cfg.plannerStream && sh.cache.Cached? ==>
          (now > 0 ==> c.lastPublish > 0) && c.armed &&
          !EndsWithin(sh.cache, now, Max(MIN_SYNC_PERIOD, cfg.controlPeriod) + FINISH_MARGIN))
    && (!cfg.plannerStream && sh.cache == NoCache ==> !c.armed && c.waitLog.started)
  }

  /** The tick computed for the end of a reference is the first from now on at which no more than the limit is left. */
  lemma NextEndIsFirst(cache: Cache, now: int, limit: int)
    requires limit >= 0
    ensures match NextEndsWithin(cache, now, limit)
            case None => forall t :: now <= t ==> !EndsWithin(cache, t, limit)
            case Some(due) =>
              && now <= due && EndsWithin(cache, due, limit)
              && forall t :: now <= t < due ==> !EndsWithin(cache, t, limit)
  {
  }

  /** A reference that has not ended yet ends no earlier than the tick computed for it. */
  lemma EndIsExact(cache: Cache, now: int, t: int, limit: int)
    requires !EndsWithin(cache, now, limit) && now <= t && limit >= 0
    ensures After(NextEndsWithin(cache, now, limit), now)
    ensures EndsWithin(cache, t, limit) <==> !After(NextEndsWithin(cache, now, limit), t)
  {
  }

  /**
   At t, a DFBC leaf that settled before has nothing to do but to be entered. Once the window has
   closed that is the case when no publication is due.
   */
  predicate DfbcIdles(c: Tracking, sh: Shared, cfg: Config, now: int, t: int) {
    if cfg.plannerStream then
      && After(PendingDue(sh, cfg, true), t)
      && if After(ExpiryDue(sh, cfg, now), t) then After(DfbcWake(c, sh, cfg, now), t) else t < PublishDue(c, sh)
    else After(DfbcWake(c, sh, cfg, now), t) && !Unpublished(c, sh, cfg)
  }

  lemma DfbcIdlesExactly(w: Work, e: Env, now: int)
    requires e.cfg.backend == Dfbc && DfbcSettled(w.c, w.sh, e.cfg, now) && 0 <= now <= e.now
    requires e.cfg.controlPeriod > 0 && !w.c.finished
    ensures Tick(w, e) == DfbcEnter(w, e) <==> DfbcIdles(w.c, w.sh, e.cfg, now, e.now)
  {
    hide DfbcFailed, DfbcSucceeded;
    if e.cfg.plannerStream {
      DfbcStreamIdlesExactly(w, e, now);
    } else {
      DfbcCacheIdlesExactly(w, e, now);
    }
  }

  lemma DfbcStreamIdlesExactly(w: Work, e: Env, now: int)
    requires e.cfg.backend == Dfbc && e.cfg.plannerStream
    requires DfbcSettled(w.c, w.sh, e.cfg, now) && 0 <= now <= e.now
    ensures DfbcStreamTick(w, e) == DfbcEnter(w, e) <==> DfbcIdles(w.c, w.sh, e.cfg, now, e.now)
  {
    var w1 := DfbcEnter(w, e);
    PromotionIsWork(w1, e, now);
    ReadinessKept(w.c, w.sh, e.cfg, now, e.now);
    ReadyMeansUsable(w1, e);
    EmissionIsWork(w1, DfbcStreamTick(w, e));
  }

  lemma DfbcCacheIdlesExactly(w: Work, e: Env, now: int)
    requires e.cfg.backend == Dfbc && !e.cfg.plannerStream && e.cfg.controlPeriod > 0 && !w.c.finished
    requires DfbcSettled(w.c, w.sh, e.cfg, now) && 0 <= now <= e.now
    ensures DfbcCacheTick(w, e) == DfbcEnter(w, e) <==> DfbcIdles(w.c, w.sh, e.cfg, now, e.now)
  {
    var limit := Max(MIN_SYNC_PERIOD, e.cfg.controlPeriod) + FINISH_MARGIN;
    EarlierAfter(Some(SyncDue(w.c, now, e.cfg.controlPeriod)), NextEndsWithin(w.sh.cache, now, limit), e.now);
    EarlierAfter(Some(PublishDue(w.c, w.sh)), w.c.waitLog.DueAfter(Custom1.LOG_INTERVAL), e.now);
    EndIsExact(w.sh.cache, now, e.now, limit);
    EmissionIsWork(DfbcEnter(w, e), DfbcCacheTick(w, e));
  }

  lemma DfbcUpdateMovesOn(w: Work, e: Env, streaming: bool)
    requires e.now >= 0 && e.cfg.controlPeriod > 0
    ensures var w' := DfbcUpdate(w, e, streaming);
            && w'.sg == w.sg && w'.sh.buffer == w.sh.buffer && w'.sh.cache == w.sh.cache
            && w'.c.armed == w.c.armed && w'.c.hover == w.c.hover
            && (e.now > 0 ==> w'.c.lastPublish > 0) && e.now < SyncDue(w'.c, e.now, e.cfg.controlPeriod)
  {
  }

  lemma DfbcStreamMovesOn(w: Work, e: Env)
    requires e.cfg.backend == Dfbc && e.cfg.plannerStream && w.sh.publishPeriod > 0 && e.now >= 0
    requires e.cfg.controlPeriod > 0 && SlotsAdmitted(w.sh.buffer, e.cfg, e.now)
    ensures var w' := DfbcStreamTick(w, e);
            && w'.sg == w.sg && DfbcSettled(w'.c, w'.sh, e.cfg, e.now)
            && After(DfbcWake(w'.c, w'.sh, e.cfg, e.now), e.now)
  {
    var w1, w' := PromoteDue(DfbcEnter(w, e), e), DfbcStreamTick(w, e);
    PromotionSettles(DfbcEnter(w, e), e);
    ReadyMeansUsable(w1, e);
    if StreamReady(w1.c, w1.sh, e.cfg, e.now) {
      DfbcUpdateMovesOn(w1.(c := w1.c.(armed := true)), e, true);
      assert StreamReady(w'.c, w'.sh, e.cfg, e.now);
    } else {
      assert !StreamReady(w'.c, w'.sh, e.cfg, e.now);
      assert e.now < PublishDue(w'.c, w'.sh);
    }
  }

  lemma DfbcCacheMovesOn(w: Work, e: Env)
    requires e.cfg.backend == Dfbc && !e.cfg.plannerStream && w.sh.publishPeriod > 0 && e.now >= 0
    requires e.cfg.controlPeriod > 0 && !w.c.finished
    ensures var w' := DfbcCacheTick(w, e);
            w'.sg == w.sg ==>
              DfbcSettled(w'.c, w'.sh, e.cfg, e.now) && After(DfbcWake(w'.c, w'.sh, e.cfg, e.now), e.now)
  {
    var w1, w' := DfbcEnter(w, e), DfbcCacheTick(w, e);
    var limit := Max(MIN_SYNC_PERIOD, e.cfg.controlPeriod) + FINISH_MARGIN;
    EarlierAfter(Some(SyncDue(w'.c, e.now, e.cfg.controlPeriod)), NextEndsWithin(w'.sh.cache, e.now, limit), e.now);
    EarlierAfter(Some(PublishDue(w'.c, w'.sh)), w'.c.waitLog.DueAfter(Custom1.LOG_INTERVAL), e.now);
    if w.sh.cache == NoCache {
      HoverMovesOn(LogWait(w1.(c := w1.c.(armed := false)), e.now), e);
      LogMovesOn(w1.c.waitLog, e.now);
    } else if !EndsWithin(w.sh.cache, e.now, limit) {
      DfbcUpdateMovesOn(w1.(c := w1.c.(armed := true)), e, false);
      EndIsExact(w.sh.cache, e.now, e.now, limit);
    }
  }

  // ---------------------------------------------------------------------- NMPC

  /** No result carries a sequence that has not been reserved. */
  predicate ResultsReserved(r: Results) {
    r.latest.Some? ==> r.latest.value.sequence <= r.requests
  }

  /** The next request is not due yet, or one is in flight. */
  predicate DispatchSettled(p: Protocol, cfg: Config, now: int) {
    p.pending || (p.lastRequest > 0 && now - p.lastRequest < cfg.controlPeriod)
  }

  /** What an NMPC tick that ended nothing leaves behind. */
  predicate NmpcSettled(w: Work, cfg: Config, now: int) {
    && IsActive(w.sh.results, w.c.protocol.generation) && Taken(w) == None
    && (w.sh.cache == NoCache ==> !w.c.armed && w.c.waitLog.started)
    && (w.sh.cache.Cached? && w.c.lastSuccess > 0 && cfg.resultTimeout > 0 && now - w.c.lastSuccess > cfg.resultTimeout
        ==> w.sh.staleLog.started)
    && (w.sh.cache.Cached? ==>
          w.c.armed &&
          DispatchSettled(w.c.protocol, cfg, now) &&
          !EndsWithin(w.sh.cache, now, cfg.horizonSpan + FINISH_MARGIN))
  }

  function TimeoutDue(p: Protocol): Option<int> {
    if p.pending then Some(StrictDueAt(p.deadline, 0)) else None
  }

  /** The NMPC wake-up is ahead exactly when each of its parts is. */
  lemma NmpcWakeParts(c: Tracking, sh: Shared, cfg: Config, now: int, t: int)
    ensures After(NmpcWake(c, sh, cfg, now), t) <==>
            && After(TimeoutDue(c.protocol), t)
            && (sh.cache == NoCache ==>
                  t < PublishDue(c, sh) && After(c.waitLog.DueAfter(Custom1.LOG_INTERVAL), t))
            && (sh.cache != NoCache ==>
                  && After(NextEndsWithin(sh.cache, now, cfg.horizonSpan + FINISH_MARGIN), t)
                  && After(NmpcStaleWake(c, sh, cfg, now), t)
                  && After(NmpcDispatchWake(c.protocol, cfg, now), t))
  {
  }

  lemma StaleParts(c: Tracking, sh: Shared, cfg: Config, now: int, t: int)
    requires c.lastSuccess > 0 && cfg.resultTimeout > 0
    ensures After(NmpcStaleWake(c, sh, cfg, now), t) <==>
            if now <= c.lastSuccess + cfg.resultTimeout then t <= c.lastSuccess + cfg.resultTimeout
            else t < PublishDue(c, sh) && After(sh.staleLog.DueAfter(Custom1.LOG_INTERVAL), t)
  {
  }

  predicate StaleAt(c: Tracking, cfg: Config, t: int) {
    c.lastSuccess > 0 && cfg.resultTimeout > 0 && t - c.lastSuccess > cfg.resultTimeout
  }

  /**
   At t, an NMPC leaf that settled before has nothing to do. Going stale is something to do only when it
   is to be logged or published over.
   */
  predicate NmpcIdles(c: Tracking, sh: Shared, cfg: Config, now: int, t: int) {
    && After(TimeoutDue(c.protocol), t)
    && (sh.cache == NoCache ==>
          t < PublishDue(c, sh) && After(c.waitLog.DueAfter(Custom1.LOG_INTERVAL), t))
    && (sh.cache != NoCache ==>
          && After(NextEndsWithin(sh.cache, now, cfg.horizonSpan + FINISH_MARGIN), t)
          && After(NmpcDispatchWake(c.protocol, cfg, now), t)
          && (StaleAt(c, cfg, t) ==>
                && sh.staleLog.started && After(sh.staleLog.DueAfter(Custom1.LOG_INTERVAL), t)
                && t < PublishDue(c, sh)))
  }

  lemma NmpcIdlesExactly(w: Work, e: Env, now: int)
    requires NmpcSettled(w, e.cfg, now) && 0 <= now <= e.now && e.cfg.horizonSpan >= 0 && !w.c.finished
    ensures NmpcTick(w, e) == w <==> NmpcIdles(w.c, w.sh, e.cfg, now, e.now)
  {
    hide HoverIfDue, LogWait, NmpcFallback, NmpcDispatch, HorizonEnds, PublishBackup, EndsWithin, NextEndsWithin;
    hide Finish;
    var w1 := NmpcTimeout(w, e);
    assert NmpcConsume(NmpcRestart(w), e) == w;
    EmissionIsWork(w, NmpcTick(w, e));
    if After(TimeoutDue(w.c.protocol), e.now) {
      if w.sh.cache == NoCache {
        WaitIdlesExactly(w, e);
      } else {
        EndIsExact(w.sh.cache, now, e.now, e.cfg.horizonSpan + FINISH_MARGIN);
        EndOfHorizon(w, e);
        PlanIdlesExactly(w, e, now);
      }
    } else {
      PublishingPrepares(Failed(w.(c := w.c.(protocol := w.c.protocol.(pending := false)))), e);
      PlanGrows(w1, e);
    }
  }

  lemma WaitIdlesExactly(w: Work, e: Env)
    requires w.sh.cache == NoCache && !w.c.armed && w.c.waitLog.started
    ensures NmpcPlan(w, e) == w <==>
            e.now < PublishDue(w.c, w.sh) && After(w.c.waitLog.DueAfter(Custom1.LOG_INTERVAL), e.now)
  {
    EmissionIsWork(w, NmpcPlan(w, e));
  }

  lemma PlanIdlesExactly(w: Work, e: Env, now: int)
    requires w.sh.cache.Cached? && w.c.armed && DispatchSettled(w.c.protocol, e.cfg, now) && !w.c.finished
    ensures NmpcPlan(w, e) == w <==>
            && !HorizonEnds(w, e) && After(NmpcDispatchWake(w.c.protocol, e.cfg, now), e.now)
            && (StaleAt(w.c, e.cfg, e.now) ==>
                  && w.sh.staleLog.started && After(w.sh.staleLog.DueAfter(Custom1.LOG_INTERVAL), e.now)
                  && e.now < PublishDue(w.c, w.sh))
  {
    hide HorizonEnds;
    EmissionIsWork(w, NmpcPlan(w, e));
  }

  /** No stage takes an effect back. */
  lemma PlanGrows(w: Work, e: Env)
    ensures |NmpcPlan(w, e).fx| >= |w.fx|
  {
  }

  /** The stages of an NMPC tick keep the reference, the segments and the publish period. */
  predicate SameReference(w: Work, w': Work) {
    w'.sh.cache == w.sh.cache && w'.sh.buffer == w.sh.buffer && w'.sh.publishPeriod == w.sh.publishPeriod
  }

  /** After these stages the result in flight is taken, and a request that is overdue is given up. */
  lemma NmpcPrepares(w: Work, e: Env)
    requires ResultsReserved(w.sh.results)
    ensures var w' := NmpcTimeout(NmpcConsume(NmpcRestart(w), e), e);
            && SameReference(w, w')
            && IsActive(w'.sh.results, w'.c.protocol.generation) && Taken(w') == None
            && ResultsReserved(w'.sh.results)
            && After(TimeoutDue(w'.c.protocol), e.now)
            && (w'.sg == w.sg ==> w'.c.finished == w.c.finished)
            && (|w'.sg| > |w.sg| || w'.sg == w.sg)
  {
    hide NmpcRestart, NmpcConsume, NmpcTimeout, TimeoutDue;
    var w1 := NmpcRestart(w);
    RestartPrepares(w);
    ConsumePrepares(w1, e);
    TimeoutPrepares(NmpcConsume(w1, e), e);
  }

  lemma RestartPrepares(w: Work)
    requires ResultsReserved(w.sh.results)
    ensures var w' := NmpcRestart(w);
            && IsActive(w'.sh.results, w'.c.protocol.generation) && ResultsReserved(w'.sh.results)
            && SameReference(w, w') && w'.sg == w.sg && w'.c.finished == w.c.finished
  {
  }

  lemma ConsumePrepares(w: Work, e: Env)
    ensures var w' := NmpcConsume(w, e);
            && w'.sh.results == w.sh.results && SameReference(w, w') && Taken(w') == None
            && w'.c.protocol.generation == w.c.protocol.generation
            && (w'.sg == w.sg ==> w'.c.finished == w.c.finished) && (|w'.sg| > |w.sg| || w'.sg == w.sg)
  {
    hide NmpcUse;
    if Taken(w).Some? {
      var x := Taken(w).value;
      UsePrepares(w.(c := w.c.(protocol := w.c.protocol.(consumed := x.sequence, pending := false))), e, x);
    }
  }

  lemma UsePrepares(w: Work, e: Env, x: SolveResult)
    ensures var w' := NmpcUse(w, e, x);
            && w'.sh.results == w.sh.results && SameReference(w, w')
            && w'.c.protocol == w.c.protocol.(pending := w'.c.protocol.pending)
            && (w'.sg == w.sg ==> w'.c.finished == w.c.finished) && (|w'.sg| > |w.sg| || w'.sg == w.sg)
  {
    hide MeasuredHover, TimestampFresh, EndsWithin, PublishHover, PublishBackup, PublishAttitude, Finish;
    PublishingPrepares(Failed(w), e);
    PublishingPrepares(w.(c := w.c.(failures := 0, lastSuccess := e.now), sh := w.sh.(attitude := x.target)), e);
    FinishPrepares(w, e);
    FinishPrepares(Failed(w), e);
  }

  /** Publications only change the output and its time. */
  lemma PublishingPrepares(w: Work, e: Env)
    ensures var w' := PublishBackup(w, e);
            w'.sh == w.sh && w'.sg == w.sg && w'.c == w.c.(lastPublish := e.now) && |w'.fx| > |w.fx|
    ensures var w' := PublishAttitude(w, e.now); w'.sh == w.sh && w'.sg == w.sg && w'.c == w.c.(lastPublish := e.now)
  {
  }

  lemma FinishPrepares(w: Work, e: Env)
    ensures var w' := Finish(w, e);
            && w'.sh == w.sh && w'.c.protocol == w.c.protocol.(pending := w'.c.protocol.pending)
            && (w'.sg == w.sg ==> w'.c.finished == w.c.finished) && (|w'.sg| > |w.sg| || w'.sg == w.sg)
  {
  }

  lemma TimeoutPrepares(w: Work, e: Env)
    ensures var w' := NmpcTimeout(w, e);
            && w'.sh.results == w.sh.results && SameReference(w, w') && w'.sg == w.sg && w'.c.finished == w.c.finished
            && w'.c.protocol == w.c.protocol.(pending := w'.c.protocol.pending)
            && After(TimeoutDue(w'.c.protocol), e.now)
  {
  }

  lemma FallbackMovesOn(w: Work, e: Env)
    requires w.sh.publishPeriod > 0
    ensures var w' := NmpcFallback(w, e);
            && w'.sg == w.sg && SameReference(w, w') && w'.sh.results == w.sh.results
            && w'.c.protocol == w.c.protocol && w'.c.lastSuccess == w.c.lastSuccess && w'.c.armed == w.c.armed
            && (NmpcStale(w, e) ==> w'.sh.staleLog.started)
            && After(NmpcStaleWake(w'.c, w'.sh, e.cfg, e.now), e.now)
  {
  }

  lemma DispatchMovesOn(w: Work, e: Env)
    requires e.now >= 0 && e.cfg.solveTimeout >= 0 && After(TimeoutDue(w.c.protocol), e.now)
    requires ResultsReserved(w.sh.results) && Taken(w) == None
    requires IsActive(w.sh.results, w.c.protocol.generation)
    ensures var w' := NmpcDispatch(w, e);
            && w'.sg == w.sg && SameReference(w, w') && w'.sh.staleLog == w.sh.staleLog
            && w'.c.lastSuccess == w.c.lastSuccess && w'.c.lastPublish == w.c.lastPublish && w'.c.armed == w.c.armed
            && IsActive(w'.sh.results, w'.c.protocol.generation) && Taken(w') == None
            && DispatchSettled(w'.c.protocol, e.cfg, e.now)
            && After(TimeoutDue(w'.c.protocol), e.now)
            && After(NmpcDispatchWake(w'.c.protocol, e.cfg, e.now), e.now)
  {
  }

  /** The stages after the reference has been looked at, when it goes on beyond the horizon. */
  lemma PlanMovesOn(w: Work, e: Env)
    requires w.sh.cache.Cached? && !HorizonEnds(w, e) && w.sh.publishPeriod > 0 && e.now >= 0 && w.c.armed
    requires e.cfg.solveTimeout >= 0 && e.cfg.horizonSpan >= 0 && After(TimeoutDue(w.c.protocol), e.now)
    requires ResultsReserved(w.sh.results) && Taken(w) == None && IsActive(w.sh.results, w.c.protocol.generation)
    ensures var w' := NmpcDispatch(NmpcFallback(w, e), e);
            && w'.sg == w.sg && NmpcSettled(w', e.cfg, e.now)
            && After(NmpcWake(w'.c, w'.sh, e.cfg, e.now), e.now)
  {
    hide NmpcFallback, NmpcDispatch, HorizonEnds, EndsWithin, NextEndsWithin, NmpcWake, DispatchSettled, TimeoutDue;
    hide NmpcDispatchWake, IsActive, ResultsReserved, Taken, NmpcStaleWake, After;
    FallbackMovesOn(w, e);
    var w1 := NmpcFallback(w, e);
    assert Taken(w1) == None by { TakenReads(w, w1); }
    DispatchMovesOn(w1, e);
    var w' := NmpcDispatch(w1, e);
    StaleWakeReads(w1, w', e);
    EndOfHorizon(w, e);
    EndIsExact(w.sh.cache, e.now, e.now, e.cfg.horizonSpan + FINISH_MARGIN);
    NmpcWakeParts(w'.c, w'.sh, e.cfg, e.now, e.now);
  }

  lemma EndOfHorizon(w: Work, e: Env)
    ensures HorizonEnds(w, e) <==> EndsWithin(w.sh.cache, e.now, e.cfg.horizonSpan + FINISH_MARGIN)
  {
  }

  lemma TakenReads(w: Work, w': Work)
    requires w.sh.results == w'.sh.results && w.c.protocol == w'.c.protocol
    ensures Taken(w) == Taken(w')
  {
  }

  lemma StaleWakeReads(w: Work, w': Work, e: Env)
    requires w'.c.lastSuccess == w.c.lastSuccess && w'.c.lastPublish == w.c.lastPublish
    requires SameReference(w, w') && w'.sh.staleLog == w.sh.staleLog
    ensures NmpcStaleWake(w'.c, w'.sh, e.cfg, e.now) == NmpcStaleWake(w.c, w.sh, e.cfg, e.now)
  {
  }

  /** Without a reference the vehicle is held where it is. */
  lemma WaitMovesOn(w: Work, e: Env)
    requires w.sh.cache == NoCache && w.sh.publishPeriod > 0 && After(TimeoutDue(w.c.protocol), e.now)
    requires Taken(w) == None && IsActive(w.sh.results, w.c.protocol.generation)
    ensures var w' := NmpcPlan(w, e);
            && w'.sg == w.sg && NmpcSettled(w', e.cfg, e.now)
            && After(NmpcWake(w'.c, w'.sh, e.cfg, e.now), e.now)
  {
    hide TimeoutDue, NmpcWake, HoverIfDue, After;
    var w1, w' := LogWait(w.(c := w.c.(armed := false)), e.now), NmpcPlan(w, e);
    HoverMovesOn(w1, e);
    LogMovesOn(w.c.waitLog, e.now);
    assert w'.c.waitLog == w.c.waitLog.Ran(e.now, Custom1.LOG_INTERVAL);
    NmpcWakeParts(w'.c, w'.sh, e.cfg, e.now, e.now);
  }

  lemma NmpcMovesOn(w: Work, e: Env)
    requires ResultsReserved(w.sh.results) && !w.c.finished && w.sh.publishPeriod > 0 && e.now >= 0
    requires e.cfg.solveTimeout >= 0 && e.cfg.horizonSpan >= 0
    ensures var w' := NmpcTick(w, e);
            w'.sg == w.sg ==>
              NmpcSettled(w', e.cfg, e.now) && After(NmpcWake(w'.c, w'.sh, e.cfg, e.now), e.now)
  {
    hide NmpcRestart, NmpcConsume, NmpcTimeout, NmpcFallback, NmpcDispatch, HorizonEnds, NmpcSettled, NmpcWake;
    hide ResultsReserved, IsActive, TimeoutDue, Taken, After, HoverIfDue, LogWait;
    var w1 := NmpcTimeout(NmpcConsume(NmpcRestart(w), e), e);
    NmpcPrepares(w, e);
    if w1.sh.cache == NoCache {
      WaitMovesOn(w1, e);
    } else {
      var w2 := w1.(c := w1.c.(armed := true));
      assert Taken(w2) == None by { TakenReads(w1, w2); }
      if !HorizonEnds(w2, e) {
        PlanMovesOn(w2, e);
      } else {
        FinishSpeaks(w2, e);
      }
    }
  }

  lemma FinishSpeaks(w: Work, e: Env)
    ensures |Finish(w, e).sg| >= |w.sg| + if w.c.finished then 0 else 1
  {
  }
}
