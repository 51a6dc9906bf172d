/**
 What the tracking modes hand out, and when: the followed segment, the answer of a control law, the position
 held since tracking was lost, or hovering where the vehicle is.
 */
module TrackingOutputs {
  import opened Sensors
  import opened Trajectory
  import opened Lifter
  import opened ResultBuffer
  import opened FlightTypes
  import opened Custom1
  import FlightRoutes
  import HealthRuns
  import TrajectoryRuns

  // ------------------------------------------------------------- what a tick goes by

  /** The waiting segment is to be used from this tick on. */
  predicate Switches(w: Work, e: Env) {
    var g := w.sh.buffer.pending;
    g.valid && (TrajectoryRuns.Timed(e.cfg) ==> 0 < g.time <= e.now)
  }

  /** The segment that the tick uses. */
  function Used(w: Work, e: Env): Segment {
    if Switches(w, e) then w.sh.buffer.pending else w.sh.buffer.active
  }

  /** The tick takes over the waiting segment, and leaves the slots alone otherwise. */
  predicate KeepsSlots(w: Work, w': Work, e: Env) {
    w'.sh.buffer == if Switches(w, e) then Buffer(w.sh.buffer.pending, NO_SEGMENT) else w.sh.buffer
  }

  /** Tracking has taken over already, or the segment begins near the point where the leaf was entered. */
  predicate Follows(w: Work, e: Env) {
    Used(w, e).valid && (w.c.armed || FlightRoutes.Near(Used(w, e), w.c.hover, e.cfg))
  }

  /** The present time is in the window of the segment, both ends included. */
  predicate InWindow(g: Segment, e: Env) {
    g.time != 0 && e.now != 0 && 0 <= e.now - g.time <= e.cfg.planningPeriodNs
  }

  /** A stream can be tracked now. */
  predicate Trackable(w: Work, e: Env) {
    Follows(w, e) && InWindow(Used(w, e), e) &&
    TrajectoryRuns.Complete(Used(w, e).mask, Used(w, e).frame)
  }

  /** Time for the next setpoint. */
  predicate OutDue(w: Work, e: Env) {
    e.now - w.c.lastPublish >= w.sh.publishPeriod
  }

  /** Time for the next run of a control law. */
  predicate RunDue(w: Work, e: Env) {
    var period := if e.cfg.controlPeriod > 1_000_000 then e.cfg.controlPeriod else 1_000_000;
    w.c.lastPublish <= 0 || e.now - w.c.lastPublish >= period
  }

  // ------------------------------------------------------------- what a tick hands out

  /** Hovering where the vehicle is. */
  predicate HoversHere(sp: Setpoint, e: Env) {
    sp == Setpoint(HealthRuns.MotionOf(e.s, e.cfg).pos, ZERO3, ZERO3, 0xDC0)
  }

  predicate Quiet(w: Work, w': Work) {
    w'.fx == w.fx && w'.sp == w.sp && w'.c.lastPublish == w.c.lastPublish && w'.sh.attitude == w.sh.attitude
  }

  /** A setpoint goes out. */
  predicate SetsOut(w: Work, w': Work, e: Env) {
    w'.fx == w.fx + [SetpointOut(e.now)] && w'.c.lastPublish == e.now && w'.sh.attitude == w.sh.attitude
  }

  /** An attitude command goes out, and no setpoint is changed. */
  predicate Commands(w: Work, w': Work, e: Env) {
    w'.fx == w.fx + [AttitudeOut(e.now)] && w'.c.lastPublish == e.now && w'.sp == w.sp
  }

  predicate HoversIf(due: bool, w: Work, w': Work, e: Env) {
    if due then SetsOut(w, w', e) && HoversHere(w'.sp, e) else Quiet(w, w')
  }

  /** The position held goes out: the one held already, or from now on the one where the vehicle is. */
  predicate HoldsOut(w: Work, w': Work, e: Env) {
    && SetsOut(w, w', e) && w'.c.held && w'.sp == w'.c.frozen
    && if w.c.held then w'.c.frozen == w.c.frozen else HoversHere(w'.c.frozen, e)
  }

  predicate SameHold(w: Work, w': Work) {
    w'.c.held == w.c.held && w'.c.frozen == w.c.frozen
  }

  // ---------------------------------------------------------------------- agreement

  lemma SlotsAgree(w: Work, e: Env)
    ensures PromoteDue(w, e).sh.buffer.active == Used(w, e) && KeepsSlots(w, PromoteDue(w, e), e)
  {
  }

  lemma FollowsAgrees(w: Work, e: Env)
    ensures MayTake(PromoteDue(w, e), e) <==> Follows(w, e)
  {
    SlotsAgree(w, e);
    FlightRoutes.NearIsMatch(Used(w, e), w.c.hover, e.cfg);
    hide FlightRoutes.Near, PlanMatchesHover;
  }

  lemma TrackableAgrees(w: Work, e: Env)
    requires e.cfg.backend == Smc || e.cfg.backend == Dfbc
    ensures ActiveLift(PromoteDue(w, e), e).Some? && MayTake(PromoteDue(w, e), e) <==> Trackable(w, e)
  {
    SlotsAgree(w, e);
    FollowsAgrees(w, e);
    TrajectoryRuns.CompleteIsWorld(Used(w, e).mask, Used(w, e).frame);
    hide Lift, FlightRoutes.Near, PlanMatchesHover, Used, Promoted, KeepsSlots, WorldPva, TrajectoryRuns.Complete;
  }

  lemma HoverAgrees(e: Env)
    ensures HoversHere(MeasuredHover(e), e)
  {
  }

  // ------------------------------------------------------------------------ PX4_LOCAL

  /**
   PX4_LOCAL hands out a setpoint exactly when it is time: the segment it follows, moved to now or held
   as it is through its window, and otherwise it hovers here. It has taken over exactly after such a segment,
   and gives the take-over up when it no longer follows one.
   */
  lemma Px4LocalHandsOut(w: Work, e: Env)
    requires e.cfg.backend == Px4Local && e.now >= 0
    ensures var w', g := Tick(w, e), Used(w, e);
            var open := e.cfg.zeroOrderHold ==> InWindow(g, e);
            && w'.sg == w.sg && KeepsSlots(w, w', e) && SameHold(w, w')
            && w'.c.armed == (Follows(w, e) && (w.c.armed || open))
            && if !OutDue(w, e) then Quiet(w, w')
               else if Follows(w, e) && open then
                 && SetsOut(w, w', e)
                 && exists tau, mask ::
                      && IsMoved(w'.sp, g, tau, mask) && IsMaskFor(mask, g, e.cfg)
                      && if e.cfg.zeroOrderHold then tau == 0.0 else IsAge(tau, g, e.now)
               else SetsOut(w, w', e) && HoversHere(w'.sp, e)
  {
    SlotsAgree(w, e);
    FollowsAgrees(w, e);
    PassThroughLift(Used(w, e), e.now, e.cfg);
    HoverAgrees(e);
    hide LiftForBackend, MayTakeSetpoint, Follows, IsMoved, IsMaskFor, IsAge, HoversHere, MeasuredHover, Promoted, Used;
    hide KeepsSlots;
  }

  // -------------------------------------------------------------------------- PVA_SMC

  /** PVA_SMC hands out its law's setpoint, with a segment and a paired sample, on a switch and when it is time. */
  lemma PvaSmcHandsOut(w: Work, e: Env)
    requires e.cfg.backend == PvaSmc
    ensures var w' := Tick(w, e);
            && w'.sg == w.sg && KeepsSlots(w, w', e) && SameHold(w, w') && w'.c.armed == w.c.armed
            && if Used(w, e).valid && e.s.paired.Some? && (Switches(w, e) || OutDue(w, e))
               then SetsOut(w, w', e) && w'.sp == e.o.pvaSetpoint else Quiet(w, w')
  {
    SlotsAgree(w, e);
  }

  // ------------------------------------------------------------------------------ SMC

  /** What the law has answered goes out as a setpoint; no answer holds the position. */
  predicate Answered(w: Work, w': Work, e: Env) {
    match e.o.output
    case None =>
      HoldsOut(w, w', e) && w'.c.failures == w.c.failures + 1 && w'.c.lastSuccess == w.c.lastSuccess
    case Some((sp, _)) =>
      SetsOut(w, w', e) && w'.sp == sp && !w'.c.held && w'.c.failures == 0 && w'.c.lastSuccess == e.now
  }

  predicate SameRecord(w: Work, w': Work) {
    SameHold(w, w') && w'.c.failures == w.c.failures && w'.c.lastSuccess == w.c.lastSuccess
  }

  /** The law may run once all the streams of the vehicle were alive. */
  predicate LawReady(w: Work, e: Env) {
    w.c.entered || (e.s.localPos.isActive && e.s.localVel.isActive && e.s.imu.isActive && e.s.fcu.isActive)
  }

  /**
   While SMC has a segment to track it runs its law each time it is due, and hovers before the law is ready.
   Without a segment it holds the position where it lost the last one, and hovers where it is if it never
   had one.
   */
  lemma SmcHandsOut(w: Work, e: Env)
    requires e.cfg.backend == Smc
    ensures var w', held := Tick(w, e), w.c.held;
            && w'.sg == w.sg && KeepsSlots(w, w', e)
            && (w'.c.entered <==> LawReady(w, e)) && (w'.c.armed <==> w.c.armed || Trackable(w, e))
            && if Trackable(w, e) && LawReady(w, e) && RunDue(w, e) then Answered(w, w', e)
               else if Trackable(w, e) && LawReady(w, e) then Quiet(w, w') && SameRecord(w, w')
               else if Trackable(w, e) then HoversIf(OutDue(w, e), w, w', e) && SameRecord(w, w')
               else if w.c.armed && !held then HoldsOut(w, w', e) && w'.c.failures == w.c.failures
               else if held && OutDue(w, e) then HoldsOut(w, w', e) && SameRecord(w, w')
               else if held then Quiet(w, w') && SameRecord(w, w')
               else HoversIf(OutDue(w, e), w, w', e) && SameRecord(w, w')
  {
    var w1 := PromoteDue(SmcEnter(w, e), e);
    SlotsAgree(SmcEnter(w, e), e);
    TrackableAgrees(SmcEnter(w, e), e);
    if Trackable(w, e) {
      SmcTracks(w1, e);
    } else {
      SmcWaits(w1, e);
    }
    hide MayTake, ActiveLift, Trackable, HoversHere, Promoted, Used, KeepsSlots, SmcWait, SmcTrack;
  }

  lemma SmcWaits(w: Work, e: Env)
    ensures var w', held := SmcWait(w, e), w.c.held;
            && w'.sg == w.sg && w'.sh.buffer == w.sh.buffer && w'.c.entered == w.c.entered && w'.c.armed == w.c.armed
            && if w.c.armed && !held then HoldsOut(w, w', e) && w'.c.failures == w.c.failures
               else if held && OutDue(w, e) then HoldsOut(w, w', e) && SameRecord(w, w')
               else if held then Quiet(w, w') && SameRecord(w, w')
               else HoversIf(OutDue(w, e), w, w', e) && SameRecord(w, w')
  {
    HoverAgrees(e);
    hide HoversHere, MeasuredHover;
  }

  lemma SmcTracks(w: Work, e: Env)
    ensures var w' := SmcTrack(w, e);
            && w'.sg == w.sg && w'.sh.buffer == w.sh.buffer && w'.c.entered == w.c.entered && w'.c.armed
            && if w.c.entered && RunDue(w, e) then Answered(w, w', e)
               else if w.c.entered then Quiet(w, w') && SameRecord(w, w')
               else HoversIf(OutDue(w, e), w, w', e) && SameRecord(w, w')
  {
    HoverAgrees(e);
    hide HoversHere, MeasuredHover;
  }

  // ----------------------------------------------------------------------------- DFBC

  /** What the law has answered goes out as an attitude command. */
  predicate Commanded(w: Work, w': Work, target: Target, e: Env) {
    Commands(w, w', e) && w'.sh.attitude == target && w'.c.failures == 0 && w'.c.lastSuccess == e.now
  }

  predicate CommandedOr(w: Work, w': Work, fallback: bool, e: Env) {
    match e.o.output
    case None => fallback && w'.c.failures == w.c.failures + 1 && w'.c.lastSuccess == w.c.lastSuccess
    case Some((_, target)) => Commanded(w, w', target, e)
  }

  /**
   While DFBC has a segment to track it runs its law each time it is due, and hovers before the thrust of
   the vehicle is known. Without a segment it holds its position when it has had one, and hovers otherwise.
   */
  lemma DfbcStreamHandsOut(w: Work, e: Env)
    requires e.cfg.backend == Dfbc && e.cfg.plannerStream
    ensures var w', ready := Tick(w, e), w.c.entered || e.o.thrustKnown;
            && w'.sg == w.sg && KeepsSlots(w, w', e)
            && (w'.c.entered <==> ready) && (w'.c.armed <==> w.c.armed || Trackable(w, e))
            && if Trackable(w, e) && ready && RunDue(w, e) then
                 CommandedOr(w, w', HoldsOut(w, w', e), e) && (e.o.output.Some? ==> !w'.c.held)
               else if Trackable(w, e) then HoversIf(RunDue(w, e), w, w', e) && SameRecord(w, w')
               else if OutDue(w, e) && (w.c.armed || w.c.held) then
                 HoldsOut(w, w', e) && w'.c.failures == w.c.failures
               else HoversIf(OutDue(w, e), w, w', e) && SameRecord(w, w')
  {
    var w1 := PromoteDue(DfbcEnter(w, e), e);
    SlotsAgree(DfbcEnter(w, e), e);
    TrackableAgrees(DfbcEnter(w, e), e);
    if Trackable(w, e) {
      StreamUpdates(w1.(c := w1.c.(armed := true)), e);
    } else {
      StreamWaits(w1, e);
    }
    hide MayTake, ActiveLift, Trackable, HoversHere, Promoted, Used, KeepsSlots, DfbcWait, DfbcUpdate, HoldsOut;
  }

  lemma StreamWaits(w: Work, e: Env)
    ensures var w' := DfbcWait(w, e);
            && w'.sg == w.sg && w'.sh.buffer == w.sh.buffer && w'.c.entered == w.c.entered && w'.c.armed == w.c.armed
            && if OutDue(w, e) && (w.c.armed || w.c.held) then
                 HoldsOut(w, w', e) && w'.c.failures == w.c.failures
               else HoversIf(OutDue(w, e), w, w', e) && SameRecord(w, w')
  {
    HoverAgrees(e);
    hide HoversHere, MeasuredHover;
  }

  lemma StreamUpdates(w: Work, e: Env)
    ensures var w' := DfbcUpdate(w, e, true);
            && w'.sg == w.sg && w'.sh.buffer == w.sh.buffer && w'.c.entered == w.c.entered && w'.c.armed == w.c.armed
            && if w.c.entered && RunDue(w, e) then
                 CommandedOr(w, w', HoldsOut(w, w', e), e) && (e.o.output.Some? ==> !w'.c.held)
               else HoversIf(RunDue(w, e), w, w', e) && SameRecord(w, w')
  {
    if e.o.output.Some? {
      CommandsOut(w, e, true);
    }
    HoverAgrees(e);
    hide HoversHere, MeasuredHover, PublishBackup, DfbcSucceeded, Commanded;
  }

  /** A finite reference of which no more than `limit` is left. */
  predicate NearlyOver(cache: Cache, now: int, limit: int) {
    && cache.Cached? && cache.duration.Some?
    && cache.duration.value - (if now > cache.start then now - cache.start else 0) <= limit
  }

  /** Flying on without the law: at the reference point of this moment, or where the vehicle is. */
  predicate BacksUp(w: Work, w': Work, e: Env) {
    && SetsOut(w, w', e)
    && match e.o.reference
       case Some(m) => w'.sp == Setpoint(m.pos, m.vel, ZERO3, 0xDC0)
       case None => HoversHere(w'.sp, e)
  }

  /** The end of the reference is reported once; from then on the vehicle hovers. */
  predicate Ends(w: Work, w': Work, e: Env) {
    if w.c.finished then HoversIf(OutDue(w, e), w, w', e) && w'.sg == w.sg && w'.c.finished
    else
      && SetsOut(w, w', e) && HoversHere(w'.sp, e) && w'.sg == w.sg + [ReferenceFinished]
      && w'.c.finished && !w'.c.armed
  }

  /**
   With a reference DFBC runs its law each time it is due until the next run would come after the end.
   It hovers without a reference, or before the thrust of the vehicle is known, and falls back to the
   reference itself when the law does not answer.
   */
  lemma DfbcReferenceHandsOut(w: Work, e: Env)
    requires e.cfg.backend == Dfbc && !e.cfg.plannerStream
    ensures var w', ready := Tick(w, e), w.c.entered || e.o.thrustKnown;
            var period := if e.cfg.controlPeriod > 1_000_000 then e.cfg.controlPeriod else 1_000_000;
            && w'.sh.buffer == w.sh.buffer && (w'.c.entered <==> ready) && SameHold(w, w')
            && if w.sh.cache == NoCache then
                 HoversIf(OutDue(w, e), w, w', e) && SameRecord(w, w') && !w'.c.armed && w'.sg == w.sg
               else if NearlyOver(w.sh.cache, e.now, period + 1_000) then Ends(w, w', e) && SameRecord(w, w')
               else
                 && w'.sg == w.sg && w'.c.armed && w'.c.finished == w.c.finished
                 && if RunDue(w, e) && ready && e.o.reference.Some? then
                      CommandedOr(w, w', BacksUp(w, w', e), e)
                    else HoversIf(RunDue(w, e), w, w', e) && SameRecord(w, w')
  {
    var w1 := DfbcEnter(w, e);
    if w.sh.cache.Cached? {
      FinishEnds(w1.(c := w1.c.(armed := true)), e);
      ReferenceUpdates(w1.(c := w1.c.(armed := true)), e);
    }
    HoverAgrees(e);
    hide HoversHere, MeasuredHover, Finish, DfbcUpdate;
  }

  lemma FinishEnds(w: Work, e: Env)
    ensures Ends(w, Finish(w, e), e) && SameRecord(w, Finish(w, e)) && Finish(w, e).sh == w.sh
    ensures Finish(w, e).c.entered == w.c.entered
  {
    HoverAgrees(e);
    hide HoversHere, MeasuredHover;
  }

  lemma BackupBacksUp(w: Work, e: Env)
    ensures BacksUp(w, PublishBackup(w, e), e) && PublishBackup(w, e).sh == w.sh && PublishBackup(w, e).sg == w.sg
    ensures PublishBackup(w, e).c == w.c.(lastPublish := e.now)
  {
    HoverAgrees(e);
    hide HoversHere, MeasuredHover;
  }

  lemma ReferenceUpdates(w: Work, e: Env)
    ensures var w' := DfbcUpdate(w, e, false);
            && w'.sg == w.sg && w'.c.armed == w.c.armed && w'.c.finished == w.c.finished && SameHold(w, w')
            && w'.c.entered == w.c.entered && w'.sh.buffer == w.sh.buffer
            && if RunDue(w, e) && w.c.entered && e.o.reference.Some? then
                 CommandedOr(w, w', BacksUp(w, w', e), e)
               else HoversIf(RunDue(w, e), w, w', e) && SameRecord(w, w')
  {
    if e.o.output.Some? {
      CommandsOut(w, e, false);
    }
    HoverAgrees(e);
    FailureBacksUp(w, e);
    hide HoversHere, MeasuredHover, PublishBackup, DfbcFailed, DfbcSucceeded, Commanded, BacksUp;
  }

  lemma FailureBacksUp(w: Work, e: Env)
    ensures var w' := DfbcFailed(w, e, false);
            && BacksUp(w, w', e) && w'.sg == w.sg && w'.sh == w.sh && SameHold(w, w')
            && w'.c.failures == w.c.failures + 1 && w'.c.lastSuccess == w.c.lastSuccess
            && w'.c.armed == w.c.armed && w'.c.entered == w.c.entered && w'.c.finished == w.c.finished
  {
    BackupBacksUp(LogTrack(w.(c := w.c.(failures := w.c.failures + 1)), e.now), e);
    hide HoversHere, MeasuredHover, PublishBackup;
  }

  lemma CommandsOut(w: Work, e: Env, streaming: bool)
    requires e.o.output.Some?
    ensures var w', target := DfbcSucceeded(w, e, streaming, e.o.output.value.1), e.o.output.value.1;
            && Commanded(w, w', target, e) && w'.c.held == (!streaming && w.c.held)
            && w'.c.frozen == w.c.frozen && w'.sg == w.sg && w'.sh.buffer == w.sh.buffer
            && w'.c.armed == w.c.armed && w'.c.entered == w.c.entered && w'.c.finished == w.c.finished
  {
  }

  // --------------------------------------------------------------------- the held position

  /** The ticks of one stay in the leaf, the others' changes to what it shares with it in between. */
  ghost predicate IsStay(ws: seq<Work>, es: seq<Env>) {
    && |ws| == |es| && (ws != [] ==> !ws[0].c.held)
    && (forall k :: 0 <= k < |ws| ==> Streams(es[k].cfg))
    && (forall k :: 0 < k < |ws| ==> ws[k].c == Tick(ws[k - 1], es[k - 1]).c)
  }

  predicate Streams(cfg: Config) {
    cfg.backend == Smc || (cfg.backend == Dfbc && cfg.plannerStream)
  }

  /** The position is held from the tick j on through the tick k. */
  ghost predicate HeldSince(ws: seq<Work>, es: seq<Env>, j: nat, k: nat) {
    && j <= k < |ws| && |ws| == |es| && !ws[j].c.held
    && (forall i :: j <= i <= k ==> Tick(ws[i], es[i]).c.held)
  }

  /** What goes out during a hold is the position held, unless there is a segment again and no law to track it. */
  predicate HoldSays(w: Work, w': Work, e: Env) {
    w'.fx != w.fx ==>
      && SetsOut(w, w', e)
      && if Trackable(w, e) && !w'.c.entered then HoversHere(w'.sp, e) else w'.sp == w'.c.frozen
  }

  /**
   A position that is held is the one where the vehicle was when the hold began, however long it lasts and
   wherever the vehicle drifts: every setpoint of the hold is that one. The only exception is a tick that has
   a segment to track again before its law was ever ready, and hovers.
   */
  lemma {:induction false} HeldPositionStays(ws: seq<Work>, es: seq<Env>, k: nat) returns (j: nat)
    requires IsStay(ws, es) && k < |ws| && Tick(ws[k], es[k]).c.held
    ensures HeldSince(ws, es, j, k)
    ensures var w' := Tick(ws[k], es[k]);
            HoversHere(w'.c.frozen, es[j]) && HoldSays(ws[k], w', es[k])
  {
    HoldStep(ws[k], es[k]);
    hide Tick, HoversHere, HoldSays;
    if ws[k].c.held {
      assert ws[k].c == Tick(ws[k - 1], es[k - 1]).c;
      j := HeldPositionStays(ws, es, k - 1);
      HoldGoesOn(ws, es, j, k);
    } else {
      j := k;
    }
    hide IsStay, HeldSince;
  }

  lemma HoldGoesOn(ws: seq<Work>, es: seq<Env>, j: nat, k: nat)
    requires 0 < k < |ws| && HeldSince(ws, es, j, k - 1) && Tick(ws[k], es[k]).c.held
    ensures HeldSince(ws, es, j, k)
  {
    hide Tick;
  }

  lemma HoldStep(w: Work, e: Env)
    requires Streams(e.cfg) && Tick(w, e).c.held
    ensures var w' := Tick(w, e);
            && (if w.c.held then w'.c.frozen == w.c.frozen else HoversHere(w'.c.frozen, e))
            && HoldSays(w, w', e)
  {
    if e.cfg.backend == Smc {
      SmcHandsOut(w, e);
    } else {
      DfbcStreamHandsOut(w, e);
    }
    hide Tick, Trackable, HoversHere, KeepsSlots;
  }
}
