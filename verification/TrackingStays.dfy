/**
 The stays of a flight run in the tracking leaf: what entering sets up, what leaving ends, and when the last
 output went out.
 */
module TrackingStays {
  import opened Options
  import opened Ticks
  import opened Sensors
  import opened Trajectory
  import opened ResultBuffer
  import opened FlightTypes
  import opened DebugMonitor
  import opened HealthMonitor
  import opened Flight
  import opened FlightRuns
  import opened FlightArming
  import opened FlightRoutes
  import opened FlightHistory
  import Custom1
  import HealthRuns
  import FlightWake
  import FlightOutputs
  import opened TrackingOutputs
  import NmpcAnswers

  // ---------------------------------------------------------------- entering and leaving

  /** A backend that follows the cached reference starts without one, and a stream without segments. */
  predicate Prepared(before: Custom1.Shared, after: Custom1.Shared, cfg: Config, now: int) {
    var results := before.results;
    && after.results == Results(None, results.generations + 1, results.generations + 1, results.requests)
    && after.cache == (if cfg.backend == Nmpc || cfg.backend == Dfbc then Custom1.NoCache else before.cache)
    && after.buffer == (if cfg.backend == Dfbc && cfg.plannerStream then EMPTY else before.buffer)
    && after.publishPeriod == (match cfg.backend
                               case PvaSmc => 10_000_000
                               case Px4Local => 33_333_334
                               case _ => before.publishPeriod)
    && after.attitude == before.attitude && after.staleLog == Timer(now, before.staleLog.started)
  }

  /** The leaf itself starts afresh: it has put out nothing, took nothing over, and begins with the generation. */
  predicate Afresh(c: Custom1.Tracking, results: Results, here: Vec3) {
    && c.lastPublish == 0 && c.lastSuccess == 0 && c.failures == 0 && c.hover == here
    && !c.armed && !c.held && !c.entered && !c.finished
    && c.protocol == Custom1.Protocol(results.active, results.requests, 0, results.requests, false, 0, 0)
  }

  lemma EntersTracking(r: Rec, cfg: Config)
    requires Turned(r, cfg) && Enters(r, Tracking)
    ensures r.out.post.leaf.AtCustom1? && !r.out.post.requested && Prepared(r.pre.sh, r.out.post.sh, cfg, r.i.now)
    ensures Afresh(r.out.post.leaf.tracking, r.out.post.sh.results, HealthRuns.MotionOf(r.i.s, cfg).pos)
  {
    hide LeafTick, Heard, HealthAfter, Choose, ViewOf, LeafSound, Concluded, DeferredOk;
    ViewTells(r, cfg);
    var beat := LeafTick(r.pre, r.i, cfg);
    var choice := Choose(KindOf(r.pre.leaf), ViewOf(r.pre, r.i, cfg, beat));
    FlightWake.TickKeepsShared(r.pre, r.i, cfg);
    BeatShape(r.pre, r.i, cfg);
    EntersSharing(r.pre, r.i, cfg, beat, choice);
  }

  lemma EntersSharing(st: State, i: Input, cfg: Config, beat: Beat, choice: Choice)
    requires choice.Enter?
    ensures var post := Concluded(st, i, cfg, beat, choice).post;
            var n := EnterLeaf(choice.kind, i, cfg, beat.sp, st.requested, ExitLeaf(beat.leaf, beat.sh));
            post.leaf == n.leaf && post.sh == n.sh && post.requested == n.requested
  {
    hide HealthAfter, Heard, Diagnostics, Unconsumed, DebugTicked, DebugEffects, ExitLeaf, EnterLeaf;
  }

  /** The results of a stay that is over: none is kept, and its generation is not the active one. */
  predicate Ended(before: Results, after: Results, generation: nat) {
    if generation == 0 || generation == before.active then after == before.(latest := None, active := 0)
    else after == before
  }

  /** Leaving ends the generation that the last tick left, and touches nothing else that is shared. */
  lemma LeavesTracking(r: Rec, cfg: Config)
    requires Turned(r, cfg) && r.pre.leaf.AtCustom1? && !r.out.post.leaf.AtCustom1?
    ensures var beat := LeafTick(r.pre, r.i, cfg);
            && beat.leaf.AtCustom1? && r.out.post.sh == beat.sh.(results := r.out.post.sh.results)
            && Ended(beat.sh.results, r.out.post.sh.results, beat.leaf.tracking.protocol.generation)
            && (r.out.post.sh.results.active != 0 ==>
                  r.out.post.sh.results.active != beat.leaf.tracking.protocol.generation)
  {
    hide LeafTick, Heard, HealthAfter, Choose, ViewOf, LeafSound, Concluded, DeferredOk;
    ViewTells(r, cfg);
    var beat := LeafTick(r.pre, r.i, cfg);
    var choice := Choose(KindOf(r.pre.leaf), ViewOf(r.pre, r.i, cfg, beat));
    BeatShape(r.pre, r.i, cfg);
    EntersSharing(r.pre, r.i, cfg, beat, choice);
  }

  // ------------------------------------------------------------------ the last output

  /** The turn hands out a setpoint or an attitude command. */
  predicate HandsOut(r: Rec) {
    SetpointOut(r.i.now) in r.out.effects || AttitudeOut(r.i.now) in r.out.effects
  }

  /** A tick remembers when it put something out, and keeps the point of entry and the pace. */
  lemma TickRemembersOutput(w: Custom1.Work, e: Custom1.Env)
    requires w.fx == []
    ensures var w' := Custom1.Tick(w, e);
            && w'.c.lastPublish == (if SetpointOut(e.now) in w'.fx || AttitudeOut(e.now) in w'.fx
                                    then e.now else w.c.lastPublish)
            && w'.c.hover == w.c.hover && w'.sh.publishPeriod == w.sh.publishPeriod
  {
    TickKeepsPoint(w, e);
    hide Custom1.Tick, Trackable, HoversHere;
    match e.cfg.backend
    case Nmpc => NmpcAnswers.TurnAnswers(w, e);
    case Dfbc =>
      if e.cfg.plannerStream { DfbcStreamHandsOut(w, e); } else { DfbcReferenceHandsOut(w, e); }
    case Smc => SmcHandsOut(w, e);
    case PvaSmc => PvaSmcHandsOut(w, e);
    case Px4Local => Px4LocalRemembers(w, e);
  }

  lemma Px4LocalRemembers(w: Custom1.Work, e: Custom1.Env)
    requires w.fx == [] && e.cfg.backend == Px4Local
    ensures var w' := Custom1.Tick(w, e);
            && (AttitudeOut(e.now) !in w'.fx && (SetpointOut(e.now) in w'.fx <==> OutDue(w, e)))
            && w'.c.lastPublish == if OutDue(w, e) then e.now else w.c.lastPublish
  {
    hide Custom1.MayTake, Custom1.ActiveLift, Custom1.MeasuredHover;
  }

  lemma TickKeepsPoint(w: Custom1.Work, e: Custom1.Env)
    ensures SamePace(w, Custom1.Tick(w, e))
  {
    match e.cfg.backend
    case Nmpc =>
      NmpcKeepsPoint(w, e);
      hide Custom1.NmpcTick;
    case Dfbc =>
      DfbcKeepsPoint(w, e);
      hide Custom1.DfbcStreamTick, Custom1.DfbcCacheTick;
    case Smc =>
      SmcKeepsPoint(w, e);
      hide Custom1.SmcTick;
    case _ =>
      hide Custom1.NmpcTick, Custom1.DfbcStreamTick, Custom1.DfbcCacheTick, Custom1.SmcTick;
      hide Custom1.ActiveLift, Custom1.MayTake, Custom1.MeasuredHover;
  }

  lemma SmcKeepsPoint(w: Custom1.Work, e: Custom1.Env)
    ensures SamePace(w, Custom1.SmcTick(w, e))
  {
    hide Custom1.ActiveLift, Custom1.MayTake, Custom1.MeasuredHover;
  }

  predicate SamePace(w: Custom1.Work, w': Custom1.Work) {
    w'.c.hover == w.c.hover && w'.sh.publishPeriod == w.sh.publishPeriod
  }

  lemma DfbcKeepsPoint(w: Custom1.Work, e: Custom1.Env)
    ensures SamePace(w, Custom1.DfbcStreamTick(w, e)) && SamePace(w, Custom1.DfbcCacheTick(w, e))
  {
    var w1 := Custom1.DfbcEnter(w, e);
    var w2 := Custom1.PromoteDue(w1, e);
    UpdateKeepsPoint(w2.(c := w2.c.(armed := true)), e, true);
    UpdateKeepsPoint(w1.(c := w1.c.(armed := true)), e, false);
    hide Custom1.EndsWithin, Custom1.ActiveLift, Custom1.MayTake, Custom1.MeasuredHover, Custom1.DfbcUpdate;
  }

  lemma UpdateKeepsPoint(w: Custom1.Work, e: Custom1.Env, streaming: bool)
    ensures SamePace(w, Custom1.DfbcUpdate(w, e, streaming))
  {
    hide Custom1.MeasuredHover;
  }

  lemma NmpcKeepsPoint(w: Custom1.Work, e: Custom1.Env)
    ensures SamePace(w, Custom1.NmpcTick(w, e))
  {
    var w1 := Custom1.NmpcRestart(w);
    var w2 := Custom1.NmpcConsume(w1, e);
    AnswerKeepsPoint(w1, e);
    AnswerKeepsPoint(w2, e);
    PlanKeepsPoint(Custom1.NmpcTimeout(w2, e), e);
    hide Custom1.NmpcConsume, Custom1.NmpcTimeout, Custom1.NmpcPlan;
  }

  lemma AnswerKeepsPoint(w: Custom1.Work, e: Custom1.Env)
    ensures SamePace(w, Custom1.NmpcConsume(w, e)) && SamePace(w, Custom1.NmpcTimeout(w, e))
  {
    hide Custom1.EndsWithin, Custom1.MeasuredHover, Custom1.Taken;
  }

  lemma PlanKeepsPoint(w: Custom1.Work, e: Custom1.Env)
    ensures SamePace(w, Custom1.NmpcPlan(w, e))
  {
    hide Custom1.EndsWithin, Custom1.MeasuredHover, Custom1.NextRequestBase;
  }

  /** The tracking leaf was entered at turn a, and turns (a, k] begin in it. */
  predicate TracksSince(recs: seq<Rec>, a: nat, k: nat)
    requires k < |recs|
  {
    a < k && Enters(recs[a], Tracking) && forall j :: a < j <= k ==> recs[j].pre.leaf.AtCustom1?
  }

  /** Turn j of the stay that began at a is the last before k that handed something out; a itself if none did. */
  predicate LastHandedOut(recs: seq<Rec>, a: nat, j: nat, k: nat)
    requires a < k < |recs|
  {
    a <= j < k && (a < j ==> HandsOut(recs[j])) && forall i :: j < i < k ==> !HandsOut(recs[i])
  }

  /** Nobody but the leaf has changed the pace of its setpoints. */
  predicate PaceKept(recs: seq<Rec>, a: nat, k: nat)
    requires k < |recs|
  {
    forall i :: a < i <= k ==> recs[i].pre.sh.publishPeriod == recs[i - 1].out.post.sh.publishPeriod
  }

  lemma StayStep(r: Rec, cfg: Config)
    requires Turned(r, cfg) && r.pre.leaf.AtCustom1? && r.out.post.leaf.AtCustom1?
    ensures var c, c' := r.pre.leaf.tracking, r.out.post.leaf.tracking;
            && c'.lastPublish == (if HandsOut(r) then r.i.now else c.lastPublish) && c'.hover == c.hover
            && r.out.post.sh.publishPeriod == r.pre.sh.publishPeriod
            && (cfg.backend == Px4Local ==> (HandsOut(r) <==> r.i.now - c.lastPublish >= r.pre.sh.publishPeriod))
  {
    hide Turned, LeafTick, Diagnostics, DebugEffects;
    StaysWith(r, cfg);
    var own := LeafTick(r.pre, r.i, cfg).signals;
    FlightOutputs.ReportsHoldNoSetpoint(r.pre.debug, r.i.now, Diagnostics(r.pre, r.i, cfg, own, Stay) != []);
    StaysSharing(r, cfg);
    TracksBeat(r.pre, r.i, cfg);
  }

  lemma StaysSharing(r: Rec, cfg: Config)
    requires Turned(r, cfg) && r.out.choice == Stay
    ensures r.out.post.sh == LeafTick(r.pre, r.i, cfg).sh
  {
    hide LeafTick, Heard, HealthAfter, Choose, ViewOf, LeafSound, DeferredOk, Diagnostics, DebugEffects, DebugTicked;
  }

  lemma TracksBeat(st: State, i: Input, cfg: Config)
    requires st.leaf.AtCustom1?
    ensures var beat, c, now := LeafTick(st, i, cfg), st.leaf.tracking, i.now;
            && beat.leaf.AtCustom1? && beat.leaf.tracking.hover == c.hover
            && beat.sh.publishPeriod == st.sh.publishPeriod
            && (var out := SetpointOut(now) in beat.effects || AttitudeOut(now) in beat.effects;
                && beat.leaf.tracking.lastPublish == (if out then now else c.lastPublish)
                && (cfg.backend == Px4Local ==> (out <==> now - c.lastPublish >= st.sh.publishPeriod)))
  {
    var w, e := Custom1.Work(st.leaf.tracking, st.sh, st.sp, [], []), Custom1.Env(cfg, i.s, i.now, i.o);
    TickRemembersOutput(w, e);
    if cfg.backend == Px4Local {
      Px4LocalRemembers(w, e);
    }
    hide Custom1.Tick;
  }

  /**
   In every run the tracking leaf remembers where it was entered, and when it last handed something out:
   never, as long as the stay has not.
   */
  lemma {:induction false} OutputsAreRemembered(recs: seq<Rec>, cfg: Config, k: nat) returns (a: nat, j: nat)
    requires IsRun(recs, cfg) && k < |recs| && recs[k].pre.leaf.AtCustom1?
    ensures TracksSince(recs, a, k) && LastHandedOut(recs, a, j, k)
    ensures recs[k].pre.leaf.tracking.hover == HealthRuns.MotionOf(recs[a].i.s, cfg).pos
    ensures recs[k].pre.leaf.tracking.lastPublish == if j == a then 0 else recs[j].i.now
    ensures PaceKept(recs, a, k) ==>
              && (cfg.backend == Px4Local ==> recs[k].pre.sh.publishPeriod == 33_333_334)
              && (cfg.backend == PvaSmc ==> recs[k].pre.sh.publishPeriod == 10_000_000)
  {
    hide IsRun, Turned, Enters, HandsOut, HealthRuns.MotionOf;
    RunLinks(recs, cfg, k);
    RunLinks(recs, cfg, k - 1);
    var r := recs[k - 1];
    if r.pre.leaf.AtCustom1? {
      a, j := OutputsAreRemembered(recs, cfg, k - 1);
      StayStep(r, cfg);
      if HandsOut(r) {
        j := k - 1;
      }
    } else {
      a, j := k - 1, k - 1;
      EntersIs(r, Tracking);
      EntersTracking(r, cfg);
    }
  }

  /** PX4_LOCAL hands out a setpoint a thirtieth of a second after the last one, in every turn that stays. */
  lemma Px4LocalIsSpaced(recs: seq<Rec>, cfg: Config, k: nat) returns (a: nat, j: nat)
    requires IsRun(recs, cfg) && k < |recs| && recs[k].pre.leaf.AtCustom1? && recs[k].out.post.leaf.AtCustom1?
    requires cfg.backend == Px4Local
    ensures TracksSince(recs, a, k) && LastHandedOut(recs, a, j, k)
    ensures PaceKept(recs, a, k) ==>
              (HandsOut(recs[k]) <==> recs[k].i.now - (if j == a then 0 else recs[j].i.now) >= 33_333_334)
  {
    hide IsRun, Turned, HandsOut, TracksSince, LastHandedOut;
    RunLinks(recs, cfg, k);
    a, j := OutputsAreRemembered(recs, cfg, k);
    StayStep(recs[k], cfg);
  }
}
