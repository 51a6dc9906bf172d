/** When landing is left, how often it asks to disarm, and that nothing disarms an airborne vehicle. */
module FlightLanding {
  import opened Ticks
  import opened Sensors
  import opened FlightTypes
  import opened HealthMonitor
  import opened DebugMonitor
  import opened TakeoffStates
  import opened LandingLeaf
  import opened Flight
  import opened FlightRuns
  import opened FlightArming
  import Custom1
  import HealthRuns

  // ------------------------------------------------------------- one turn

  function Disarm(r: Rec): Effect {
    ArmRequest(r.i.now, false)
  }

  /** How often a turn asks to disarm. */
  function Disarms(r: Rec): nat {
    multiset(r.out.effects)[Disarm(r)]
  }

  function Tocked(r: Rec, cfg: Config): Ticked<Landing>
    requires r.pre.leaf.AtLanding?
  {
    LandingTick(r.pre.leaf.landing, r.i.s, cfg.backend, r.i.now, r.i.now - r.pre.enteredAt)
  }

  /** A turn that begins in Landing stays there or, on Touchdown, goes to SelfCheck; only its tick disarms. */
  predicate LandedStep(r: Rec, cfg: Config) {
    r.pre.leaf.AtLanding? ==>
      var t := Tocked(r, cfg);
      && r.out.post.leaf ==
         (if t.signals == [Touchdown] then AtSelfCheck(STOPPED.Start(r.i.now)) else AtLanding(t.leaf))
      && Disarms(r) == (if t.leaf.disarmed && !r.pre.leaf.landing.disarmed then 1 else 0)
  }

  predicate EnteringStep(r: Rec, cfg: Config) {
    r.out.post.leaf.AtLanding? && !r.pre.leaf.AtLanding? ==>
      r.out.post.leaf == AtLanding(LandingEntered(r.i.s, cfg.backend, r.i.now))
  }

  lemma LandedBeat(st: State, i: Input, cfg: Config, beat: Beat)
    requires st.leaf.AtLanding? && LeafSound(st.leaf) && beat == LeafTick(st, i, cfg)
    ensures var d := st.leaf.landing;
            var t := LandingTick(d, i.s, cfg.backend, i.now, i.now - st.enteredAt);
            && beat.leaf == AtLanding(t.leaf) && beat.signals == t.signals
            && multiset(beat.effects)[ArmRequest(i.now, false)] == (if t.leaf.disarmed && !d.disarmed then 1 else 0)
            && (t.signals == [] || t.signals == [Touchdown])
  {
    hide ConfirmedFrames, LandingTickSetpoint, TouchdownReady;
    assert ArmRequest(i.now, false) !in Publishing(st.leaf.landing.publish, i.now);
  }

  /** What the rest of a turn adds to the tick of the leaf: the effects of an entry and of the debug monitor. */
  lemma ConcludedEffects(st: State, i: Input, cfg: Config, beat: Beat, choice: Choice)
    ensures forall e :: e in Concluded(st, i, cfg, beat, choice).effects && e.ArmRequest? ==>
              e in beat.effects ||
              (choice.Enter? && (choice.kind == Ready || choice.kind == TakeoffInit) && e == ArmRequest(i.now, false) &&
               (choice.kind == Ready ==> !Airborne(i.s, cfg.backend)))
    ensures choice == Stay || choice.kind == SelfCheck ==>
              multiset(Concluded(st, i, cfg, beat, choice).effects)[ArmRequest(i.now, false)] ==
              multiset(beat.effects)[ArmRequest(i.now, false)]
  {
    hide HealthAfter, Heard, Unconsumed, DebugTicked, ExitLeaf, Latched, Airborne, DebugEffects;
    hide Custom1.Entered, Custom1.EnteredShared, LandingEntered, InitEntered, Diagnostics;
    DebugRequestsNothing(st.debug, i.now, Diagnostics(st, i, cfg, beat.signals, choice) != []);
    var fx := DebugEffects(st.debug, i.now, Diagnostics(st, i, cfg, beat.signals, choice) != []);
    assert ArmRequest(i.now, false) !in fx;
    match choice
    case Stay =>
    case Enter(kind, _, _) =>
      hide EnterLeaf;
      EntryRequests(kind, i, cfg, beat.sp, st.requested, ExitLeaf(beat.leaf, beat.sh));
  }

  lemma ConcludedLanding(st: State, i: Input, cfg: Config, beat: Beat, choice: Choice)
    ensures var leaf := Concluded(st, i, cfg, beat, choice).post.leaf;
            && (choice == Stay ==> leaf == beat.leaf)
            && (choice.Enter? && choice.kind == Landed ==> leaf == AtLanding(LandingEntered(i.s, cfg.backend, i.now)))
            && (choice.Enter? && choice.kind == SelfCheck ==> leaf == AtSelfCheck(STOPPED.Start(i.now)))
            && (choice.Enter? ==> KindOf(leaf) == choice.kind)
  {
    hide HealthAfter, Heard, Unconsumed, DebugTicked, ExitLeaf, Latched, Airborne, DebugEffects, Diagnostics;
    hide Custom1.Entered, Custom1.EnteredShared, LandingEntered, InitEntered;
  }

  lemma LandingTurn(r: Rec, cfg: Config)
    requires Turned(r, cfg)
    ensures LandedStep(r, cfg) && EnteringStep(r, cfg)
  {
    hide LeafTick, LeafSound, Heard, LandingTick, LandedStep, EnteringStep, TurnWith;
    var st, i := r.pre, r.i;
    var beat := LeafTick(st, i, cfg);
    BeatShape(st, i, cfg);
    HeardIsForeign(st, i, cfg);
    if st.leaf.AtLanding? {
      LandedBeat(st, i, cfg, beat);
    }
    LandingTurnWith(r, cfg, beat);
  }

  lemma LandingTurnWith(r: Rec, cfg: Config, beat: Beat)
    requires r.out == TurnWith(r.pre, r.i, cfg, beat) && BeatOk(KindOf(r.pre.leaf), beat)
    requires forall x :: x in Heard(r.pre, r.i, cfg) ==> !Owns(KindOf(r.pre.leaf), x)
    requires r.pre.leaf.AtLanding? ==>
               var t := Tocked(r, cfg);
               && beat.leaf == AtLanding(t.leaf) && beat.signals == t.signals
               && multiset(beat.effects)[ArmRequest(r.i.now, false)] ==
                  (if t.leaf.disarmed && !r.pre.leaf.landing.disarmed then 1 else 0)
               && (t.signals == [] || t.signals == [Touchdown])
    ensures LandedStep(r, cfg) && EnteringStep(r, cfg)
  {
    hide LandingTick, Heard, HealthAfter, LandingEntered, Concluded;
    var v := ViewOf(r.pre, r.i, cfg, beat);
    var choice := Choose(KindOf(r.pre.leaf), v);
    ConcludedEffects(r.pre, r.i, cfg, beat, choice);
    ConcludedLanding(r.pre, r.i, cfg, beat, choice);
    ChoiceFacts(KindOf(r.pre.leaf), v);
    if r.pre.leaf.AtLanding? {
      assert Touchdown in v.signals <==> beat.signals == [Touchdown];
    }
  }

  // --------------------------------------------------------------- history

  /** What the history of a landing needs to know of a run. */
  ghost predicate LandingLinked(recs: seq<Rec>, cfg: Config) {
    && (forall k :: 0 <= k < |recs| ==> LandedStep(recs[k], cfg) && EnteringStep(recs[k], cfg))
    && (recs != [] ==> recs[0].pre.leaf.AtSelfCheck?)
    && (forall k :: 0 < k < |recs| ==> recs[k].pre.leaf == recs[k - 1].out.post.leaf)
  }

  lemma RunIsLandingLinked(recs: seq<Rec>, cfg: Config)
    requires IsRun(recs, cfg)
    ensures LandingLinked(recs, cfg)
  {
    hide LandedStep, EnteringStep;
    forall k | 0 <= k < |recs| ensures LandedStep(recs[k], cfg) && EnteringStep(recs[k], cfg) {
      RunIsSound(recs, cfg, k);
      LandingTurn(recs[k], cfg);
    }
  }

  /** The streams that the position and velocity of the backend come from are received. */
  predicate Fed(s: Sensors, cfg: Config) {
    if !HealthRuns.FedByControlState(cfg) then s.localPos.isActive && s.localVel.isActive
    else if s.source == RigidEstimate then s.estimate.isActive
    else s.localPos.isActive && s.localVel.isActive && s.imu.isActive
  }

  /** At most 10 cm up, and moving up or down at most 10 cm/s. */
  predicate Grounded(s: Sensors, cfg: Config) {
    var m := HealthRuns.MotionOf(s, cfg);
    m.pos.z <= 0.1 && -0.1 <= m.vel.z <= 0.1
  }

  lemma LandingSensesAgree(s: Sensors, cfg: Config)
    ensures FeedbackActive(s, cfg.backend) <==> Fed(s, cfg)
    ensures PoseNew(s, cfg.backend) <==> HealthRuns.NewPose(s, cfg)
    ensures Settled(s, cfg.backend) <==> Grounded(s, cfg)
    ensures World(s, cfg.backend) == HealthRuns.MotionOf(s, cfg)
  {
  }

  /** How many of the last new poses in turns (a, k] were on the ground, counting back to the last feedback loss. */
  function GroundedStreak(recs: seq<Rec>, cfg: Config, a: nat, k: nat): nat
    requires a <= k < |recs|
    decreases k
  {
    if k == a || !Fed(recs[k].i.s, cfg) then 0
    else if !HealthRuns.NewPose(recs[k].i.s, cfg) then GroundedStreak(recs, cfg, a, k - 1)
    else if !Grounded(recs[k].i.s, cfg) then 0
    else GroundedStreak(recs, cfg, a, k - 1) + 1
  }

  /** How often turns (a, k] asked to disarm. */
  function DisarmsIn(recs: seq<Rec>, a: nat, k: nat): nat
    requires a <= k < |recs|
    decreases k
  {
    if k == a then 0 else DisarmsIn(recs, a, k - 1) + Disarms(recs[k])
  }

  /** Landing was entered in turn a, and turns (a, k] began in it. */
  predicate LandingSince(recs: seq<Rec>, a: nat, k: nat)
    requires a <= k < |recs|
  {
    && !recs[a].pre.leaf.AtLanding? && recs[a].out.post.leaf.AtLanding?
    && (forall j :: a < j <= k ==> recs[j].pre.leaf.AtLanding?)
  }

  /** After turn k in Landing: when it was entered, and what its counters say about the turns since. */
  lemma {:induction false} LandingHistory(recs: seq<Rec>, cfg: Config, k: nat) returns (a: nat)
    requires LandingLinked(recs, cfg) && k < |recs| && recs[k].out.post.leaf.AtLanding?
    ensures a <= k && LandingSince(recs, a, k)
    ensures var d := recs[k].out.post.leaf.landing;
            && !d.posted
            && d.frames == AtMost(GroundedStreak(recs, cfg, a, k), 5)
            && DisarmsIn(recs, a, k) == if d.disarmed then 1 else 0
  {
    LandingSensesAgree(recs[k].i.s, cfg);
    hide Settled, FeedbackActive, PoseNew, DescentVelocity, LandingLimit, TouchdownReady;
    hide Fed, Grounded, HealthRuns.NewPose;
    assert LandedStep(recs[k], cfg) && EnteringStep(recs[k], cfg);
    if recs[k].pre.leaf.AtLanding? {
      a := LandingHistory(recs, cfg, k - 1);
    } else {
      a := k;
    }
  }

  /** The vehicle reports, freshly and over a live connection, that it is disarmed. */
  predicate ReportsDisarmed(s: Sensors) {
    s.fcu.isNew && s.fcu.isActive && s.connected && !s.armed
  }

  /**
   Landing, entered in turn a, is left only for SelfCheck, and only in a turn in which the vehicle
   reports that it is disarmed while the last new poses, five or more since a and with the feedback never
   lost between them, were all on the ground. And from its entry up to that turn it asked to disarm at most once.
   */
  lemma LandingIsLeftOnTouchdown(recs: seq<Rec>, cfg: Config, k: nat) returns (a: nat)
    requires LandingLinked(recs, cfg) && k < |recs| && recs[k].pre.leaf.AtLanding?
    ensures a < k && LandingSince(recs, a, k)
    ensures DisarmsIn(recs, a, k) <= 1
    ensures recs[k].out.post.leaf.AtLanding? || recs[k].out.post.leaf.AtSelfCheck?
    ensures recs[k].out.post.leaf.AtSelfCheck? <==>
            && GroundedStreak(recs, cfg, a, k) >= 5
            && Fed(recs[k].i.s, cfg) && ReportsDisarmed(recs[k].i.s)
  {
    LandingSensesAgree(recs[k].i.s, cfg);
    hide Settled, FeedbackActive, PoseNew, DescentVelocity, LandingLimit, Fed, Grounded, HealthRuns.NewPose;
    assert LandedStep(recs[k], cfg);
    a := LandingHistory(recs, cfg, k - 1);
  }

  // ------------------------------------------------------ disarming in flight

  /** The height changes only in turns that bring a new pose. */
  predicate HeightSteady(recs: seq<Rec>, cfg: Config) {
    forall k :: 0 < k < |recs| && !HealthRuns.NewPose(recs[k].i.s, cfg) ==>
      HealthRuns.MotionOf(recs[k].i.s, cfg).pos.z == HealthRuns.MotionOf(recs[k - 1].i.s, cfg).pos.z
  }

  /** A confirmed frame means that the vehicle is still on the ground. */
  lemma {:induction false} StreakIsLow(recs: seq<Rec>, cfg: Config, a: nat, k: nat)
    requires HeightSteady(recs, cfg) && a <= k < |recs|
    ensures GroundedStreak(recs, cfg, a, k) > 0 ==> HealthRuns.MotionOf(recs[k].i.s, cfg).pos.z <= 0.1
    decreases k
  {
    hide HealthRuns.MotionOf, HealthRuns.NewPose, Fed;
    if k > a {
      StreakIsLow(recs, cfg, a, k - 1);
    }
  }

  /** A turn that asks to disarm: the vehicle is not airborne, or the landing leaf asks with the touchdown confirmed. */
  predicate DisarmStep(r: Rec, cfg: Config) {
    forall e :: e in r.out.effects && e.ArmRequest? && !e.arm ==>
      || !Airborne(r.i.s, cfg.backend)
      || (r.pre.leaf.AtLanding? && ConfirmedFrames(r.pre.leaf.landing.frames, r.i.s, cfg.backend) > 0)
  }

  lemma TakeoffOnlyFromGround(kind: Kind, v: View)
    requires Choose(kind, v).Enter? && Choose(kind, v).kind == TakeoffInit
    ensures !Airborne(v.s, v.backend)
  {
  }

  lemma TickDisarms(st: State, i: Input, cfg: Config, e: Effect)
    requires LeafSound(st.leaf) && e in LeafTick(st, i, cfg).effects && e.ArmRequest? && !e.arm
    ensures st.leaf.AtLanding? && ConfirmedFrames(st.leaf.landing.frames, i.s, cfg.backend) > 0
  {
    BeatShape(st, i, cfg);
    if st.leaf.AtCustom1? {
      assert false;
    } else {
      hide ConfirmedFrames, Counted, FeedbackActive;
    }
  }

  lemma DisarmTurn(r: Rec, cfg: Config)
    requires Turned(r, cfg)
    ensures DisarmStep(r, cfg)
  {
    var beat := LeafTick(r.pre, r.i, cfg);
    var choice := Choose(KindOf(r.pre.leaf), ViewOf(r.pre, r.i, cfg, beat));
    ConcludedEffects(r.pre, r.i, cfg, beat, choice);
    forall e | e in r.out.effects && e.ArmRequest? && !e.arm
      ensures !Airborne(r.i.s, cfg.backend) ||
              (r.pre.leaf.AtLanding? && ConfirmedFrames(r.pre.leaf.landing.frames, r.i.s, cfg.backend) > 0)
    {
      hide Airborne, ConfirmedFrames, Concluded, LeafTick, LeafSound;
      if e in beat.effects {
        TickDisarms(r.pre, r.i, cfg, e);
      } else if choice.kind == TakeoffInit {
        TakeoffOnlyFromGround(KindOf(r.pre.leaf), ViewOf(r.pre, r.i, cfg, beat));
      }
    }
  }

  /**
   No request to disarm is made in a turn in which the vehicle is armed and more than 30 cm up, as long as the height
   that the sensors give changes only in turns that bring a new pose.
   */
  lemma NeverDisarmsInFlight(recs: seq<Rec>, cfg: Config, k: nat, e: Effect)
    requires IsRun(recs, cfg) && HeightSteady(recs, cfg)
    requires k < |recs| && e in recs[k].out.effects && e.ArmRequest? && !e.arm
    ensures !(recs[k].i.s.armed && HealthRuns.MotionOf(recs[k].i.s, cfg).pos.z > 0.3)
  {
    LandingSensesAgree(recs[k].i.s, cfg);
    assert Airborne(recs[k].i.s, cfg.backend) <==> recs[k].i.s.armed && World(recs[k].i.s, cfg.backend).pos.z > 0.3;
    hide LandedStep, EnteringStep, Airborne;
    RunIsLandingLinked(recs, cfg);
    RunIsSound(recs, cfg, k);
    DisarmTurn(recs[k], cfg);
    if recs[k].pre.leaf.AtLanding? && ConfirmedFrames(recs[k].pre.leaf.landing.frames, recs[k].i.s, cfg.backend) > 0 {
      hide Turn;
      ConfirmedIsLow(recs, cfg, k);
    }
  }

  lemma ConfirmedIsLow(recs: seq<Rec>, cfg: Config, k: nat)
    requires LandingLinked(recs, cfg) && HeightSteady(recs, cfg) && k < |recs|
    requires recs[k].pre.leaf.AtLanding?
    requires ConfirmedFrames(recs[k].pre.leaf.landing.frames, recs[k].i.s, cfg.backend) > 0
    ensures !Airborne(recs[k].i.s, cfg.backend)
  {
    LandingSensesAgree(recs[k].i.s, cfg);
    hide LandedStep, EnteringStep, PoseNew, Settled, FeedbackActive, Fed, Grounded, HealthRuns.NewPose;
    var a := LandingHistory(recs, cfg, k - 1);
    assert GroundedStreak(recs, cfg, a, k) > 0;
    StreakIsLow(recs, cfg, a, k);
  }
}
