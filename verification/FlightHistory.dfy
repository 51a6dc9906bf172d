/** What the turns of a run go by, traced to what came before them: frames, commands, samples and publications. */
module FlightHistory {
  import opened Options
  import opened Sensors
  import opened FlightTypes
  import opened HealthMonitor
  import opened DebugMonitor
  import opened TakeoffStates
  import opened LandingLeaf
  import opened Flight
  import opened FlightRuns
  import opened FlightArming
  import opened FlightRoutes
  import Custom1
  import HealthRuns
  import TrackingOutputs
  import NmpcAnswers

  /** Turn k of a run is a turn of a sound state, and begins where the one before ended. */
  lemma RunLinks(recs: seq<Rec>, cfg: Config, k: nat)
    requires IsRun(recs, cfg) && k < |recs|
    ensures Turned(recs[k], cfg) && (k == 0 ==> recs[k].pre.leaf.AtSelfCheck?)
    ensures k > 0 ==> var post, pre := recs[k - 1].out.post, recs[k].pre;
                      pre == post.(pending := pre.pending, sh := pre.sh)
  {
    hide Turn;
    RunIsSound(recs, cfg, k);
  }

  // ---------------------------------------------------------------- the Track latch

  /** The turn enters another leaf of this kind. */
  predicate Enters(r: Rec, kind: Kind) {
    KindOf(r.out.post.leaf) == kind && KindOf(r.pre.leaf) != kind
  }

  /** The turn stays in Hover or the ascent, and a Track command is left over for the leaf. */
  predicate Latches(r: Rec) {
    (r.pre.leaf.AtHover? || r.pre.leaf.AtAscending?) && KindOf(r.out.post.leaf) == KindOf(r.pre.leaf) && Told(r, Track)
  }

  predicate Unlatches(r: Rec) {
    Enters(r, Tracking) || Enters(r, Landed)
  }

  /** A Track command was latched before turn k, and neither tracking nor landing was entered since. */
  ghost predicate LatchedBefore(recs: seq<Rec>, k: nat)
    requires k <= |recs|
  {
    exists j :: 0 <= j < k && Latches(recs[j]) && forall i :: j < i < k ==> !Unlatches(recs[i])
  }

  lemma LatchStep(r: Rec, cfg: Config)
    requires Turned(r, cfg)
    ensures r.out.post.requested == (!Unlatches(r) && (r.pre.requested || Latches(r)))
  {
    hide LeafTick, Heard, HealthAfter, Choose, ViewOf, LeafSound, Concluded, DeferredOk;
    var beat, v := LeafTick(r.pre, r.i, cfg), ViewOf(r.pre, r.i, cfg, LeafTick(r.pre, r.i, cfg));
    BeatShape(r.pre, r.i, cfg);
    ChoiceFacts(KindOf(r.pre.leaf), v);
    ConclusionLatches(r.pre, r.i, cfg, beat, Choose(KindOf(r.pre.leaf), v));
  }

  lemma ConclusionLatches(st: State, i: Input, cfg: Config, beat: Beat, choice: Choice)
    requires KindOf(beat.leaf) == KindOf(st.leaf) && (choice.Enter? ==> choice.kind != KindOf(st.leaf))
    ensures var post := Concluded(st, i, cfg, beat, choice).post;
            && KindOf(post.leaf) == (if choice.Enter? then choice.kind else KindOf(st.leaf))
            && post.requested ==
               if choice.Enter? then st.requested && choice.kind != Tracking && choice.kind != Landed
               else st.requested || ((st.leaf.AtHover? || st.leaf.AtAscending?) && Track in Batch(st))
  {
    hide HealthAfter, Heard, Diagnostics, Unconsumed, DebugTicked, DebugEffects, ExitLeaf, Airborne;
    hide Custom1.Entered, Custom1.EnteredShared, Custom1.EntryEffects, LandingEntered, InitEntered, OffboardEntered;
  }

  lemma LatchMoves(recs: seq<Rec>, k: nat)
    requires k < |recs|
    ensures LatchedBefore(recs, k + 1) <==> !Unlatches(recs[k]) && (LatchedBefore(recs, k) || Latches(recs[k]))
  {
    hide Latches, Unlatches;
    if LatchedBefore(recs, k + 1) {
      var j :| 0 <= j < k + 1 && Latches(recs[j]) && forall i :: j < i < k + 1 ==> !Unlatches(recs[i]);
      assert j == k || LatchedBefore(recs, k);
      assert j == k ==> !Unlatches(recs[k]) by { NotBoth(recs[k]); }
    }
    if !Unlatches(recs[k]) && LatchedBefore(recs, k) {
      var j :| 0 <= j < k && Latches(recs[j]) && forall i :: j < i < k ==> !Unlatches(recs[i]);
      assert forall i :: j < i < k + 1 ==> !Unlatches(recs[i]);
    }
  }

  lemma NotBoth(r: Rec)
    ensures !(Latches(r) && Unlatches(r))
  {
  }

  /** In every run the latch is set exactly when a Track command was latched and not used up since. */
  lemma {:induction false} LatchIsHistory(recs: seq<Rec>, cfg: Config, k: nat)
    requires IsRun(recs, cfg) && k < |recs|
    ensures recs[k].pre.requested <==> LatchedBefore(recs, k)
  {
    hide Turn, Latches, Unlatches;
    if k > 0 {
      LatchIsHistory(recs, cfg, k - 1);
      RunIsSound(recs, cfg, k - 1);
      LatchMoves(recs, k - 1);
      LatchStep(recs[k - 1], cfg);
    }
  }

  // -------------------------------------------------------------- completion signals

  /** A turn hears a completion of its own leaf exactly when the leaf's tick signals it. */
  lemma OwnSignals(r: Rec, cfg: Config, x: Signal)
    requires Turned(r, cfg) && Owns(KindOf(r.pre.leaf), x)
    ensures Said(r, x) <==> x in LeafTick(r.pre, r.i, cfg).signals
  {
    hide LeafTick, Heard, Choose, ViewOf, Concluded, LeafSound;
    var beat := LeafTick(r.pre, r.i, cfg);
    HeardIsForeign(r.pre, r.i, cfg);
    ConclusionShows(r.pre, r.i, cfg, beat, Choose(KindOf(r.pre.leaf), ViewOf(r.pre, r.i, cfg, beat)));
  }

  /** One fresh FCU frame in OFFBOARD completes the mode request, one that says armed the arming. */
  lemma RequestsComplete(r: Rec, cfg: Config)
    requires Turned(r, cfg)
    ensures r.pre.leaf.AtOffboard? ==> (Said(r, OffboardReady) <==> r.i.s.fcu.isNew && r.i.s.mode == OFFBOARD)
    ensures r.pre.leaf.AtArm? ==> (Said(r, ArmReady) <==> r.i.s.fcu.isNew && r.i.s.armed)
  {
    hide Turn, Said;
    if r.pre.leaf.AtOffboard? {
      OwnSignals(r, cfg, OffboardReady);
    } else if r.pre.leaf.AtArm? {
      OwnSignals(r, cfg, ArmReady);
    }
  }

  /** The ALTCTL gate opens exactly when it is skipped, or after two fresh ALTCTL frames in a row since Ready. */
  lemma GateOpens(recs: seq<Rec>, cfg: Config, k: nat) returns (a: nat)
    requires IsRun(recs, cfg) && k < |recs| && recs[k].pre.leaf.AtInit?
    ensures a < k && TakesOff(recs[a]) && (forall j :: a < j <= k ==> recs[j].pre.leaf.AtInit?)
    ensures Said(recs[k], AltctlReady) <==> cfg.skipAltctlGate || Streak(recs, a, k, ALTCTL) >= 2
  {
    hide IsRun, Turned, Said, TakesOff, Calm, Streak, Linked, Counted, AtMost, InitTick, LeafTick, CalmIn;
    RunIsLinked(recs, cfg);
    RunLinks(recs, cfg, k);
    var r := recs[k];
    a := InitHistory(recs, cfg, k - 1);
    OwnSignals(r, cfg, AltctlReady);
    InitSpeaks(r, cfg);
    NotPosted(r, cfg);
    InitCompletes(r.pre.leaf.init, r.i, Streak(recs, a, k - 1, ALTCTL));
    StreakStep(recs, a, k, ALTCTL);
    InInit(recs, a, k - 1);
  }

  lemma InInit(recs: seq<Rec>, a: nat, k: nat)
    requires a <= k < |recs| && CalmIn(recs, a, k, TakeoffInit)
    ensures forall j :: a < j <= k ==> KindOf(recs[j].pre.leaf) == TakeoffInit
  {
  }

  lemma NotPosted(r: Rec, cfg: Config)
    requires Turned(r, cfg) && r.pre.leaf.AtInit?
    ensures !r.pre.leaf.init.posted
  {
  }

  lemma InitSpeaks(r: Rec, cfg: Config)
    requires r.pre.leaf.AtInit?
    ensures LeafTick(r.pre, r.i, cfg).signals == InitTick(r.pre.leaf.init, r.i.s, r.i.now).signals
  {
  }

  lemma InitCompletes(d: Init, i: Input, streak: nat)
    requires d.frames == if d.skip then REQUIRED_ALTCTL_FRAMES else AtMost(streak, REQUIRED_ALTCTL_FRAMES)
    requires !d.posted
    ensures var longer := if !i.s.fcu.isNew then streak else if i.s.mode == ALTCTL then streak + 1 else 0;
            AltctlReady in InitTick(d, i.s, i.now).signals <==> d.skip || longer >= 2
  {
  }

  lemma StreakStep(recs: seq<Rec>, a: nat, k: nat, mode: FcuMode)
    requires a < k < |recs|
    ensures Streak(recs, a, k, mode) ==
            if !recs[k].i.s.fcu.isNew then Streak(recs, a, k - 1, mode)
            else if recs[k].i.s.mode == mode then Streak(recs, a, k - 1, mode) + 1 else 0
  {
  }

  // ---------------------------------------------------------------------- the ascent

  /** Within ten centimetres of the height, and slower than 5 cm/s. */
  predicate Arrived(r: Rec, cfg: Config, height: real) {
    var m := HealthRuns.MotionOf(r.i.s, cfg);
    -0.1 <= m.pos.z - height <= 0.1 && -0.05 < m.vel.z < 0.05
  }

  /** How many of the last new poses in turns (a, k] had arrived, without a break. */
  function ArrivedStreak(recs: seq<Rec>, cfg: Config, height: real, a: nat, k: nat): nat
    requires a <= k < |recs|
    decreases k
  {
    if k == a then 0
    else if !HealthRuns.NewPose(recs[k].i.s, cfg) then ArrivedStreak(recs, cfg, height, a, k - 1)
    else if Arrived(recs[k], cfg, height) then ArrivedStreak(recs, cfg, height, a, k - 1) + 1
    else 0
  }

  /** Turn a entered the ascent, and turns (a, k] began in it. */
  predicate AscendsSince(recs: seq<Rec>, a: nat, k: nat)
    requires k < |recs|
  {
    a < k && Enters(recs[a], TakeoffAscending) && forall j :: a < j <= k ==> recs[j].pre.leaf.AtAscending?
  }

  lemma EntersAscent(r: Rec, cfg: Config)
    requires Turned(r, cfg) && Enters(r, TakeoffAscending)
    ensures r.out.post.leaf == AtAscending(AscentEntered(r.i.now)) && r.out.post.enteredAt == r.i.now
    ensures r.out.post.sp == r.pre.sp
  {
    hide LeafTick, Heard, HealthAfter, Choose, ViewOf, LeafSound, Concluded, DeferredOk;
    ViewTells(r, cfg);
    var beat := LeafTick(r.pre, r.i, cfg);
    TurnTakesRoute(r, cfg, TakeoffAscending);
    assert r.pre.leaf.AtArm? by { hide Disturbed, Said; }
    ArmKeepsSetpoint(r.pre, r.i, cfg);
    EntersWith(r.pre, r.i, cfg, beat, Choose(KindOf(r.pre.leaf), ViewOf(r.pre, r.i, cfg, beat)));
  }

  lemma ArmKeepsSetpoint(st: State, i: Input, cfg: Config)
    requires TakeoffLeaf(st.leaf) || st.leaf.AtAscending?
    ensures LeafTick(st, i, cfg).sp == st.sp
  {
    hide InitTick, OffboardTick, ArmTick, AscentTick;
  }

  lemma EntersWith(st: State, i: Input, cfg: Config, beat: Beat, choice: Choice)
    requires choice.Enter?
    ensures var post := Concluded(st, i, cfg, beat, choice).post;
            var n := EnterLeaf(choice.kind, i, cfg, beat.sp, st.requested, ExitLeaf(beat.leaf, beat.sh));
            post.leaf == n.leaf && post.sp == n.sp && post.enteredAt == i.now
  {
    hide HealthAfter, Heard, Diagnostics, Unconsumed, DebugTicked, DebugEffects, ExitLeaf, EnterLeaf;
  }

  lemma StaysWith(r: Rec, cfg: Config)
    requires Turned(r, cfg) && KindOf(r.out.post.leaf) == KindOf(r.pre.leaf)
    ensures var beat := LeafTick(r.pre, r.i, cfg);
            && r.out.choice == Stay && r.out.post.leaf == beat.leaf && r.out.post.sp == beat.sp
            && r.out.post.enteredAt == r.pre.enteredAt
            && r.out.effects == beat.effects + DebugEffects(r.pre.debug, r.i.now,
                                                            Diagnostics(r.pre, r.i, cfg, beat.signals, Stay) != [])
  {
    hide LeafTick, Heard, HealthAfter, Choose, ViewOf, LeafSound, Concluded, DeferredOk, Diagnostics, DebugEffects;
    ViewTells(r, cfg);
    var beat := LeafTick(r.pre, r.i, cfg);
    ChoiceFacts(KindOf(r.pre.leaf), ViewOf(r.pre, r.i, cfg, beat));
    StaysConcluded(r.pre, r.i, cfg, beat);
  }

  lemma StaysConcluded(st: State, i: Input, cfg: Config, beat: Beat)
    ensures var out := Concluded(st, i, cfg, beat, Stay);
            && out.post.leaf == beat.leaf && out.post.sp == beat.sp && out.post.enteredAt == st.enteredAt
            && out.effects == beat.effects + DebugEffects(st.debug, i.now,
                                                          Diagnostics(st, i, cfg, beat.signals, Stay) != [])
  {
    hide HealthAfter, Heard, Diagnostics, Unconsumed, DebugTicked, DebugEffects, Latched;
  }

  /**
   Before turn k of an ascent: when it began, and that the frame count is the streak of arrivals since, up to
   five.
   */
  lemma {:induction false} AscentHistory(recs: seq<Rec>, cfg: Config, k: nat) returns (a: nat)
    requires IsRun(recs, cfg) && k < |recs| && recs[k].pre.leaf.AtAscending?
    ensures AscendsSince(recs, a, k) && recs[k].pre.enteredAt == recs[a].i.now && recs[k].pre.sp == recs[a].pre.sp
    ensures recs[k].pre.leaf.ascent.frames == AtMost(ArrivedStreak(recs, cfg, recs[k].pre.sp.pos.z, a, k - 1), 5)
    ensures !recs[k].pre.leaf.ascent.reached && !recs[k].pre.leaf.ascent.timedOut
  {
    hide IsRun, Turned, Arrived, HealthRuns.NewPose, Enters, AtMost;
    RunLinks(recs, cfg, k);
    NotReached(recs[k], cfg);
    RunLinks(recs, cfg, k - 1);
    var r := recs[k - 1];
    if r.pre.leaf.AtAscending? {
      a := AscentHistory(recs, cfg, k - 1);
      AscentStep(r, cfg, ArrivedStreak(recs, cfg, r.pre.sp.pos.z, a, k - 2));
    } else {
      a := k - 1;
      EntersIs(r, TakeoffAscending);
      EntersAscent(r, cfg);
      NoneYet();
    }
  }

  lemma EntersIs(r: Rec, kind: Kind)
    requires KindOf(r.out.post.leaf) == kind && KindOf(r.pre.leaf) != kind
    ensures Enters(r, kind)
  {
  }

  lemma NoneYet()
    ensures AtMost(0, 5) == 0
  {
  }

  lemma NotReached(r: Rec, cfg: Config)
    requires Turned(r, cfg) && r.pre.leaf.AtAscending?
    ensures !r.pre.leaf.ascent.reached && !r.pre.leaf.ascent.timedOut
  {
  }

  /** One turn of an ascent that goes on. */
  lemma AscentStep(r: Rec, cfg: Config, streak: nat)
    requires Turned(r, cfg) && r.pre.leaf.AtAscending? && r.out.post.leaf.AtAscending?
    requires r.pre.leaf.ascent.frames == AtMost(streak, 5)
    ensures r.out.post.sp == r.pre.sp && r.out.post.enteredAt == r.pre.enteredAt
    ensures r.out.post.leaf.ascent.frames ==
            AtMost(if !HealthRuns.NewPose(r.i.s, cfg) then streak
                   else if Arrived(r, cfg, r.pre.sp.pos.z) then streak + 1 else 0, 5)
  {
    StaysWith(r, cfg);
    TurnKeepsSound(r.pre, r.i, cfg);
    hide Turn, AscentTick, Diagnostics, DebugEffects, HealthRuns.NewPose, Arrived, AtMost;
    AscentCounts(r, cfg, streak);
    AscentBeat(r.pre, r.i, cfg);
  }

  lemma AscentBeat(st: State, i: Input, cfg: Config)
    requires st.leaf.AtAscending?
    ensures var beat, t := LeafTick(st, i, cfg),
              AscentTick(st.leaf.ascent, i.s, cfg.backend, st.sp.pos.z, i.now, i.now - st.enteredAt);
            beat.leaf == AtAscending(t.leaf) && beat.signals == t.signals && beat.sp == st.sp
  {
    hide AscentTick;
  }

  lemma AscentCounts(r: Rec, cfg: Config, streak: nat)
    requires r.pre.leaf.AtAscending? && r.pre.leaf.ascent.frames == AtMost(streak, 5)
    requires !r.pre.leaf.ascent.reached && !r.pre.leaf.ascent.timedOut
    ensures var t := AscentTick(r.pre.leaf.ascent, r.i.s, cfg.backend, r.pre.sp.pos.z, r.i.now,
                                r.i.now - r.pre.enteredAt);
            var longer := if !HealthRuns.NewPose(r.i.s, cfg) then streak
                          else if Arrived(r, cfg, r.pre.sp.pos.z) then streak + 1 else 0;
            var late := r.i.now - r.pre.enteredAt > 30_000_000_000;
            && (!late ==> t.leaf.frames == AtMost(longer, 5))
            && (AltitudeReached in t.signals <==> !late && longer >= 5)
            && (TakeoffTimeout in t.signals <==> late)
  {
  }

  /**
   The ascent is complete exactly when, within 30 s of its begin, the last five new poses had arrived at the
   height of the setpoint; after 30 s it times out instead.
   */
  lemma AscentEnds(recs: seq<Rec>, cfg: Config, k: nat) returns (a: nat)
    requires IsRun(recs, cfg) && k < |recs| && recs[k].pre.leaf.AtAscending?
    ensures AscendsSince(recs, a, k)
    ensures var late := recs[k].i.now - recs[a].i.now > 30_000_000_000;
            && (Said(recs[k], AltitudeReached) <==>
                  !late && ArrivedStreak(recs, cfg, recs[k].pre.sp.pos.z, a, k) >= 5)
            && (Said(recs[k], TakeoffTimeout) <==> late)
  {
    hide IsRun, Turned, Arrived, HealthRuns.NewPose, AtMost, Said, LeafTick, AscentTick;
    RunLinks(recs, cfg, k);
    a := AscentHistory(recs, cfg, k);
    OwnSignals(recs[k], cfg, AltitudeReached);
    OwnSignals(recs[k], cfg, TakeoffTimeout);
    AscentBeat(recs[k].pre, recs[k].i, cfg);
    AscentCounts(recs[k], cfg, ArrivedStreak(recs, cfg, recs[k].pre.sp.pos.z, a, k - 1));
  }

  // ------------------------------------------------------------- the end of a reference

  /** How little of a reference is left for NMPC or DFBC to stop following it. */
  function Reach(cfg: Config): Option<int> {
    match cfg.backend
    case Nmpc => Some(cfg.horizonSpan + 1_000)
    case Dfbc =>
      if cfg.plannerStream then None
      else Some((if cfg.controlPeriod > 1_000_000 then cfg.controlPeriod else 1_000_000) + 1_000)
    case _ => None
  }

  /**
   A turn of the tracking leaf finds the reference finished exactly when the mode follows the cached reference
   and no more is left of it than the mode can use; answers of the solver and outputs of the law play no part.
   */
  lemma FinishIsSaid(r: Rec, cfg: Config)
    requires Turned(r, cfg) && r.pre.leaf.AtCustom1?
    ensures Said(r, ReferenceFinished) <==>
            Reach(cfg).Some? && TrackingOutputs.NearlyOver(r.pre.sh.cache, r.i.now, Reach(cfg).value)
  {
    OwnSignals(r, cfg, ReferenceFinished);
    var w, e := Custom1.Work(r.pre.leaf.tracking, r.pre.sh, r.pre.sp, [], []), Custom1.Env(cfg, r.i.s, r.i.now, r.i.o);
    hide Turn, Said, TrackingOutputs.NearlyOver, Custom1.Tick;
    match cfg.backend
    case Nmpc => NmpcAnswers.TurnAnswers(w, e);
    case Dfbc => if cfg.plannerStream { TrackingOutputs.DfbcStreamHandsOut(w, e); }
                 else { TrackingOutputs.DfbcReferenceHandsOut(w, e); }
    case Smc => TrackingOutputs.SmcHandsOut(w, e);
    case PvaSmc => TrackingOutputs.PvaSmcHandsOut(w, e);
    case Px4Local => Px4LocalIsSilent(w, e);
  }

  lemma Px4LocalIsSilent(w: Custom1.Work, e: Custom1.Env)
    requires e.cfg.backend == Px4Local
    ensures Custom1.Tick(w, e).sg == w.sg
  {
  }

  // --------------------------------------------------------------- what a turn leaves over

  /**
   A turn takes up to 64 commands from the front, and leaves for the next turn the completion it heard from its
   leaf unless the transition consumed it. It asks for another turn exactly when it made a transition or
   leaves something over.
   */
  lemma TurnLeavesOver(r: Rec, cfg: Config)
    requires Turned(r, cfg)
    ensures var c, post, kind := r.out.choice, r.out.post, KindOf(r.pre.leaf);
            && (forall x :: x in post.deferred <==> Said(r, x) && Owns(kind, x) && !(c.Enter? && c.signal == Some(x)))
            && |post.deferred| <= 1
            && post.pending == r.pre.pending[if |r.pre.pending| < 64 then |r.pre.pending| else 64..]
            && (r.out.again <==> c.Enter? || post.pending != [] || post.deferred != [])
            && (c.Enter? <==> KindOf(post.leaf) != kind)
  {
    hide LeafTick, Heard, Choose, LeafSound, Owns, World, ReferenceReady, Safety;
    var beat := LeafTick(r.pre, r.i, cfg);
    var choice := Choose(KindOf(r.pre.leaf), ViewOf(r.pre, r.i, cfg, beat));
    BeatShape(r.pre, r.i, cfg);
    HeardIsForeign(r.pre, r.i, cfg);
    ChoiceFacts(KindOf(r.pre.leaf), ViewOf(r.pre, r.i, cfg, beat));
    ConclusionShows(r.pre, r.i, cfg, beat, choice);
    ConclusionLeavesOver(r.pre, r.i, cfg, beat, choice);
  }

  lemma ConclusionLeavesOver(st: State, i: Input, cfg: Config, beat: Beat, choice: Choice)
    requires |beat.signals| <= 1 && (forall x :: x in beat.signals ==> x !in Heard(st, i, cfg))
    requires choice.Enter? && choice.signal.Some? ==> choice.signal.value in Heard(st, i, cfg) + beat.signals
    ensures var out, n := Concluded(st, i, cfg, beat, choice), if |st.pending| < 64 then |st.pending| else 64;
            && out.post.deferred == (if choice.Enter? && choice.signal.Some? && choice.signal.value in beat.signals
                                     then [] else beat.signals)
            && out.post.pending == st.pending[n..]
            && (out.again <==> choice.Enter? || out.post.pending != [] || out.post.deferred != [])
  {
    UnconsumedIs(Heard(st, i, cfg), beat.signals, choice);
    hide HealthAfter, Heard, Diagnostics, DebugTicked, DebugEffects, ExitLeaf, EnterLeaf, Latched, Unconsumed;
  }

  lemma UnconsumedIs(heard: seq<Signal>, own: seq<Signal>, choice: Choice)
    requires |own| <= 1 && (forall x :: x in own ==> x !in heard)
    requires choice.Enter? && choice.signal.Some? ==> choice.signal.value in heard + own
    ensures Unconsumed(heard, own, choice) ==
            if choice.Enter? && choice.signal.Some? && choice.signal.value in own then [] else own
  {
    if choice.Enter? && choice.signal.Some? {
      var k := FirstIndex(heard + own, choice.signal.value);
      assert k < |heard| ==> (heard + own)[k] == heard[k];
      assert own != [] ==> (heard + own)[|heard|] == own[0];
    }
  }

  // ---------------------------------------------------------- completions are posted once

  /** A leaf that has posted its completion never posts it again, however often it ticks. */
  lemma CompletionsArePostedOnce(
    d: Init, o: Offboard, a: Arm, c: Ascent, s: Sensors, b: Backend, target: real, now: int, elapsed: int)
    ensures var t := InitTick(d, s, now);
            (t.leaf.posted <==> d.posted || AltctlReady in t.signals) && (d.posted ==> t.signals == [])
    ensures var t := OffboardTick(o, s, now);
            (t.leaf.posted <==> o.posted || OffboardReady in t.signals) && (o.posted ==> t.signals == [])
    ensures var t := ArmTick(a, s, now);
            (t.leaf.posted <==> a.posted || ArmReady in t.signals) && (a.posted ==> t.signals == [])
    ensures var t := AscentTick(c, s, b, target, now, elapsed);
            && (t.leaf.reached <==> c.reached || AltitudeReached in t.signals)
            && (t.leaf.timedOut <==> c.timedOut || TakeoffTimeout in t.signals)
            && (c.timedOut || (c.reached && elapsed <= 30_000_000_000) ==> t.signals == [])
  {
    hide AtAltitude, PoseNew;
  }
}
