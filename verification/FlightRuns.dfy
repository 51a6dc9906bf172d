/** Runs of owner turns, what every state of a run satisfies, and the fate of leaf signals. */
module FlightRuns {
  import opened Options
  import opened Sensors
  import opened Trajectory
  import opened Lifter
  import opened FlightTypes
  import opened HealthMonitor
  import opened DebugMonitor
  import opened TakeoffStates
  import opened LandingLeaf
  import opened Flight
  import Custom1

  // ---------------------------------------------------------- shape of a tick

  /** Which leaf emits a completion signal; it is also the only one whose choice looks for it. */
  predicate Owns(kind: Kind, x: Signal) {
    match x
    case AltctlReady => kind == TakeoffInit
    case OffboardReady => kind == TakeoffOffboard
    case ArmReady => kind == TakeoffArm
    case AltitudeReached => kind == TakeoffAscending
    case TakeoffTimeout => kind == TakeoffAscending
    case ReferenceFinished => kind == Tracking
    case Touchdown => kind == Landed
    case _ => false
  }

  predicate NoArming(fx: seq<Effect>) {
    forall e :: e in fx ==> !e.ArmRequest?
  }

  /** No request for a mode, and none of the reports that the debug monitor makes. */
  predicate NoModes(fx: seq<Effect>) {
    forall e :: e in fx ==> !e.ModeRequest? && !IsReport(e)
  }

  predicate IsReport(e: Effect) {
    e.StatusOut? || e.SensorStatsOut? || e.TrackingErrorOut? || e.SensorDebugOut? || e.EventsOut?
  }

  /** A tick keeps its leaf, and emits at most one signal, its own. */
  predicate BeatOk(kind: Kind, beat: Beat) {
    && KindOf(beat.leaf) == kind
    && |beat.signals| <= 1
    && (forall x :: x in beat.signals ==> Owns(kind, x))
  }

  /**
   What a stage of a tracking tick may add: no request to the autopilot, and the finish signal only when it was
   not posted.
   */
  predicate TrackingStep(w: Custom1.Work, w': Custom1.Work) {
    && (NoArming(w.fx) ==> NoArming(w'.fx)) && (NoModes(w.fx) ==> NoModes(w'.fx))
    && (w.c.finished ==> w'.c.finished && w'.sg == w.sg)
    && (!w.c.finished ==> w'.sg == if w'.c.finished then w.sg + [ReferenceFinished] else w.sg)
  }

  lemma NmpcShape(w: Custom1.Work, e: Custom1.Env)
    ensures TrackingStep(w, Custom1.NmpcTick(w, e))
  {
    var w1 := Custom1.NmpcRestart(w);
    var w2 := Custom1.NmpcConsume(w1, e);
    var w3 := Custom1.NmpcTimeout(w2, e);
    assert TrackingStep(w, w1);
    ConsumeShape(w1, e);
    assert TrackingStep(w2, w3);
    PlanShape(w3, e);
  }

  lemma ConsumeShape(w: Custom1.Work, e: Custom1.Env)
    ensures TrackingStep(w, Custom1.NmpcConsume(w, e))
  {
    if Custom1.Taken(w).Some? {
      var x := Custom1.Taken(w).value;
      var w1 := w.(c := w.c.(protocol := w.c.protocol.(consumed := x.sequence, pending := false)));
      assert TrackingStep(w1, Custom1.NmpcSuccess(w1, e, x.target));
      assert TrackingStep(w1, Custom1.NmpcFailure(w1, e, x.status));
    }
  }

  lemma PlanShape(w: Custom1.Work, e: Custom1.Env)
    ensures TrackingStep(w, Custom1.NmpcPlan(w, e))
  {
    if w.sh.cache != Custom1.NoCache {
      var w1 := w.(c := w.c.(armed := true));
      if !Custom1.HorizonEnds(w1, e) {
        var w2 := Custom1.NmpcFallback(w1, e);
        assert TrackingStep(w1, w2);
        assert TrackingStep(w2, Custom1.NmpcDispatch(w2, e));
      }
    }
  }

  lemma DfbcStreamShape(w: Custom1.Work, e: Custom1.Env)
    ensures TrackingStep(w, Custom1.DfbcStreamTick(w, e))
  {
    hide Custom1.DfbcUpdate, Promoted, LiftForBackend, MayTakeSetpoint, Custom1.MeasuredHover;
    var w2 := Custom1.PromoteDue(Custom1.DfbcEnter(w, e), e);
    UpdateShape(w2.(c := w2.c.(armed := true)), e, true);
  }

  lemma DfbcCacheShape(w: Custom1.Work, e: Custom1.Env)
    ensures TrackingStep(w, Custom1.DfbcCacheTick(w, e))
  {
    hide Custom1.DfbcUpdate, Custom1.EndsWithin, Custom1.MeasuredHover;
    var w1 := Custom1.DfbcEnter(w, e);
    UpdateShape(w1.(c := w1.c.(armed := true)), e, false);
  }

  lemma UpdateShape(w: Custom1.Work, e: Custom1.Env, streaming: bool)
    ensures TrackingStep(w, Custom1.DfbcUpdate(w, e, streaming))
  {
  }

  lemma SmcShape(w: Custom1.Work, e: Custom1.Env)
    ensures TrackingStep(w, Custom1.SmcTick(w, e))
  {
    var w1 := Custom1.PromoteDue(Custom1.SmcEnter(w, e), e);
    assert TrackingStep(w, w1);
    assert TrackingStep(w1, Custom1.SmcWait(w1, e));
    assert TrackingStep(w1, Custom1.SmcTrack(w1, e));
  }

  lemma TrackingShape(w: Custom1.Work, e: Custom1.Env)
    ensures TrackingStep(w, Custom1.Tick(w, e))
  {
    match e.cfg.backend
    case Nmpc => NmpcShape(w, e);
    case Dfbc => DfbcStreamShape(w, e); DfbcCacheShape(w, e);
    case Smc => SmcShape(w, e);
    case PvaSmc =>
    case Px4Local =>
  }

  /** A leaf between turns: whatever it could post, it has not posted. */
  predicate LeafSound(leaf: Leaf) {
    match leaf
    case AtInit(d) => !d.posted && d.frames <= REQUIRED_ALTCTL_FRAMES
    case AtOffboard(d) => !d.posted && d.frames < REQUIRED_OFFBOARD_FRAMES
    case AtArm(d) => !d.posted && d.frames < REQUIRED_ARM_FRAMES
    case AtAscending(d) => !d.reached && !d.timedOut && d.frames < TakeoffStates.CONSECUTIVE_SETTLED_FRAMES
    case AtCustom1(c) => !c.finished
    case AtLanding(d) => !d.posted && d.frames <= LandingLeaf.CONSECUTIVE_SETTLED_FRAMES
    case _ => true
  }

  /** Ticking a sound leaf: the shape, and it is still sound unless it posted its completion. */
  lemma BeatShape(st: State, i: Input, cfg: Config)
    requires LeafSound(st.leaf)
    ensures var beat := LeafTick(st, i, cfg);
            && BeatOk(KindOf(st.leaf), beat)
            && (beat.signals == [] ==> LeafSound(beat.leaf))
            && (!st.leaf.AtInit? && !st.leaf.AtArm? && !st.leaf.AtLanding? ==> NoArming(beat.effects))
  {
    hide Custom1.Tick, AtAltitude, Settled, FeedbackActive, PoseNew, DescentVelocity;
    if st.leaf.AtCustom1? {
      TrackingShape(Custom1.Work(st.leaf.tracking, st.sh, st.sp, [], []), Custom1.Env(cfg, i.s, i.now, i.o));
    }
  }

  // ------------------------------------------------------- requests about arming

  lemma DebugRequestsNothing(d: Debug, now: int, diagnosed: bool)
    ensures forall e :: e in DebugEffects(d, now, diagnosed) ==> !e.ArmRequest?
  {
  }

  /** Only the entries of Ready and TakeoffInit ask for anything about arming: to disarm. */
  lemma EntryRequests(kind: Kind, i: Input, cfg: Config, sp: Setpoint, requested: bool, sh: Custom1.Shared)
    ensures forall e :: e in EnterLeaf(kind, i, cfg, sp, requested, sh).effects && e.ArmRequest? ==>
              (kind == Ready || kind == TakeoffInit) && e == ArmRequest(i.now, false) &&
              (kind == Ready ==> !Airborne(i.s, cfg.backend))
    ensures kind == SelfCheck ==> EnterLeaf(kind, i, cfg, sp, requested, sh).effects == []
  {
  }

  // ---------------------------------------------------------------- the choice

  /** A choice depends on the safety signals and on the leaf's own completions, and on no other. */
  lemma ChoiceIgnoresOthers(kind: Kind, v: View, signals: seq<Signal>)
    requires forall x :: Safety(x) || Owns(kind, x) ==> (x in v.signals <==> x in signals)
    ensures Choose(kind, v.(signals := signals)) == Choose(kind, v)
  {
    assert FirstSafety(signals) == FirstSafety(v.signals);
    hide FirstSafety, SensorsReady, Airborne;
  }

  /** A leaf never re-enters itself, a completion of its own always ends it, and it consumes nothing else. */
  lemma ChoiceFacts(kind: Kind, v: View)
    ensures var c := Choose(kind, v);
            && (c.Enter? ==> c.kind != kind)
            && (c.Enter? && c.signal.Some? ==> c.signal.value in v.signals &&
                                               (Safety(c.signal.value) || Owns(kind, c.signal.value)))
            && ((exists x :: x in v.signals && Owns(kind, x)) ==> c.Enter?)
  {
  }

  // ------------------------------------------------------------ deferred signals

  /** Deferred signals are completions of a leaf other than the active one. */
  predicate DeferredOk(st: State) {
    |st.deferred| <= 1 && forall x :: x in st.deferred ==> Completion(x) && !Owns(KindOf(st.leaf), x)
  }

  /** What every state of a run satisfies. */
  predicate Sound(st: State) {
    DeferredOk(st) && LeafSound(st.leaf) && |st.pending| <= CAPACITY
  }

  lemma {:induction false} ImuSignalsAreSafety(sp: Setpoint, cfg: Config, n: nat)
    ensures forall x :: x in Repeated(ImuSignals(sp, cfg), n) ==> Safety(x)
  {
    if n > 0 {
      ImuSignalsAreSafety(sp, cfg, n - 1);
    }
  }

  lemma HealthSignalsAreSafety(h: Health, s: Sensors, cfg: Config, now: int)
    ensures forall x :: x in HealthSignals(h, s, cfg, now) ==> Safety(x)
  {
  }

  /** Before the leaf ticks, a turn has heard no completion of the active leaf. */
  lemma HeardIsForeign(st: State, i: Input, cfg: Config)
    requires DeferredOk(st)
    ensures forall x :: x in Heard(st, i, cfg) ==> !Owns(KindOf(st.leaf), x)
    ensures forall x :: x in Heard(st, i, cfg) && Completion(x) ==> x in st.deferred
  {
    ImuSignalsAreSafety(st.sp, cfg, i.imu);
    HealthSignalsAreSafety(st.health, i.s, cfg, i.now);
  }

  /** What the turn defers: nothing if it stayed, else at most the completion it did not consume. */
  lemma UnconsumedFacts(kind: Kind, heard: seq<Signal>, own: seq<Signal>, choice: Choice)
    requires |own| <= 1 && forall x :: x in own ==> Owns(kind, x)
    requires forall x :: x in heard ==> !Owns(kind, x)
    requires choice == Stay ==> own == []
    requires choice.Enter? && choice.signal.Some? ==> choice.signal.value in heard + own
    ensures var d := Unconsumed(heard, own, choice);
            && |d| <= 1 && (forall x :: x in d ==> x in own)
            && (d != [] <==> own != [] && choice.Enter? && choice.signal != Some(own[0]))
  {
  }

  /** A turn takes a sound state to a sound state. */
  lemma TurnKeepsSound(st: State, i: Input, cfg: Config)
    requires Sound(st)
    ensures Sound(Turn(st, i, cfg).post)
    ensures Turn(st, i, cfg).post.deferred != [] ==> Turn(st, i, cfg).choice.Enter?
    ensures Turn(st, i, cfg).choice == Stay ==> LeafTick(st, i, cfg).signals == []
  {
    BeatShape(st, i, cfg);
    ConcludeKeepsSound(st, i, cfg, LeafTick(st, i, cfg));
  }

  lemma ConcludeKeepsSound(st: State, i: Input, cfg: Config, beat: Beat)
    requires Sound(st) && BeatOk(KindOf(st.leaf), beat) && (beat.signals == [] ==> LeafSound(beat.leaf))
    ensures Sound(TurnWith(st, i, cfg, beat).post)
    ensures TurnWith(st, i, cfg, beat).post.deferred != [] ==> TurnWith(st, i, cfg, beat).choice.Enter?
    ensures TurnWith(st, i, cfg, beat).choice == Stay ==> beat.signals == []
  {
    hide LeafSound, Choose, Heard, HealthAfter, Unconsumed, Concluded, ReferenceReady;
    var kind, v := KindOf(st.leaf), ViewOf(st, i, cfg, beat);
    var choice := Choose(kind, v);
    HeardIsForeign(st, i, cfg);
    ChoiceFacts(kind, v);
    if beat.signals != [] {
      assert beat.signals[0] in v.signals && Owns(kind, beat.signals[0]);
    }
    UnconsumedFacts(kind, Heard(st, i, cfg), beat.signals, choice);
    ConcludedLeaf(st, i, cfg, beat, choice);
  }

  /** Where a turn leaves the owner. */
  lemma ConcludedLeaf(st: State, i: Input, cfg: Config, beat: Beat, choice: Choice)
    ensures var post := Concluded(st, i, cfg, beat, choice).post;
            && post.deferred == Unconsumed(Heard(st, i, cfg), beat.signals, choice)
            && post.pending == st.pending[BatchSize(st.pending)..]
            && (choice == Stay ==> post.leaf == beat.leaf && post.enteredAt == st.enteredAt)
            && Concluded(st, i, cfg, beat, choice).choice == choice
            && (choice.Enter? ==> KindOf(post.leaf) == choice.kind && LeafSound(post.leaf) && post.enteredAt == i.now)
  {
    hide HealthAfter, Heard, Diagnostics, Unconsumed, DebugTicked, DebugEffects, ExitLeaf, Latched, Airborne;
    hide Custom1.EnteredShared, Custom1.EntryEffects, DescentVelocity, LandingLimit;
  }

  /** The rest of a turn reads the deferred signals only to see what stays unconsumed. */
  lemma ConclusionIgnoresDeferred(st: State, i: Input, cfg: Config, beat: Beat, choice: Choice)
    requires var st' := st.(deferred := []);
             Unconsumed(Heard(st, i, cfg), beat.signals, choice) == Unconsumed(Heard(st', i, cfg), beat.signals, choice)
    ensures var a, b := Concluded(st, i, cfg, beat, choice), Concluded(st.(deferred := []), i, cfg, beat, choice);
            a.post == b.post && a.effects == b.effects && a.choice == b.choice && a.again == b.again
  {
  }

  lemma HeardAgrees(st: State, i: Input, cfg: Config)
    requires DeferredOk(st)
    ensures forall x :: Safety(x) || Owns(KindOf(st.leaf), x) ==>
              (x in Heard(st, i, cfg) <==> x in Heard(st.(deferred := []), i, cfg))
  {
  }

  lemma ChoiceWithoutDeferred(st: State, i: Input, cfg: Config, beat: Beat)
    requires DeferredOk(st)
    ensures Choose(KindOf(st.leaf), ViewOf(st, i, cfg, beat)) ==
            Choose(KindOf(st.leaf), ViewOf(st.(deferred := []), i, cfg, beat))
  {
    var v, v' := ViewOf(st, i, cfg, beat), ViewOf(st.(deferred := []), i, cfg, beat);
    HeardAgrees(st, i, cfg);
    assert v' == v.(signals := v'.signals);
    ChoiceIgnoresOthers(KindOf(st.leaf), v, v'.signals);
  }

  /** What a turn leaves unconsumed is one of its own signals, and the same with or without deferred ones. */
  lemma LeftoverWithoutDeferred(st: State, i: Input, cfg: Config, beat: Beat, choice: Choice)
    requires DeferredOk(st) && BeatOk(KindOf(st.leaf), beat)
    requires choice == Choose(KindOf(st.leaf), ViewOf(st, i, cfg, beat))
    requires choice == Choose(KindOf(st.leaf), ViewOf(st.(deferred := []), i, cfg, beat))
    ensures var d := Unconsumed(Heard(st, i, cfg), beat.signals, choice);
            d == Unconsumed(Heard(st.(deferred := []), i, cfg), beat.signals, choice) &&
            forall x :: x in d ==> x in beat.signals
  {
    var st', kind := st.(deferred := []), KindOf(st.leaf);
    HeardIsForeign(st, i, cfg);
    HeardIsForeign(st', i, cfg);
    ChoiceFacts(kind, ViewOf(st, i, cfg, beat));
    ChoiceFacts(kind, ViewOf(st', i, cfg, beat));
    if beat.signals != [] {
      assert beat.signals[0] in ViewOf(st, i, cfg, beat).signals;
    }
    Leftover(kind, Heard(st, i, cfg), Heard(st', i, cfg), beat.signals, choice);
  }

  lemma Leftover(kind: Kind, heard: seq<Signal>, heard': seq<Signal>, own: seq<Signal>, choice: Choice)
    requires |own| <= 1 && forall x :: x in own ==> Owns(kind, x)
    requires (forall x :: x in heard ==> !Owns(kind, x)) && (forall x :: x in heard' ==> !Owns(kind, x))
    requires choice == Stay ==> own == []
    requires choice.Enter? && choice.signal.Some? ==>
               choice.signal.value in heard + own && choice.signal.value in heard' + own
    ensures var d := Unconsumed(heard, own, choice);
            d == Unconsumed(heard', own, choice) && forall x :: x in d ==> x in own
  {
  }

  lemma TickIgnoresDeferred(st: State, i: Input, cfg: Config)
    ensures LeafTick(st.(deferred := []), i, cfg) == LeafTick(st, i, cfg)
  {
  }

  /**
   A deferred signal never matters: the turn does exactly what it would have done without it, so no
   later leaf and no later entry of the same leaf consumes it, and it causes no transition. It also
   lives for that one turn only, since what a turn defers comes from its own leaf.
   */
  lemma DeferredNeverMatters(st: State, i: Input, cfg: Config)
    requires Sound(st)
    ensures var with_, without := Turn(st, i, cfg), Turn(st.(deferred := []), i, cfg);
            && with_.post == without.post && with_.effects == without.effects
            && with_.choice == without.choice && with_.again == without.again
    ensures forall x :: x in Turn(st, i, cfg).post.deferred ==> x in LeafTick(st, i, cfg).signals && x !in st.deferred
  {
    hide LeafTick, LeafSound, Choose, ViewOf, Heard, Concluded, Unconsumed;
    var beat := LeafTick(st, i, cfg);
    BeatShape(st, i, cfg);
    TickIgnoresDeferred(st, i, cfg);
    var choice := Choose(KindOf(st.leaf), ViewOf(st, i, cfg, beat));
    ChoiceWithoutDeferred(st, i, cfg, beat);
    LeftoverWithoutDeferred(st, i, cfg, beat, choice);
    ConclusionIgnoresDeferred(st, i, cfg, beat, choice);
    ConcludedLeaf(st, i, cfg, beat, choice);
  }

  // ------------------------------------------------------------------ runs

  /** One turn of a run: the state it began in, its input, and what it did. */
  datatype Rec = Rec(pre: State, i: Input, out: Outcome)

  /** Between turns only commands are posted and the data shared with other owners changes. */
  predicate Between(a: State, b: State) {
    b == a.(pending := b.pending, sh := b.sh) && a.pending <= b.pending && |b.pending| <= CAPACITY
  }

  ghost predicate Starts(st: State) {
    exists sh, now :: Between(Initial(sh, now), st)
  }

  ghost predicate IsRun(recs: seq<Rec>, cfg: Config) {
    && (forall k :: 0 <= k < |recs| ==> recs[k].out == Turn(recs[k].pre, recs[k].i, cfg))
    && (recs != [] ==> Starts(recs[0].pre))
    && (forall k :: 0 < k < |recs| ==> Between(recs[k - 1].out.post, recs[k].pre))
  }

  lemma {:induction false} RunIsSound(recs: seq<Rec>, cfg: Config, k: nat)
    requires IsRun(recs, cfg) && k < |recs|
    ensures Sound(recs[k].pre)
  {
    hide Turn;
    if k > 0 {
      hide LeafSound;
      RunIsSound(recs, cfg, k - 1);
      TurnKeepsSound(recs[k - 1].pre, recs[k - 1].i, cfg);
    }
  }
}
