/**
 When nothing new arrives: which turns of the owner do nothing at all, that no turn before the
 wake-up has anything to do but at controller time 0, and when a turn at the wake-up has.
 */
module FlightWake {
  import opened Options
  import opened Ticks
  import opened Sensors
  import opened Trajectory
  import opened FlightTypes
  import opened HealthMonitor
  import opened DebugMonitor
  import opened TakeoffStates
  import opened GroundStates
  import opened LandingLeaf
  import opened Flight
  import opened FlightRuns
  import Custom1
  import opened Custom1Wake
  import opened TrackingWake

  /** What the configuration and the shared data promise. */
  predicate Usable(st: State, i: Input, cfg: Config) {
    && i.now >= 0 && st.sh.publishPeriod > 0
    && cfg.controlPeriod > 0 && cfg.solveTimeout >= 0 && cfg.horizonSpan >= 0
    && ResultsReserved(st.sh.results)
    && SlotsAdmitted(st.sh.buffer, cfg, i.now)
    && (!TakesPlannerSetpoint(cfg) ==> !st.sh.buffer.pending.valid)
  }

  // ------------------------------------------------------------------- any leaf

  /** What a turn that stays leaves behind in its leaf: nothing it could still do with the same inputs. */
  predicate LeafSettled(leaf: Leaf, sh: Custom1.Shared, cfg: Config, s: Sensors, now: int) {
    match leaf
    case AtInit(d) => d.publish.started && !d.posted && d.frames < REQUIRED_ALTCTL_FRAMES
    case AtOffboard(d) => d.publish.started && !d.posted && d.frames < REQUIRED_OFFBOARD_FRAMES
    case AtArm(d) => d.publish.started && !d.posted && d.frames < REQUIRED_ARM_FRAMES
    case AtAscending(d) =>
      d.publish.started && !d.reached && !d.timedOut && d.frames < TakeoffStates.CONSECUTIVE_SETTLED_FRAMES
    case AtHover(t) => t.started
    case AtCustom1(c) => !c.finished && TrackingSettled(c, sh, cfg, s, now)
    case AtLanding(d) =>
      d.publish.started && !d.posted && (!FeedbackActive(s, cfg.backend) ==> d.frames == 0) &&
      !(TouchdownReady(d, d.frames, s, cfg.backend) && s.armed && !d.disarmed)
    case _ => true
  }

  lemma RanIsAhead(t: Timer, now: int, interval: int)
    requires interval > 0
    ensures t.Ran(now, interval).started && After(t.Ran(now, interval).DueAfter(interval), now)
  {
  }

  /** The tick of a sound leaf that completes nothing settles it, with its wake-up ahead. */
  lemma TickSettles(st: State, i: Input, cfg: Config)
    requires LeafSound(st.leaf) && Usable(st, i, cfg) && LeafTick(st, i, cfg).signals == []
    ensures var beat := LeafTick(st, i, cfg);
            && LeafSettled(beat.leaf, beat.sh, cfg, i.s, i.now)
            && After(LeafWake(st.(leaf := beat.leaf, sh := beat.sh), cfg, i.s, i.now), i.now)
  {
    hide Custom1.Tick, Custom1.Wake, TrackingSettled, Usable, PoseNew, AtAltitude, DescentVelocity;
    hide Settled, FeedbackActive, SlotsAdmitted, ResultsReserved;
    var now, beat := i.now, LeafTick(st, i, cfg);
    match st.leaf
    case AtSelfCheck(_) =>
    case AtReady =>
    case AtInit(d) => EarlierAfter(InitTick(d, i.s, now).leaf.publish.DueAfter(SETPOINT_INTERVAL),
                                   InitTick(d, i.s, now).leaf.altctl.DueAfter(REQUEST_INTERVAL), now);
    case AtOffboard(d) => EarlierAfter(OffboardTick(d, i.s, now).leaf.publish.DueAfter(SETPOINT_INTERVAL),
                                       OffboardTick(d, i.s, now).leaf.request.DueAfter(REQUEST_INTERVAL), now);
    case AtArm(d) => EarlierAfter(ArmTick(d, i.s, now).leaf.publish.DueAfter(SETPOINT_INTERVAL),
                                  ArmTick(d, i.s, now).leaf.request.DueAfter(REQUEST_INTERVAL), now);
    case AtAscending(d) => EarlierAfter(beat.leaf.ascent.publish.DueAfter(SETPOINT_INTERVAL),
                                        beat.leaf.ascent.log.DueAfter(STATUS_LOG_INTERVAL), now);
    case AtHover(t) => RanIsAhead(t, now, SETPOINT_INTERVAL);
    case AtCustom1(c) => assert Usable(st, i, cfg); TrackingTickSettles(st, i, cfg);
    case AtLanding(d) => EarlierAfter(beat.leaf.landing.publish.DueAfter(SETPOINT_INTERVAL),
                                      beat.leaf.landing.log.DueAfter(LandingLeaf.LOG_INTERVAL), now);
  }

  lemma TrackingTickSettles(st: State, i: Input, cfg: Config)
    requires st.leaf.AtCustom1? && LeafSound(st.leaf) && Usable(st, i, cfg) && LeafTick(st, i, cfg).signals == []
    ensures var beat := LeafTick(st, i, cfg);
            && LeafSettled(beat.leaf, beat.sh, cfg, i.s, i.now)
            && After(LeafWake(st.(leaf := beat.leaf, sh := beat.sh), cfg, i.s, i.now), i.now)
  {
    hide Custom1.Tick, Custom1.Wake, TrackingSettled, SlotsAdmitted, ResultsReserved;
    BeatShape(st, i, cfg);
    TrackingMovesOn(Custom1.Work(st.leaf.tracking, st.sh, st.sp, [], []), Custom1.Env(cfg, i.s, i.now, i.o));
  }

  /** A turn's input with nothing new in it, at some later time. */
  predicate NothingArrives(s: Sensors, i: Input, now: int) {
    i.s == Stale(s) && i.imu == 0 && now <= i.now
  }

  /** Nothing lingers that a tick before the wake-up could still do: no entry into DFBC, no unpaired promotion. */
  predicate Calm(leaf: Leaf, cfg: Config, s: Sensors, o: Custom1.Oracle) {
    leaf.AtCustom1? ==>
      && (cfg.backend == Dfbc ==> leaf.tracking.entered || !o.thrustKnown)
      && (cfg.backend == PvaSmc ==> s.paired.Some?)
  }

  /** The wake-up of this state is late: it tracks a cached reference, and its last publication reads as "never". */
  predicate Late(st: State, cfg: Config) {
    st.leaf.AtCustom1? && Unpublished(st.leaf.tracking, st.sh, cfg)
  }

  /** The leaf has nothing to do at t, when the answers of the oracles are `o`. */
  predicate LeafIdles(st: State, cfg: Config, s: Sensors, o: Custom1.Oracle, now: int, t: int) {
    match st.leaf
    case AtCustom1(c) =>
      TrackingIdles(c, st.sh, cfg, s, now, t) && (cfg.backend == Dfbc ==> c.entered || !o.thrustKnown)
    case _ => After(LeafWake(st, cfg, s, now), t)
  }

  function Unchanged(st: State): Beat {
    Beat(st.leaf, [], [], st.sp, st.sh)
  }

  /** The tick of a settled leaf does nothing exactly when the leaf idles, and does not run into its deadline. */
  lemma TickIdlesExactly(st: State, cfg: Config, s: Sensors, now: int, i: Input)
    requires LeafSettled(st.leaf, st.sh, cfg, s, now) && NothingArrives(s, i, now) && now >= 0
    requires cfg.controlPeriod > 0 && cfg.horizonSpan >= 0
    ensures LeafTick(st, i, cfg) == Unchanged(st) <==>
            && LeafIdles(st, cfg, s, i.o, now, i.now)
            && (st.leaf.AtAscending? || st.leaf.AtLanding? ==> After(EntryDeadline(st), i.now))
  {
    hide Custom1.Tick, Custom1.Wake, TrackingSettled, TrackingIdles, AtAltitude, DescentVelocity, Settled;
    var t := i.now;
    match st.leaf
    case AtSelfCheck(_) =>
    case AtReady =>
    case AtInit(d) => EarlierAfter(d.publish.DueAfter(SETPOINT_INTERVAL), d.altctl.DueAfter(REQUEST_INTERVAL), t);
    case AtOffboard(d) => EarlierAfter(d.publish.DueAfter(SETPOINT_INTERVAL), d.request.DueAfter(REQUEST_INTERVAL), t);
    case AtArm(d) => EarlierAfter(d.publish.DueAfter(SETPOINT_INTERVAL), d.request.DueAfter(REQUEST_INTERVAL), t);
    case AtAscending(d) => EarlierAfter(d.publish.DueAfter(SETPOINT_INTERVAL), d.log.DueAfter(STATUS_LOG_INTERVAL), t);
    case AtHover(_) =>
    case AtCustom1(c) =>
      TrackingIdlesExactly(Custom1.Work(c, st.sh, st.sp, [], []), Custom1.Env(cfg, i.s, t, i.o), s, now);
    case AtLanding(d) =>
      EarlierAfter(d.publish.DueAfter(SETPOINT_INTERVAL), d.log.DueAfter(LandingLeaf.LOG_INTERVAL), t);
  }

  /** Before its wake-up and its deadline, a settled leaf ticks without a sound, unless its wake-up is late. */
  lemma TickIsQuiet(st: State, cfg: Config, s: Sensors, now: int, i: Input)
    requires LeafSettled(st.leaf, st.sh, cfg, s, now) && NothingArrives(s, i, now) && now >= 0
    requires cfg.controlPeriod > 0 && cfg.horizonSpan >= 0 && !Late(st, cfg)
    requires After(LeafWake(st, cfg, s, now), i.now) && After(EntryDeadline(st), i.now)
    ensures var beat := LeafTick(st, i, cfg);
            && beat.effects == [] && beat.signals == [] && KindOf(beat.leaf) == KindOf(st.leaf)
            && (!st.leaf.AtCustom1? ==> beat.sh == st.sh)
            && (Calm(st.leaf, cfg, s, i.o) ==> beat == Unchanged(st))
  {
    TickIdlesExactly(st, cfg, s, now, i);
    hide Custom1.Tick, Custom1.Wake, TrackingSettled, TrackingIdles, Unpublished, InitTick, OffboardTick, ArmTick;
    hide AscentTick, LandingTick, LandingTickSetpoint, SelfCheckTick, EntryDeadline;
    if st.leaf.AtCustom1? {
      var c, e := st.leaf.tracking, Custom1.Env(cfg, i.s, i.now, i.o);
      TrackingIdlesExactly(Custom1.Work(c, st.sh, st.sp, [], []), e, s, now);
      if cfg.backend == PvaSmc && s.paired == None {
        hide LeafIdles, Promoted;
      } else {
        IdlesBeforeWake(c, st.sh, cfg, s, now, i.now);
      }
    }
  }

  lemma LateTickSpeaks(st: State, cfg: Config, i: Input)
    requires Late(st, cfg) && !st.leaf.tracking.finished
    ensures LeafTick(st, i, cfg).effects != []
  {
    hide Custom1.EndsWithin, Custom1.MeasuredHover;
  }

  // ------------------------------------------------------------- health and choice

  /** The health monitor has caught up with these inputs. */
  predicate HealthSettled(h: Health, s: Sensors, cfg: Config, now: int) {
    && ActivitySignals(h.activity, Stale(s), cfg) == [] && ActivityAfter(h.activity, Stale(s), cfg) == h.activity
    && h.estimate == Estimated(h.estimate, Unusable(s, cfg), now, cfg.tripDelay)
  }

  lemma HealthSettles(h: Health, s: Sensors, cfg: Config, now: int)
    requires now >= 0
    ensures HealthSettled(HealthAfter(h, s, cfg, now), s, cfg, now)
    ensures After(HealthWake(HealthAfter(h, s, cfg, now), cfg), now)
  {
    hide Compared, LimitsAfter, ControlStateUsable;
  }

  lemma HealthIsQuiet(h: Health, s: Sensors, cfg: Config, i: Input, now: int)
    requires HealthSettled(h, s, cfg, now) && NothingArrives(s, i, now) && now >= 0
    ensures HealthSignals(h, i.s, cfg, i.now) == [] <==> After(HealthWake(h, cfg), i.now)
    ensures After(HealthWake(h, cfg), i.now) ==> HealthAfter(h, i.s, cfg, i.now) == h
  {
  }

  /** A leaf that stayed still stays when nothing speaks to it and its deadline is ahead. */
  lemma ChoiceStays(kind: Kind, v: View, v': View)
    requires Choose(kind, v) == Stay && v'.commands == [] && v'.signals == []
    requires v'.s == Stale(v.s) && v'.backend == v.backend && v'.distance == v.distance
    requires kind == TakeoffInit || kind == TakeoffOffboard || kind == TakeoffArm ==> v'.elapsed <= REQUEST_TIMEOUT
    requires kind != Tracking ==> v'.referenceReady == v.referenceReady
    requires v'.requested ==> v.requested || ((kind == Hovering || kind == TakeoffAscending) && Track in v.commands)
    ensures Choose(kind, v') == Stay
  {
  }

  // --------------------------------------------------------------------- the turn

  /** What a turn that did not ask for another one leaves behind. */
  predicate AtRest(st: State, cfg: Config, s: Sensors, now: int, v: View) {
    && st.pending == [] && st.deferred == []
    && LeafSettled(st.leaf, st.sh, cfg, s, now)
    && HealthSettled(st.health, s, cfg, now)
    && st.debug.status.Some? && st.debug.print_.Some?
    && Choose(KindOf(st.leaf), v) == Stay
    && v.s == s && v.backend == cfg.backend && v.distance == st.health.comparison.distance
    && (!st.leaf.AtCustom1? ==> v.referenceReady == ReferenceReady(st.sh.buffer, s, cfg))
    && (st.requested ==> v.requested || ((st.leaf.AtHover? || st.leaf.AtAscending?) && Track in v.commands))
  }

  lemma Stayed(st: State, i: Input, cfg: Config, beat: Beat)
    ensures var out := Concluded(st, i, cfg, beat, Stay);
            !out.again ==>
              && out.post.pending == [] && out.post.deferred == []
              && out.post.leaf == beat.leaf && out.post.sh == beat.sh && out.post.enteredAt == st.enteredAt
              && out.post.health == HealthAfter(st.health, i.s, cfg, i.now)
              && out.post.debug == DebugTicked(st.debug, i.now)
              && out.post.requested == Latched(beat.leaf, st.requested, Batch(st))
  {
  }

  lemma EnteringGoesOn(st: State, i: Input, cfg: Config, beat: Beat, choice: Choice)
    requires choice.Enter?
    ensures Concluded(st, i, cfg, beat, choice).again
  {
  }

  lemma RestAfterTurn(st: State, i: Input, cfg: Config)
    requires Sound(st) && Usable(st, i, cfg) && !Turn(st, i, cfg).again
    ensures AtRest(Turn(st, i, cfg).post, cfg, i.s, i.now, ViewOf(st, i, cfg, LeafTick(st, i, cfg)))
    ensures LeafTick(st, i, cfg).signals == []
    ensures Choose(KindOf(st.leaf), ViewOf(st, i, cfg, LeafTick(st, i, cfg))) == Stay
    ensures After(LeafWake(Turn(st, i, cfg).post, cfg, i.s, i.now), i.now)
  {
    hide LeafTick, LeafSound, LeafSettled, Heard, HealthAfter, HealthSettled, ReferenceReady, Choose;
    hide LeafWake, DebugEffects, Diagnostics, Stale;
    var beat := LeafTick(st, i, cfg);
    var v := ViewOf(st, i, cfg, beat);
    var choice := Choose(KindOf(st.leaf), v);
    BeatShape(st, i, cfg);
    TurnKeepsSound(st, i, cfg);
    HealthSettles(st.health, i.s, cfg, i.now);
    if choice.Enter? {
      EnteringGoesOn(st, i, cfg, beat, choice);
    }
    Stayed(st, i, cfg, beat);
    hide Concluded;
    TickSettles(st, i, cfg);
    var post := Turn(st, i, cfg).post;
    WakeReadsLeaf(post, st.(leaf := beat.leaf, sh := beat.sh), cfg, i.s, i.now);
    TickKeepsShared(st, i, cfg);
  }

  lemma WakeReadsLeaf(a: State, b: State, cfg: Config, s: Sensors, now: int)
    requires a.leaf == b.leaf && a.sh == b.sh
    ensures LeafWake(a, cfg, s, now) == LeafWake(b, cfg, s, now)
  {
  }

  lemma TickKeepsShared(st: State, i: Input, cfg: Config)
    ensures !st.leaf.AtCustom1? ==> LeafTick(st, i, cfg).sh == st.sh
  {
  }

  lemma DebugSettles(d: Debug, now: int)
    ensures now < DebugWake(DebugTicked(d, now), now)
  {
  }

  lemma DeadlineAhead(st: State, i: Input, cfg: Config)
    requires Sound(st) && Usable(st, i, cfg) && !Turn(st, i, cfg).again
    ensures After(EntryDeadline(Turn(st, i, cfg).post), i.now)
  {
    hide Choose, Heard, HealthAfter, ReferenceReady, LeafSettled, HealthSettled, Usable;
    hide Custom1.Tick, TrackingSettled, Concluded, LeafWake, DistancePreemption;
    RestAfterTurn(st, i, cfg);
    var beat := LeafTick(st, i, cfg);
    Stayed(st, i, cfg, beat);
    var v := ViewOf(st, i, cfg, beat);
    assert Turn(st, i, cfg) == Concluded(st, i, cfg, beat, Stay);
    StayIsInTime(KindOf(st.leaf), v);
    var post := Turn(st, i, cfg).post;
    assert post.leaf == beat.leaf && post.enteredAt == st.enteredAt;
  }

  lemma StayIsInTime(kind: Kind, v: View)
    requires Choose(kind, v) == Stay
    ensures kind == TakeoffInit || kind == TakeoffOffboard || kind == TakeoffArm ==> v.elapsed <= REQUEST_TIMEOUT
  {
  }

  lemma NextWakeParts(st: State, cfg: Config, s: Sensors, now: int, t: int)
    ensures After(NextWake(st, cfg, s, now), t) <==>
            && After(HealthWake(st.health, cfg), t) && t < DebugWake(st.debug, now)
            && After(LeafWake(st, cfg, s, now), t) && After(EntryDeadline(st), t)
  {
  }

  /**
   A wake-up is never armed again for the same work: after any turn that does not ask for another
   one at once, whatever it was given, the next wake-up lies strictly ahead.
   */
  lemma WakeMovesOn(st: State, i: Input, cfg: Config)
    requires Sound(st) && Usable(st, i, cfg) && !Turn(st, i, cfg).again
    ensures After(NextWake(Turn(st, i, cfg).post, cfg, i.s, i.now), i.now)
  {
    RestAfterTurn(st, i, cfg);
    DeadlineAhead(st, i, cfg);
    HealthSettles(st.health, i.s, cfg, i.now);
    DebugSettles(st.debug, i.now);
    Stayed(st, i, cfg, LeafTick(st, i, cfg));
    hide HealthWake, DebugWake, LeafWake, EntryDeadline, AtRest, Concluded, Choose, ViewOf, LeafTick, HealthAfter;
    hide Sound, Usable, DebugTicked, NextWake, After;
    NextWakeParts(Turn(st, i, cfg).post, cfg, i.s, i.now, i.now);
  }

  lemma DebugIsQuiet(d: Debug, now: int, t: int)
    requires d.status.Some? && d.print_.Some?
    ensures DebugEffects(d, t, false) == [] <==> t < DebugWake(d, now)
    ensures t < DebugWake(d, now) ==> DebugTicked(d, t) == d
  {
  }

  lemma NothingHeard(st: State, i: Input, cfg: Config)
    requires st.deferred == [] && i.imu == 0 && HealthSignals(st.health, i.s, cfg, i.now) == []
    ensures Heard(st, i, cfg) == []
  {
  }

  lemma NothingToReport(st: State, i: Input, cfg: Config)
    requires st.pending == [] && i.imu == 0 && HealthSignals(st.health, i.s, cfg, i.now) == []
    ensures Diagnostics(st, i, cfg, [], Stay) == []
  {
  }

  lemma SilentConclusion(st: State, i: Input, cfg: Config, beat: Beat)
    requires Heard(st, i, cfg) == [] && Diagnostics(st, i, cfg, [], Stay) == []
    requires beat.effects == [] && beat.signals == [] && DebugEffects(st.debug, i.now, false) == []
    ensures var out := Concluded(st, i, cfg, beat, Stay);
            out.effects == [] && out.signals == [] && out.choice == Stay && out.post.leaf == beat.leaf
  {
  }

  lemma IdleConclusion(st: State, i: Input, cfg: Config)
    requires st.pending == [] && st.deferred == []
    requires HealthAfter(st.health, i.s, cfg, i.now) == st.health && DebugTicked(st.debug, i.now) == st.debug
    ensures var out := Concluded(st, i, cfg, Beat(st.leaf, [], [], st.sp, st.sh), Stay);
            out.post == st && !out.again
  {
  }

  /** A turn that finds the owner at rest stays there without a sound when its leaf does and nothing else is due. */
  lemma RestStays(st: State, cfg: Config, s: Sensors, now: int, v: View, i: Input)
    requires AtRest(st, cfg, s, now, v) && NothingArrives(s, i, now) && now >= 0
    requires After(HealthWake(st.health, cfg), i.now) && i.now < DebugWake(st.debug, now)
    requires After(EntryDeadline(st), i.now)
    requires var beat := LeafTick(st, i, cfg);
             beat.effects == [] && beat.signals == [] && KindOf(beat.leaf) == KindOf(st.leaf) &&
             (!st.leaf.AtCustom1? ==> beat.sh == st.sh)
    ensures var out := Turn(st, i, cfg);
            && out.effects == [] && out.signals == [] && out.choice == Stay
            && KindOf(out.post.leaf) == KindOf(st.leaf)
            && (LeafTick(st, i, cfg) == Unchanged(st) ==> out.post == st && !out.again)
  {
    hide LeafTick, LeafSettled, HealthSettled, Choose, NextWake, HealthWake, DebugWake, LeafWake;
    hide Heard, HealthAfter, HealthSignals, Diagnostics, DebugEffects, DebugTicked, Concluded, Stale, World;
    hide MayTakeSetpoint;
    HealthIsQuiet(st.health, s, cfg, i, now);
    DebugIsQuiet(st.debug, now, i.now);
    NothingHeard(st, i, cfg);
    NothingToReport(st, i, cfg);
    var beat := LeafTick(st, i, cfg);
    var v' := ViewOf(st, i, cfg, beat);
    SteadyReference(st.sh.buffer, s, i.s, cfg);
    ChoiceStays(KindOf(st.leaf), v, v');
    SilentConclusion(st, i, cfg, beat);
    IdleConclusion(st, i, cfg);
  }

  lemma SteadyReference(buf: Buffer, s: Sensors, s': Sensors, cfg: Config)
    requires s' == Stale(s)
    ensures ReferenceReady(buf, s', cfg) == ReferenceReady(buf, s, cfg)
  {
  }

  /** A turn that does nothing: it emits nothing, stays, asks for no other turn and changes no part of the state. */
  predicate Idle(st: State, i: Input, cfg: Config) {
    var out := Turn(st, i, cfg);
    out.effects == [] && out.signals == [] && out.choice == Stay && out.post == st && !out.again
  }

  /** No part of the owner has anything to do at t. */
  predicate NothingDue(st: State, cfg: Config, s: Sensors, o: Custom1.Oracle, now: int, t: int) {
    && After(HealthWake(st.health, cfg), t) && t < DebugWake(st.debug, now) && After(EntryDeadline(st), t)
    && LeafIdles(st, cfg, s, o, now, t)
  }

  lemma IdleTurnParts(st: State, i: Input, cfg: Config)
    requires Idle(st, i, cfg)
    ensures LeafTick(st, i, cfg) == Unchanged(st)
    ensures HealthSignals(st.health, i.s, cfg, i.now) == [] && DebugEffects(st.debug, i.now, false) == []
    ensures Choose(KindOf(st.leaf), ViewOf(st, i, cfg, LeafTick(st, i, cfg))) == Stay
  {
    hide LeafTick, Heard, Diagnostics, Choose, ViewOf, Concluded, HealthSignals, DebugEffects;
    var beat := LeafTick(st, i, cfg);
    ChoiceIsConcluded(st, i, cfg, beat, Choose(KindOf(st.leaf), ViewOf(st, i, cfg, beat)));
    SilentParts(st, i, cfg, beat);
    HealthIsHeard(st, i, cfg);
  }

  lemma ChoiceIsConcluded(st: State, i: Input, cfg: Config, beat: Beat, choice: Choice)
    ensures Concluded(st, i, cfg, beat, choice).choice == choice
  {
    hide HealthAfter, Heard, Diagnostics, DebugTicked, DebugEffects, Unconsumed, EnterLeaf, ExitLeaf;
  }

  lemma HealthIsHeard(st: State, i: Input, cfg: Config)
    requires Heard(st, i, cfg) == []
    ensures HealthSignals(st.health, i.s, cfg, i.now) == []
  {
    hide HealthSignals, ImuSignals;
    var health := HealthSignals(st.health, i.s, cfg, i.now);
    assert |Heard(st, i, cfg)| == |Repeated(ImuSignals(st.sp, cfg), i.imu)| + |st.deferred| + |health|;
  }

  lemma SilentParts(st: State, i: Input, cfg: Config, beat: Beat)
    requires var out := Concluded(st, i, cfg, beat, Stay); out.effects == [] && out.signals == [] && out.post == st
    ensures beat == Unchanged(st) && Heard(st, i, cfg) == [] && DebugEffects(st.debug, i.now, false) == []
  {
    StayingParts(st, i, cfg, beat);
    hide Concluded, Heard, DebugEffects, Diagnostics;
    var diagnosed := Diagnostics(st, i, cfg, beat.signals, Stay) != [];
    assert |beat.effects| + |DebugEffects(st.debug, i.now, diagnosed)| == 0;
    assert |Heard(st, i, cfg)| + |beat.signals| == 0;
    EventsComeOnTop(st.debug, i.now, diagnosed);
  }

  lemma StayingParts(st: State, i: Input, cfg: Config, beat: Beat)
    ensures var out := Concluded(st, i, cfg, beat, Stay);
            && out.effects == beat.effects +
                              DebugEffects(st.debug, i.now, Diagnostics(st, i, cfg, beat.signals, Stay) != [])
            && out.signals == Heard(st, i, cfg) + beat.signals
            && out.post.leaf == beat.leaf && out.post.sp == beat.sp && out.post.sh == beat.sh
  {
    hide HealthAfter, Heard, Diagnostics, DebugTicked, DebugEffects, Unconsumed, Latched;
  }

  lemma EventsComeOnTop(d: Debug, t: int, diagnosed: bool)
    ensures |DebugEffects(d, t, diagnosed)| >= |DebugEffects(d, t, false)|
  {
  }

  /**
   Exactly when a turn does nothing: after a turn that did not ask for another one, a turn at any later
   time that nothing new has reached is idle if and only if nothing is due in any part of the owner.
   */
  lemma IdleExactly(st: State, i: Input, i': Input, cfg: Config)
    requires Sound(st) && Usable(st, i, cfg) && !Turn(st, i, cfg).again && NothingArrives(i.s, i', i.now)
    ensures var post := Turn(st, i, cfg).post;
            Idle(post, i', cfg) <==> NothingDue(post, cfg, i.s, i'.o, i.now, i'.now)
  {
    hide Turn, Sound, NextWake, After, NothingArrives, SlotsAdmitted, ResultsReserved, Idle, NothingDue;
    RestAfterTurn(st, i, cfg);
    RestIdlesExactly(Turn(st, i, cfg).post, cfg, i.s, i.now, ViewOf(st, i, cfg, LeafTick(st, i, cfg)), i');
  }

  lemma RestIdlesExactly(st: State, cfg: Config, s: Sensors, now: int, v: View, i: Input)
    requires AtRest(st, cfg, s, now, v) && NothingArrives(s, i, now) && now >= 0
    requires cfg.controlPeriod > 0 && cfg.horizonSpan >= 0
    ensures Idle(st, i, cfg) <==> NothingDue(st, cfg, s, i.o, now, i.now)
  {
    hide LeafTick, LeafSettled, HealthSettled, Choose, NextWake, HealthWake, DebugWake, LeafWake, LeafIdles;
    hide HealthSignals, DebugEffects, Turn, Idle, HealthAfter, ReferenceReady;
    TickIdlesExactly(st, cfg, s, now, i);
    HealthIsQuiet(st.health, s, cfg, i, now);
    DebugIsQuiet(st.debug, now, i.now);
    if Idle(st, i, cfg) {
      IdleTurnParts(st, i, cfg);
      StayIsInTime(KindOf(st.leaf), ViewOf(st, i, cfg, LeafTick(st, i, cfg)));
    } else if NothingDue(st, cfg, s, i.o, now, i.now) {
      RestStays(st, cfg, s, now, v, i);
      NotIdle(st, i, cfg);
    }
  }

  lemma NotIdle(st: State, i: Input, cfg: Config)
    requires !Idle(st, i, cfg)
    ensures var out := Turn(st, i, cfg);
            !(out.effects == [] && out.signals == [] && out.choice == Stay && out.post == st && !out.again)
  {
    hide Turn;
  }

  /**
   Whether the wake-up is late: if a turn did not ask for another one, and nothing arrives, then a turn
   strictly before the wake-up makes no transition and emits no effect and no signal, if and only if the
   owner is not tracking a cached reference with its last publication at time 0. That takes a turn at
   time 0; every such early turn then emits.
   */
  lemma EarlyTurnIsSilent(st: State, i: Input, i': Input, cfg: Config)
    requires Sound(st) && Usable(st, i, cfg) && !Turn(st, i, cfg).again
    requires NothingArrives(i.s, i', i.now)
    requires After(NextWake(Turn(st, i, cfg).post, cfg, i.s, i.now), i'.now)
    ensures var post := Turn(st, i, cfg).post;
            var out := Turn(post, i', cfg);
            && (!Late(post, cfg) <==> out.effects == [] && out.signals == [] && out.choice == Stay)
            && (!Late(post, cfg) ==> KindOf(out.post.leaf) == KindOf(post.leaf))
            && (!Late(post, cfg) && Calm(post.leaf, cfg, i.s, i'.o) ==> Idle(post, i', cfg))
            && (Late(post, cfg) ==> i.now == 0)
  {
    hide Turn, Sound, NextWake, After, NothingArrives, SlotsAdmitted, ResultsReserved, LeafSettled, Late;
    hide HealthSettled, Choose, Calm, LeafTick, ReferenceReady, HealthWake, DebugWake, LeafWake, EntryDeadline;
    RestAfterTurn(st, i, cfg);
    var post := Turn(st, i, cfg).post;
    NextWakeParts(post, cfg, i.s, i.now, i'.now);
    if Late(post, cfg) {
      SettledLate(post, cfg, i.s, i.now);
      LateTickSpeaks(post, cfg, i');
      EffectsAreKept(post, i', cfg);
    } else {
      TickIsQuiet(post, cfg, i.s, i.now, i');
      RestStays(post, cfg, i.s, i.now, ViewOf(st, i, cfg, LeafTick(st, i, cfg)), i');
    }
  }

  lemma SettledLate(st: State, cfg: Config, s: Sensors, now: int)
    requires Late(st, cfg) && LeafSettled(st.leaf, st.sh, cfg, s, now) && now >= 0
    ensures now == 0 && !st.leaf.tracking.finished
  {
  }

  lemma EffectsAreKept(st: State, i: Input, cfg: Config)
    requires LeafTick(st, i, cfg).effects != []
    ensures Turn(st, i, cfg).effects != []
  {
    hide LeafTick, HealthAfter, Heard, DebugTicked, DebugEffects, Diagnostics, Unconsumed, EnterLeaf, Choose;
  }

  /**
   Exactly when a wake-up is for nothing: a turn at the wake-up, when nothing has arrived, is idle if and
   only if the owner tracks, nothing else is due at that time, and all that happens then is that a window
   closes on a leaf that need not hold or publish, or that an NMPC output goes stale that need not be
   logged or replaced. In every other case it emits, makes a transition or changes the state.
   */
  lemma WakeHasWork(st: State, i: Input, i': Input, cfg: Config)
    requires Sound(st) && Usable(st, i, cfg) && !Turn(st, i, cfg).again && NothingArrives(i.s, i', i.now)
    requires NextWake(Turn(st, i, cfg).post, cfg, i.s, i.now) == Some(i'.now)
    ensures var post, t := Turn(st, i, cfg).post, i'.now;
            Idle(post, i', cfg) <==>
              && post.leaf.AtCustom1?
              && After(HealthWake(post.health, cfg), t) && t < DebugWake(post.debug, i.now)
              && (cfg.backend == Dfbc ==> post.leaf.tracking.entered || !i'.o.thrustKnown)
              && (IdleWindowClose(post.leaf.tracking, post.sh, cfg, i.now, t) ||
                  IdleStaleOnset(post.leaf.tracking, post.sh, cfg, i.now, t))
  {
    hide Turn, Sound, After, NothingArrives, SlotsAdmitted, ResultsReserved, LeafSettled;
    hide HealthSettled, Choose, LeafTick, ReferenceReady, HealthWake, DebugWake, LeafWake, EntryDeadline, NextWake;
    hide Idle, IdleWindowClose, IdleStaleOnset, LeafIdles;
    RestAfterTurn(st, i, cfg);
    WakeMovesOn(st, i, cfg);
    IdleExactly(st, i, i', cfg);
    IdlesAtNextWake(Turn(st, i, cfg).post, cfg, i.s, i'.o, i.now, i'.now);
  }

  lemma IdlesAtNextWake(st: State, cfg: Config, s: Sensors, o: Custom1.Oracle, now: int, t: int)
    requires LeafSettled(st.leaf, st.sh, cfg, s, now) && NextWake(st, cfg, s, now) == Some(t) && After(Some(t), now)
    ensures NothingDue(st, cfg, s, o, now, t) <==>
            && st.leaf.AtCustom1?
            && After(HealthWake(st.health, cfg), t) && t < DebugWake(st.debug, now)
            && (cfg.backend == Dfbc ==> st.leaf.tracking.entered || !o.thrustKnown)
            && (IdleWindowClose(st.leaf.tracking, st.sh, cfg, now, t) ||
                IdleStaleOnset(st.leaf.tracking, st.sh, cfg, now, t))
  {
    hide HealthWake, DebugWake, IdleWindowClose, IdleStaleOnset, TrackingSettled, TrackingIdles, Custom1.Wake;
    NextWakeParts(st, cfg, s, now, t);
    NextWakeParts(st, cfg, s, now, t - 1);
    hide NextWake;
    if st.leaf.AtCustom1? {
      WakeIsPart(st, cfg, s, now, t);
    }
  }

  /** When the wake-up is none of the other parts', it is the leaf's. */
  lemma WakeIsPart(st: State, cfg: Config, s: Sensors, now: int, t: int)
    requires st.leaf.AtCustom1? && LeafSettled(st.leaf, st.sh, cfg, s, now)
    requires NextWake(st, cfg, s, now) == Some(t) && now < t
    ensures After(HealthWake(st.health, cfg), t) && t < DebugWake(st.debug, now) ==>
              (TrackingIdles(st.leaf.tracking, st.sh, cfg, s, now, t) <==>
                 IdleWindowClose(st.leaf.tracking, st.sh, cfg, now, t) ||
                 IdleStaleOnset(st.leaf.tracking, st.sh, cfg, now, t))
  {
    hide HealthWake, DebugWake, IdleWindowClose, IdleStaleOnset, TrackingSettled, TrackingIdles, Custom1.Wake;
    if After(HealthWake(st.health, cfg), t) && t < DebugWake(st.debug, now) {
      assert Custom1.Wake(st.leaf.tracking, st.sh, cfg, s, now) == Some(t);
      IdlesAtWake(st.leaf.tracking, st.sh, cfg, s, now, t);
    }
  }

  /** These inputs bring nothing new and come before the wake-up, with nothing lingering in the leaf. */
  predicate AllEarly(inputs: seq<Input>, post: State, cfg: Config, s: Sensors, now: int) {
    forall k :: 0 <= k < |inputs| ==>
      && NothingArrives(s, inputs[k], now) && After(NextWake(post, cfg, s, now), inputs[k].now)
      && Calm(post.leaf, cfg, s, inputs[k].o)
  }

  function AfterTurns(st: State, inputs: seq<Input>, cfg: Config): State {
    if inputs == [] then st else Turn(AfterTurns(st, inputs[..|inputs| - 1], cfg), inputs[|inputs| - 1], cfg).post
  }

  /** So the host may turn the owner any number of times before the wake-up and find it as it was. */
  lemma {:induction false} EarlyTurnsAreIdle(st: State, i: Input, inputs: seq<Input>, cfg: Config)
    requires Sound(st) && Usable(st, i, cfg) && !Turn(st, i, cfg).again
    requires AllEarly(inputs, Turn(st, i, cfg).post, cfg, i.s, i.now) && !Late(Turn(st, i, cfg).post, cfg)
    ensures AfterTurns(Turn(st, i, cfg).post, inputs, cfg) == Turn(st, i, cfg).post
  {
    hide Turn, Sound, Usable, NextWake, After, NothingArrives, Calm, Late;
    if inputs != [] {
      EarlyTurnsAreIdle(st, i, inputs[..|inputs| - 1], cfg);
      EarlyTurnIsSilent(st, i, inputs[|inputs| - 1], cfg);
    }
  }
}
