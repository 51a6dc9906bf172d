/** What the owner hands out outside of tracking: setpoints, requests and reports, and when. */
module FlightOutputs {
  import opened Options
  import opened Ticks
  import opened Sensors
  import opened FlightTypes
  import opened HealthMonitor
  import opened DebugMonitor
  import opened TakeoffStates
  import opened LandingLeaf
  import opened Flight
  import opened FlightRuns
  import opened FlightArming
  import opened FlightRoutes
  import opened FlightHistory
  import Custom1
  import HealthRuns

  // ---------------------------------------------------------------- entries

  /** What entering a leaf emits. */
  function EntryFor(kind: Kind, r: Rec, cfg: Config): seq<Effect> {
    var now := r.i.now;
    match kind
    case SelfCheck => []
    case Ready => if Aloft(r, cfg) then [] else [ArmRequest(now, false)]
    case TakeoffInit => if cfg.skipAltctlGate then [SetpointOut(now)] else [SetpointOut(now), ArmRequest(now, false)]
    case Tracking =>
      if cfg.backend == Nmpc || (cfg.backend == Dfbc && !cfg.plannerStream) then [ReferenceActivation(now)] else []
    case _ => [SetpointOut(now)]
  }

  /** The setpoint that entering a leaf leaves: hold and climb, hover here, or descend. */
  predicate SetsPoint(kind: Kind, r: Rec, cfg: Config) {
    var here, sp := HealthRuns.MotionOf(r.i.s, cfg).pos, r.out.post.sp;
    match kind
    case TakeoffInit =>
      && sp.pos.x == here.x && sp.pos.y == here.y
      && sp.pos.z == (if here.z < cfg.takeoffAltitude then cfg.takeoffAltitude else here.z)
      && sp.vel == ZERO3 && sp.acc == ZERO3 && sp.mask == 0xFF8
    case Hovering =>
      sp.pos == here && sp.vel == ZERO3 && sp.acc == ZERO3 && sp.mask == if cfg.yawControl then 0x9C0 else 0xDC0
    case Landed => Descends(sp, here.z)
    case _ => true
  }

  /** Straight down, faster near the ground. */
  predicate Descends(sp: Setpoint, height: real) {
    sp == Setpoint(ZERO3, Vec3(0.0, 0.0, if height > 0.3 then -0.2 else -0.9), ZERO3, 0xDC7)
  }

  /** The turn's own reports come last. */
  function Reports(r: Rec, cfg: Config): seq<Effect> {
    var own := LeafTick(r.pre, r.i, cfg).signals;
    DebugEffects(r.pre.debug, r.i.now, Diagnostics(r.pre, r.i, cfg, own, r.out.choice) != [])
  }

  lemma EntryEmits(r: Rec, cfg: Config)
    requires Turned(r, cfg) && KindOf(r.out.post.leaf) != KindOf(r.pre.leaf)
    ensures var kind := KindOf(r.out.post.leaf);
            && r.out.effects == LeafTick(r.pre, r.i, cfg).effects + EntryFor(kind, r, cfg) + Reports(r, cfg)
            && SetsPoint(kind, r, cfg)
            && (kind != TakeoffInit && kind != Hovering && kind != Landed ==>
                  r.out.post.sp == LeafTick(r.pre, r.i, cfg).sp)
  {
    hide LeafTick, Heard, HealthAfter, Choose, ViewOf, LeafSound, Concluded, DeferredOk, Diagnostics, DebugEffects;
    hide EntryFor, SetsPoint;
    ViewTells(r, cfg);
    var beat := LeafTick(r.pre, r.i, cfg);
    var choice := Choose(KindOf(r.pre.leaf), ViewOf(r.pre, r.i, cfg, beat));
    EntersEmitting(r.pre, r.i, cfg, beat, choice);
    EntryMeans(r, cfg, choice.kind, beat.sp, ExitLeaf(beat.leaf, beat.sh));
  }

  lemma EntersEmitting(st: State, i: Input, cfg: Config, beat: Beat, choice: Choice)
    requires choice.Enter?
    ensures var out := Concluded(st, i, cfg, beat, choice);
            var n := EnterLeaf(choice.kind, i, cfg, beat.sp, st.requested, ExitLeaf(beat.leaf, beat.sh));
            && out.post.sp == n.sp && out.choice == choice && KindOf(out.post.leaf) == choice.kind
            && out.effects == beat.effects + n.effects +
                              DebugEffects(st.debug, i.now, Diagnostics(st, i, cfg, beat.signals, choice) != [])
  {
    hide HealthAfter, Heard, Diagnostics, Unconsumed, DebugTicked, DebugEffects, ExitLeaf;
    EntersKind(choice.kind, i, cfg, beat.sp, st.requested, ExitLeaf(beat.leaf, beat.sh));
    hide EnterLeaf;
  }

  lemma EntersKind(kind: Kind, i: Input, cfg: Config, sp: Setpoint, requested: bool, sh: Custom1.Shared)
    ensures KindOf(EnterLeaf(kind, i, cfg, sp, requested, sh).leaf) == kind
  {
  }

  lemma EntryMeans(r: Rec, cfg: Config, kind: Kind, sp: Setpoint, sh: Custom1.Shared)
    ensures var n := EnterLeaf(kind, r.i, cfg, sp, r.pre.requested, sh);
            && n.effects == EntryFor(kind, r, cfg)
            && (r.out.post.sp == n.sp ==> SetsPoint(kind, r, cfg))
            && (kind != TakeoffInit && kind != Hovering && kind != Landed ==> n.sp == sp)
  {
    SensesAgree(r, cfg);
    assert World(r.i.s, cfg.backend) == HealthRuns.MotionOf(r.i.s, cfg);
    hide Airborne, Aloft, World, HealthRuns.MotionOf, LandingLimit, Custom1.Entered, Custom1.EnteredShared;
  }

  // ------------------------------------------------------------- setpoints on time

  /** The timer that spaces the setpoints of a leaf outside of tracking. */
  function PublishTimer(leaf: Leaf): Option<Timer> {
    match leaf
    case AtInit(d) => Some(d.publish)
    case AtOffboard(d) => Some(d.publish)
    case AtArm(d) => Some(d.publish)
    case AtAscending(d) => Some(d.publish)
    case AtHover(t) => Some(t)
    case AtLanding(d) => Some(d.publish)
    case _ => None
  }

  /** The turn hands out a setpoint. */
  predicate Publishes(r: Rec) {
    SetpointOut(r.i.now) in r.out.effects
  }

  lemma ReportsHoldNoSetpoint(d: Debug, now: int, diagnosed: bool)
    ensures forall e :: e in DebugEffects(d, now, diagnosed) ==>
              !e.SetpointOut? && !e.AttitudeOut? && !e.ModeRequest? && !e.ArmRequest?
  {
  }

  lemma TickPublishes(st: State, i: Input, cfg: Config)
    requires PublishTimer(st.leaf).Some?
    ensures var t, beat := PublishTimer(st.leaf).value, LeafTick(st, i, cfg);
            && (SetpointOut(i.now) in beat.effects <==> t.Runs(i.now, SETPOINT_INTERVAL))
            && PublishTimer(beat.leaf) == Some(t.Ran(i.now, SETPOINT_INTERVAL))
  {
    hide Counted, AtAltitude, ConfirmedFrames, TouchdownReady, LandingTickSetpoint, DescentVelocity, PoseNew;
  }

  lemma PublishStep(r: Rec, cfg: Config)
    requires Turned(r, cfg) && PublishTimer(r.out.post.leaf).Some?
    ensures KindOf(r.out.post.leaf) != KindOf(r.pre.leaf) ==>
              Publishes(r) && PublishTimer(r.out.post.leaf) == Some(Timer(r.i.now, true))
    ensures KindOf(r.out.post.leaf) == KindOf(r.pre.leaf) ==>
              && PublishTimer(r.pre.leaf).Some?
              && (Publishes(r) <==> PublishTimer(r.pre.leaf).value.Runs(r.i.now, SETPOINT_INTERVAL))
              && PublishTimer(r.out.post.leaf) == Some(PublishTimer(r.pre.leaf).value.Ran(r.i.now, SETPOINT_INTERVAL))
  {
    hide Turned, LeafTick, Diagnostics, DebugEffects;
    var own := LeafTick(r.pre, r.i, cfg).signals;
    if KindOf(r.out.post.leaf) == KindOf(r.pre.leaf) {
      StaysWith(r, cfg);
      SameTimed(r.pre.leaf, r.out.post.leaf);
      TickPublishes(r.pre, r.i, cfg);
      ReportsHoldNoSetpoint(r.pre.debug, r.i.now, Diagnostics(r.pre, r.i, cfg, own, Stay) != []);
    } else {
      EntryEmits(r, cfg);
      EntryStartsTimer(r, cfg);
      assert SetpointOut(r.i.now) in EntryFor(KindOf(r.out.post.leaf), r, cfg);
    }
  }

  lemma SameTimed(a: Leaf, b: Leaf)
    requires KindOf(a) == KindOf(b)
    ensures PublishTimer(a).Some? <==> PublishTimer(b).Some?
  {
  }

  lemma EntryStartsTimer(r: Rec, cfg: Config)
    requires Turned(r, cfg) && KindOf(r.out.post.leaf) != KindOf(r.pre.leaf)
    ensures PublishTimer(r.out.post.leaf).Some? ==> PublishTimer(r.out.post.leaf) == Some(Timer(r.i.now, true))
  {
    hide LeafTick, Heard, HealthAfter, Choose, ViewOf, LeafSound, Concluded, DeferredOk;
    ViewTells(r, cfg);
    var beat := LeafTick(r.pre, r.i, cfg);
    var choice := Choose(KindOf(r.pre.leaf), ViewOf(r.pre, r.i, cfg, beat));
    EntersWith(r.pre, r.i, cfg, beat, choice);
    EnteredTimer(choice.kind, r.i, cfg, beat.sp, r.pre.requested, ExitLeaf(beat.leaf, beat.sh));
  }

  lemma EnteredTimer(kind: Kind, i: Input, cfg: Config, sp: Setpoint, requested: bool, sh: Custom1.Shared)
    ensures var leaf := EnterLeaf(kind, i, cfg, sp, requested, sh).leaf;
            PublishTimer(leaf).Some? ==> PublishTimer(leaf) == Some(Timer(i.now, true))
  {
    hide Custom1.Entered, Custom1.EnteredShared, World, LandingLimit, DescentVelocity;
  }

  /** Turn j is the last before turn k that handed out a setpoint. */
  predicate LastSetpoint(recs: seq<Rec>, j: nat, k: nat)
    requires k <= |recs|
  {
    j < k && Publishes(recs[j]) && forall i :: j < i < k ==> !Publishes(recs[i])
  }

  lemma {:induction false} TimerIsLastSetpoint(recs: seq<Rec>, cfg: Config, k: nat) returns (j: nat)
    requires IsRun(recs, cfg) && k < |recs| && PublishTimer(recs[k].pre.leaf).Some?
    ensures LastSetpoint(recs, j, k) && PublishTimer(recs[k].pre.leaf) == Some(Timer(recs[j].i.now, true))
  {
    hide IsRun, Turned, Publishes;
    RunLinks(recs, cfg, k);
    RunLinks(recs, cfg, k - 1);
    PublishStep(recs[k - 1], cfg);
    if Publishes(recs[k - 1]) {
      j := k - 1;
    } else {
      j := TimerIsLastSetpoint(recs, cfg, k - 1);
    }
  }

  /** Outside of tracking a leaf that stays hands out its setpoint exactly a thirtieth of a second after the last. */
  lemma SetpointsAreSpaced(recs: seq<Rec>, cfg: Config, k: nat) returns (j: nat)
    requires IsRun(recs, cfg) && k < |recs| && PublishTimer(recs[k].pre.leaf).Some?
    requires KindOf(recs[k].out.post.leaf) == KindOf(recs[k].pre.leaf)
    ensures LastSetpoint(recs, j, k)
    ensures Publishes(recs[k]) <==> recs[k].i.now - recs[j].i.now >= 33_333_334
  {
    hide IsRun, Turned, Publishes, LastSetpoint;
    RunLinks(recs, cfg, k);
    j := TimerIsLastSetpoint(recs, cfg, k);
    SameTimed(recs[k].pre.leaf, recs[k].out.post.leaf);
    PublishStep(recs[k], cfg);
  }

  // ------------------------------------------------------------- requests on time

  /** What a leaf asks the autopilot for, again and again. */
  function RequestFor(leaf: Leaf, now: int): Option<Effect> {
    match leaf
    case AtInit(d) => if d.skip then None else Some(ModeRequest(now, ALTCTL))
    case AtOffboard(_) => Some(ModeRequest(now, OFFBOARD))
    case AtArm(_) => Some(ArmRequest(now, true))
    case _ => None
  }

  function RequestTimer(leaf: Leaf): Timer {
    match leaf
    case AtInit(d) => d.altctl
    case AtOffboard(d) => d.request
    case AtArm(d) => d.request
    case _ => STOPPED
  }

  /** The turn asks for what its leaf wants. */
  predicate Asks(r: Rec) {
    var request := RequestFor(r.pre.leaf, r.i.now);
    request.Some? && request.value in r.out.effects
  }

  lemma TickAsks(st: State, i: Input, cfg: Config)
    requires RequestFor(st.leaf, i.now).Some?
    ensures var t, beat := RequestTimer(st.leaf), LeafTick(st, i, cfg);
            && (RequestFor(st.leaf, i.now).value in beat.effects <==> t.Elapsed(i.now) >= 3_000_000_000)
            && RequestTimer(beat.leaf) == (if t.Elapsed(i.now) >= 3_000_000_000 then t.Reset(i.now) else t)
            && RequestFor(beat.leaf, i.now).Some?
  {
    hide Counted;
  }

  /** No turn asks for a mode but the one its leaf wants, and no entry asks for one or for arming. */
  lemma OnlyLeavesAsk(r: Rec, cfg: Config)
    requires Turned(r, cfg)
    ensures forall e :: e in r.out.effects && (e.ModeRequest? || (e.ArmRequest? && e.arm)) ==>
              RequestFor(r.pre.leaf, r.i.now) == Some(e)
    ensures Asks(r) <==> RequestFor(r.pre.leaf, r.i.now).Some? &&
                         RequestFor(r.pre.leaf, r.i.now).value in LeafTick(r.pre, r.i, cfg).effects
  {
    hide Turned, LeafTick, Diagnostics, DebugEffects, EntryFor, Aloft;
    var own := LeafTick(r.pre, r.i, cfg).signals;
    ReportsHoldNoSetpoint(r.pre.debug, r.i.now, Diagnostics(r.pre, r.i, cfg, own, r.out.choice) != []);
    TickAsksOnly(r, cfg);
    if KindOf(r.out.post.leaf) == KindOf(r.pre.leaf) {
      StaysWith(r, cfg);
    } else {
      EntryEmits(r, cfg);
      EntryAsksNothing(KindOf(r.out.post.leaf), r, cfg);
    }
  }

  lemma EntryAsksNothing(kind: Kind, r: Rec, cfg: Config)
    ensures forall e :: e in EntryFor(kind, r, cfg) ==> !e.ModeRequest? && !(e.ArmRequest? && e.arm)
  {
    hide Aloft;
  }

  /** What the ticks of the request leaves, of the ascent and of landing may ask for. */
  predicate AsksOnly(fx: seq<Effect>, request: Option<Effect>) {
    forall e :: e in fx && (e.ModeRequest? || (e.ArmRequest? && e.arm)) ==> request == Some(e)
  }

  lemma InitAsks(d: Init, s: Sensors, now: int)
    ensures AsksOnly(InitTick(d, s, now).effects, RequestFor(AtInit(d), now))
  {
    hide Counted;
  }

  lemma OffboardAsks(d: Offboard, s: Sensors, now: int)
    ensures AsksOnly(OffboardTick(d, s, now).effects, Some(ModeRequest(now, OFFBOARD)))
  {
    hide Counted;
  }

  lemma ArmAsks(d: Arm, s: Sensors, now: int)
    ensures AsksOnly(ArmTick(d, s, now).effects, Some(ArmRequest(now, true)))
  {
    hide Counted;
  }

  lemma AscentAndLandingAskNothing(d: Ascent, l: Landing, s: Sensors, b: Backend, target: real, now: int, elapsed: int)
    ensures AsksOnly(AscentTick(d, s, b, target, now, elapsed).effects, None)
    ensures AsksOnly(LandingTick(l, s, b, now, elapsed).effects, None)
  {
    hide Counted, AtAltitude, ConfirmedFrames, TouchdownReady, DescentVelocity, PoseNew;
  }

  lemma TickAsksOnly(r: Rec, cfg: Config)
    requires Turned(r, cfg)
    ensures AsksOnly(LeafTick(r.pre, r.i, cfg).effects, RequestFor(r.pre.leaf, r.i.now))
  {
    hide InitTick, OffboardTick, ArmTick, AscentTick, LandingTick, LandingTickSetpoint, Custom1.Tick, Turned;
    var s, b, now, elapsed := r.i.s, cfg.backend, r.i.now, r.i.now - r.pre.enteredAt;
    match r.pre.leaf
    case AtInit(d) => InitAsks(d, s, now);
    case AtOffboard(d) => OffboardAsks(d, s, now);
    case AtArm(d) => ArmAsks(d, s, now);
    case AtAscending(d) =>
      AscentAndLandingAskNothing(d, Landing(0.0, 0, 0, false, false, false, STOPPED, STOPPED), s, b, r.pre.sp.pos.z,
                                 now, elapsed);
    case AtLanding(d) => AscentAndLandingAskNothing(AscentEntered(0), d, s, b, 0.0, now, elapsed);
    case AtCustom1(c) =>
      TrackingShape(Custom1.Work(c, r.pre.sh, r.pre.sp, [], []), Custom1.Env(cfg, s, now, r.i.o));
    case _ =>
  }

  /** The turn enters a leaf that asks, or asks. */
  predicate AsksOrEnters(r: Rec) {
    Asks(r) || KindOf(r.out.post.leaf) != KindOf(r.pre.leaf)
  }

  lemma RequestStep(r: Rec, cfg: Config)
    requires Turned(r, cfg) && RequestFor(r.out.post.leaf, 0).Some?
    ensures KindOf(r.out.post.leaf) != KindOf(r.pre.leaf) ==> RequestTimer(r.out.post.leaf) == Timer(r.i.now, true)
    ensures KindOf(r.out.post.leaf) == KindOf(r.pre.leaf) ==>
              && RequestFor(r.pre.leaf, 0).Some?
              && (Asks(r) <==> RequestTimer(r.pre.leaf).Elapsed(r.i.now) >= 3_000_000_000)
              && RequestTimer(r.out.post.leaf) ==
                 if Asks(r) then RequestTimer(r.pre.leaf).Reset(r.i.now) else RequestTimer(r.pre.leaf)
  {
    hide Turned, LeafTick, Diagnostics, DebugEffects, Asks;
    OnlyLeavesAsk(r, cfg);
    if KindOf(r.out.post.leaf) == KindOf(r.pre.leaf) {
      StaysWith(r, cfg);
      KeepsAsking(r.pre, r.i, cfg);
      TickAsks(r.pre, r.i, cfg);
    } else {
      EntryStartsRequests(r, cfg);
    }
  }

  lemma KeepsAsking(st: State, i: Input, cfg: Config)
    requires KindOf(LeafTick(st, i, cfg).leaf) == KindOf(st.leaf) && RequestFor(LeafTick(st, i, cfg).leaf, 0).Some?
    ensures RequestFor(st.leaf, 0).Some? && RequestFor(st.leaf, i.now).Some?
  {
    hide Counted, Custom1.Tick, AscentTick, LandingTick, LandingTickSetpoint;
  }

  lemma EntryStartsRequests(r: Rec, cfg: Config)
    requires Turned(r, cfg) && KindOf(r.out.post.leaf) != KindOf(r.pre.leaf)
    ensures RequestFor(r.out.post.leaf, 0).Some? ==> RequestTimer(r.out.post.leaf) == Timer(r.i.now, true)
  {
    hide LeafTick, Heard, HealthAfter, Choose, ViewOf, LeafSound, Concluded, DeferredOk;
    ViewTells(r, cfg);
    var beat := LeafTick(r.pre, r.i, cfg);
    var choice := Choose(KindOf(r.pre.leaf), ViewOf(r.pre, r.i, cfg, beat));
    EntersWith(r.pre, r.i, cfg, beat, choice);
    EnteredRequests(choice.kind, r.i, cfg, beat.sp, r.pre.requested, ExitLeaf(beat.leaf, beat.sh));
  }

  lemma EnteredRequests(kind: Kind, i: Input, cfg: Config, sp: Setpoint, requested: bool, sh: Custom1.Shared)
    ensures var leaf := EnterLeaf(kind, i, cfg, sp, requested, sh).leaf;
            RequestFor(leaf, 0).Some? ==> RequestTimer(leaf) == Timer(i.now, true)
  {
    hide Custom1.Entered, Custom1.EnteredShared, World, LandingLimit, DescentVelocity;
  }

  /** Turn j is the last before turn k that entered a leaf or asked. */
  predicate LastAsked(recs: seq<Rec>, j: nat, k: nat)
    requires k <= |recs|
  {
    j < k && AsksOrEnters(recs[j]) && forall i :: j < i < k ==> !AsksOrEnters(recs[i])
  }

  lemma {:induction false} TimerIsLastRequest(recs: seq<Rec>, cfg: Config, k: nat) returns (j: nat)
    requires IsRun(recs, cfg) && k < |recs| && RequestFor(recs[k].pre.leaf, 0).Some?
    ensures LastAsked(recs, j, k) && RequestTimer(recs[k].pre.leaf) == Timer(recs[j].i.now, true)
  {
    hide IsRun, Turned, Asks;
    RunLinks(recs, cfg, k);
    RunLinks(recs, cfg, k - 1);
    RequestStep(recs[k - 1], cfg);
    if AsksOrEnters(recs[k - 1]) {
      j := k - 1;
      if KindOf(recs[j].out.post.leaf) == KindOf(recs[j].pre.leaf) {
        var _ := TimerIsLastRequest(recs, cfg, k - 1);
      }
    } else {
      j := TimerIsLastRequest(recs, cfg, k - 1);
    }
  }

  /**
   A request leaf asks for its mode, or for arming, exactly when three seconds have passed since it was
   entered or last asked.
   */
  lemma RequestsAreSpaced(recs: seq<Rec>, cfg: Config, k: nat) returns (j: nat)
    requires IsRun(recs, cfg) && k < |recs| && RequestFor(recs[k].pre.leaf, 0).Some?
    ensures LastAsked(recs, j, k) && (Asks(recs[k]) <==> recs[k].i.now - recs[j].i.now >= 3_000_000_000)
  {
    hide IsRun, Turned, Asks, LastAsked, LeafTick;
    RunLinks(recs, cfg, k);
    j := TimerIsLastRequest(recs, cfg, k);
    OnlyLeavesAsk(recs[k], cfg);
    TickAsks(recs[k].pre, recs[k].i, cfg);
  }

  // -------------------------------------------------------------- which setpoint

  /** The leaves of a takeoff keep the setpoint that it began with, and Hover the one it was entered with. */
  predicate SamePoint(a: Leaf, b: Leaf) {
    || ((TakeoffLeaf(a) || a.AtAscending?) && (TakeoffLeaf(b) || b.AtAscending?))
    || (a.AtHover? && b.AtHover?)
  }

  /** Turn a set the setpoint, and turns (a, k] began in leaves that keep it. */
  predicate SetSince(recs: seq<Rec>, a: nat, k: nat)
    requires k < |recs|
  {
    && a < k && (Enters(recs[a], TakeoffInit) || Enters(recs[a], Hovering))
    && forall j :: a < j <= k ==> SamePoint(recs[a].out.post.leaf, recs[j].pre.leaf)
  }

  lemma PointStep(r: Rec, cfg: Config)
    requires Turned(r, cfg) && SamePoint(r.out.post.leaf, r.out.post.leaf)
    requires !Enters(r, TakeoffInit) && !Enters(r, Hovering)
    ensures SamePoint(r.pre.leaf, r.out.post.leaf) && r.out.post.sp == r.pre.sp
  {
    hide Turned, LeafTick, Diagnostics, DebugEffects, Disturbed, Said;
    if KindOf(r.out.post.leaf) == KindOf(r.pre.leaf) {
      StaysWith(r, cfg);
      KeepsPoint(r.pre, r.i, cfg);
    } else {
      EntryEmits(r, cfg);
      TurnTakesRoute(r, cfg, TakeoffOffboard);
      TurnTakesRoute(r, cfg, TakeoffArm);
      TurnTakesRoute(r, cfg, TakeoffAscending);
      KeepsPoint(r.pre, r.i, cfg);
    }
  }

  lemma KeepsPoint(st: State, i: Input, cfg: Config)
    requires SamePoint(st.leaf, st.leaf)
    ensures LeafTick(st, i, cfg).sp == st.sp
  {
    hide InitTick, OffboardTick, ArmTick, AscentTick;
  }

  /**
   All through a takeoff the setpoint is the point above its begin at the configured altitude, or at the
   vehicle's own height if that was greater; all through Hover it is the position where Hover was entered.
   */
  lemma {:induction false} SetpointIsKept(recs: seq<Rec>, cfg: Config, k: nat) returns (a: nat)
    requires IsRun(recs, cfg) && k < |recs| && SamePoint(recs[k].pre.leaf, recs[k].pre.leaf)
    ensures SetSince(recs, a, k) && recs[k].pre.sp == recs[a].out.post.sp
    ensures SetsPoint(KindOf(recs[a].out.post.leaf), recs[a], cfg)
  {
    hide IsRun, Turned, SetsPoint, Enters, LeafTick, Reports, EntryFor;
    RunLinks(recs, cfg, k);
    RunLinks(recs, cfg, k - 1);
    var r := recs[k - 1];
    if Enters(r, TakeoffInit) || Enters(r, Hovering) {
      a := k - 1;
      EntersKindOf(r);
      EntryEmits(r, cfg);
    } else {
      PointStep(r, cfg);
      a := SetpointIsKept(recs, cfg, k - 1);
    }
  }

  lemma EntersKindOf(r: Rec)
    requires Enters(r, TakeoffInit) || Enters(r, Hovering)
    ensures KindOf(r.out.post.leaf) != KindOf(r.pre.leaf)
  {
  }

  /** The height at the last turn of (a, k] with a new pose, or else at turn a. */
  function LastHeight(recs: seq<Rec>, cfg: Config, a: nat, k: nat): real
    requires a <= k < |recs|
    decreases k
  {
    if k == a || HealthRuns.NewPose(recs[k].i.s, cfg) then HealthRuns.MotionOf(recs[k].i.s, cfg).pos.z
    else LastHeight(recs, cfg, a, k - 1)
  }

  predicate LandsSince(recs: seq<Rec>, a: nat, k: nat)
    requires k < |recs|
  {
    a < k && Enters(recs[a], Landed) && forall j :: a < j <= k ==> recs[j].pre.leaf.AtLanding?
  }

  /** The speed of descent for a height. */
  function Sink(height: real): real {
    if height > 0.3 then -0.2 else -0.9
  }

  lemma EntersLanding(r: Rec, cfg: Config)
    requires Turned(r, cfg) && Enters(r, Landed)
    ensures r.out.post.leaf.AtLanding?
    ensures r.out.post.leaf.landing.vz == Sink(HealthRuns.MotionOf(r.i.s, cfg).pos.z)
    ensures Descends(r.out.post.sp, HealthRuns.MotionOf(r.i.s, cfg).pos.z)
  {
    EntryEmits(r, cfg);
    hide LeafTick, Heard, HealthAfter, Choose, ViewOf, LeafSound, Concluded, DeferredOk, DebugEffects, Diagnostics;
    ViewTells(r, cfg);
    var beat := LeafTick(r.pre, r.i, cfg);
    var choice := Choose(KindOf(r.pre.leaf), ViewOf(r.pre, r.i, cfg, beat));
    EntersWith(r.pre, r.i, cfg, beat, choice);
    hide LandingLimit;
  }

  lemma LandingStays(r: Rec, cfg: Config)
    requires Turned(r, cfg) && r.pre.leaf.AtLanding? && r.out.post.leaf.AtLanding?
    ensures var height := HealthRuns.MotionOf(r.i.s, cfg).pos.z;
            && r.out.post.leaf.landing.vz ==
               (if HealthRuns.NewPose(r.i.s, cfg) then Sink(height) else r.pre.leaf.landing.vz)
            && r.out.post.sp == if Publishes(r) then LandingSetpoint(r.out.post.leaf.landing.vz) else r.pre.sp
  {
    StaysWith(r, cfg);
    PublishStep(r, cfg);
    hide Turn, Diagnostics, DebugEffects, Publishes;
    LandingBeat(r.pre, r.i, cfg);
  }

  lemma LandingBeat(st: State, i: Input, cfg: Config)
    requires st.leaf.AtLanding?
    ensures var beat, height := LeafTick(st, i, cfg), HealthRuns.MotionOf(i.s, cfg).pos.z;
            && beat.leaf.AtLanding?
            && beat.leaf.landing.vz == (if HealthRuns.NewPose(i.s, cfg) then Sink(height) else st.leaf.landing.vz)
            && beat.sp == if st.leaf.landing.publish.Runs(i.now, SETPOINT_INTERVAL)
                          then LandingSetpoint(beat.leaf.landing.vz) else st.sp
  {
    hide ConfirmedFrames, TouchdownReady;
  }

  /** The longest that a landing from this height should last, in whole ticks: at 0.2 m/s, 5 s more, up to a minute. */
  predicate IsLimit(limit: int, height: real) {
    var slow := (if height < 0.0 then 0.0 else height) / 0.2 + 5.0;
    var ticks := (if slow < 60.0 then slow else 60.0) * 1000000000.0;
    (limit - 1) as real < ticks <= limit as real
  }

  lemma LandingTimes(r: Rec, cfg: Config)
    requires Turned(r, cfg) && r.out.post.leaf.AtLanding?
    ensures r.pre.leaf.AtLanding? ==>
              && r.out.post.enteredAt == r.pre.enteredAt
              && r.out.post.leaf.landing.limit == r.pre.leaf.landing.limit
              && (r.out.post.leaf.landing.reported <==>
                    r.pre.leaf.landing.reported || r.i.now - r.pre.enteredAt >= r.pre.leaf.landing.limit)
    ensures !r.pre.leaf.AtLanding? ==>
              && r.out.post.enteredAt == r.i.now && !r.out.post.leaf.landing.reported
              && IsLimit(r.out.post.leaf.landing.limit, HealthRuns.MotionOf(r.i.s, cfg).pos.z)
  {
    hide LeafTick, Heard, HealthAfter, Choose, ViewOf, LeafSound, Concluded, DeferredOk, Diagnostics, DebugEffects;
    if r.pre.leaf.AtLanding? {
      StaysWith(r, cfg);
      LandingBeatTimes(r.pre, r.i, cfg);
    } else {
      ViewTells(r, cfg);
      var beat := LeafTick(r.pre, r.i, cfg);
      EntersWith(r.pre, r.i, cfg, beat, Choose(KindOf(r.pre.leaf), ViewOf(r.pre, r.i, cfg, beat)));
      LimitIsLimit(HealthRuns.MotionOf(r.i.s, cfg).pos.z);
      hide LandingLimit, IsLimit;
    }
  }

  lemma LandingBeatTimes(st: State, i: Input, cfg: Config)
    requires st.leaf.AtLanding?
    ensures var beat, d := LeafTick(st, i, cfg), st.leaf.landing;
            && beat.leaf.AtLanding? && beat.leaf.landing.limit == d.limit
            && (beat.leaf.landing.reported <==> d.reported || i.now - st.enteredAt >= d.limit)
  {
    hide ConfirmedFrames, TouchdownReady, DescentVelocity, LandingTickSetpoint;
  }

  lemma LimitIsLimit(height: real)
    ensures IsLimit(LandingLimit(height), height)
  {
  }

  /**
   A landing is reported as overdue from the first turn on that finds it lasting longer than the height at its
   begin explains.
   */
  lemma {:induction false} LandingIsOverdue(recs: seq<Rec>, cfg: Config, k: nat) returns (a: nat)
    requires IsRun(recs, cfg) && k < |recs| && recs[k].pre.leaf.AtLanding?
    ensures LandsSince(recs, a, k) && recs[k].pre.enteredAt == recs[a].i.now
    ensures var d := recs[k].pre.leaf.landing;
            && IsLimit(d.limit, HealthRuns.MotionOf(recs[a].i.s, cfg).pos.z)
            && (d.reported <==> exists j :: a < j < k && recs[j].i.now - recs[a].i.now >= d.limit)
  {
    hide IsRun, Turned, Enters, IsLimit, HealthRuns.MotionOf;
    RunLinks(recs, cfg, k);
    RunLinks(recs, cfg, k - 1);
    var r := recs[k - 1];
    LandingTimes(r, cfg);
    if r.pre.leaf.AtLanding? {
      a := LandingIsOverdue(recs, cfg, k - 1);
    } else {
      a := k - 1;
      EntersIs(r, Landed);
    }
  }

  /** In landing the commanded descent follows the height at the last new pose, from one setpoint to the next. */
  lemma {:induction false} LandingFollowsHeight(recs: seq<Rec>, cfg: Config, k: nat) returns (a: nat)
    requires IsRun(recs, cfg) && k < |recs| && recs[k].pre.leaf.AtLanding?
    ensures LandsSince(recs, a, k) && recs[k].pre.leaf.landing.vz == Sink(LastHeight(recs, cfg, a, k - 1))
    ensures recs[k].out.post.leaf.AtLanding? ==>
              if Publishes(recs[k]) then Descends(recs[k].out.post.sp, LastHeight(recs, cfg, a, k))
              else recs[k].out.post.sp == recs[k].pre.sp
  {
    hide IsRun, Turned, Enters, Publishes, HealthRuns.MotionOf, HealthRuns.NewPose;
    RunLinks(recs, cfg, k);
    RunLinks(recs, cfg, k - 1);
    var r := recs[k - 1];
    if r.pre.leaf.AtLanding? {
      a := LandingFollowsHeight(recs, cfg, k - 1);
      LandingStays(r, cfg);
    } else {
      a := k - 1;
      EntersIs(r, Landed);
      EntersLanding(r, cfg);
    }
    if recs[k].out.post.leaf.AtLanding? {
      LandingStays(recs[k], cfg);
    }
  }

  // ---------------------------------------------------------------------- reports

  /** What the debug monitor publishes in a turn, from when it published last. */
  predicate ReportsOnTime(r: Rec) {
    var now, status, print_ := r.i.now, r.pre.debug.status, r.pre.debug.print_;
    && (StatusOut(now) in r.out.effects <==> (status.Some? ==> now - status.value >= 200_000_000))
    && (SensorStatsOut(now) in r.out.effects <==> StatusOut(now) in r.out.effects)
    && (TrackingErrorOut(now) in r.out.effects <==> StatusOut(now) in r.out.effects)
    && (SensorDebugOut(now) in r.out.effects <==> (print_.Some? ==> now - print_.value >= 1_000_000_000))
    && r.out.post.debug.status == (if StatusOut(now) in r.out.effects then Some(now) else status)
    && r.out.post.debug.print_ == (if SensorDebugOut(now) in r.out.effects then Some(now) else print_)
  }

  predicate NoReport(fx: seq<Effect>) {
    forall e :: e in fx ==> !IsReport(e)
  }

  lemma RequestTicksReportNothing(d: Init, o: Offboard, a: Arm, s: Sensors, now: int)
    ensures NoReport(InitTick(d, s, now).effects) && NoReport(OffboardTick(o, s, now).effects)
    ensures NoReport(ArmTick(a, s, now).effects)
  {
    hide Counted;
  }

  lemma FlightTicksReportNothing(a: Ascent, l: Landing, s: Sensors, b: Backend, target: real, now: int, elapsed: int)
    ensures NoReport(AscentTick(a, s, b, target, now, elapsed).effects)
    ensures NoReport(LandingTick(l, s, b, now, elapsed).effects)
  {
    hide Counted, AtAltitude, ConfirmedFrames, TouchdownReady, DescentVelocity, PoseNew;
  }

  lemma LeavesReportNothing(st: State, i: Input, cfg: Config)
    ensures NoReport(LeafTick(st, i, cfg).effects)
  {
    hide InitTick, OffboardTick, ArmTick, AscentTick, LandingTick, LandingTickSetpoint, Custom1.Tick;
    var now, elapsed := i.now, i.now - st.enteredAt;
    var init := if st.leaf.AtInit? then st.leaf.init else InitEntered(cfg, 0);
    var offboard := if st.leaf.AtOffboard? then st.leaf.offboard else OffboardEntered(0);
    var arm := if st.leaf.AtArm? then st.leaf.arm else ArmEntered(0);
    var ascent := if st.leaf.AtAscending? then st.leaf.ascent else AscentEntered(0);
    var landing := if st.leaf.AtLanding? then st.leaf.landing else LandingEntered(i.s, cfg.backend, 0);
    RequestTicksReportNothing(init, offboard, arm, i.s, now);
    FlightTicksReportNothing(ascent, landing, i.s, cfg.backend, st.sp.pos.z, now, elapsed);
    if st.leaf.AtCustom1? {
      TrackingShape(Custom1.Work(st.leaf.tracking, st.sh, st.sp, [], []), Custom1.Env(cfg, i.s, now, i.o));
    }
  }

  lemma EntriesReportNothing(kind: Kind, r: Rec, cfg: Config)
    ensures NoReport(EntryFor(kind, r, cfg))
  {
    hide Aloft;
  }

  /** The reports of a turn are those of the debug monitor. */
  lemma ReportsAreReports(r: Rec, cfg: Config)
    requires Turned(r, cfg)
    ensures forall e :: IsReport(e) ==> (e in r.out.effects <==> e in Reports(r, cfg))
    ensures r.out.post.debug == DebugTicked(r.pre.debug, r.i.now)
  {
    hide Turned, LeafTick, Diagnostics, DebugEffects, EntryFor, DebugTicked;
    LeavesReportNothing(r.pre, r.i, cfg);
    MonitorTicks(r, cfg);
    if KindOf(r.out.post.leaf) == KindOf(r.pre.leaf) {
      StaysWith(r, cfg);
    } else {
      EntryEmits(r, cfg);
      EntriesReportNothing(KindOf(r.out.post.leaf), r, cfg);
    }
  }

  lemma MonitorTicks(r: Rec, cfg: Config)
    requires Turned(r, cfg)
    ensures r.out.post.debug == DebugTicked(r.pre.debug, r.i.now)
  {
    hide LeafTick, Heard, HealthAfter, Choose, ViewOf, LeafSound, DeferredOk, DebugEffects, Diagnostics, DebugTicked;
    hide EnterLeaf, ExitLeaf, Unconsumed;
  }

  lemma MonitorOnTime(d: Debug, now: int, diagnosed: bool)
    ensures var fx := DebugEffects(d, now, diagnosed);
            && (StatusOut(now) in fx <==> (d.status.Some? ==> now - d.status.value >= 200_000_000))
            && (SensorStatsOut(now) in fx <==> StatusOut(now) in fx)
            && (TrackingErrorOut(now) in fx <==> StatusOut(now) in fx)
            && (SensorDebugOut(now) in fx <==> (d.print_.Some? ==> now - d.print_.value >= 1_000_000_000))
            && (EventsOut(now) in fx <==> diagnosed)
            && DebugTicked(d, now).status == (if StatusOut(now) in fx then Some(now) else d.status)
            && DebugTicked(d, now).print_ == (if SensorDebugOut(now) in fx then Some(now) else d.print_)
  {
  }

  lemma TurnReports(r: Rec, cfg: Config)
    requires Turned(r, cfg)
    ensures ReportsOnTime(r)
  {
    hide Turned, LeafTick, Diagnostics, DebugEffects, DebugTicked;
    ReportsAreReports(r, cfg);
    var own := LeafTick(r.pre, r.i, cfg).signals;
    MonitorOnTime(r.pre.debug, r.i.now, Diagnostics(r.pre, r.i, cfg, own, r.out.choice) != []);
  }

  /** Events are reported when a command or a signal arrived, or a transition was made for neither. */
  lemma EventsAreReported(r: Rec, cfg: Config)
    requires Turned(r, cfg)
    ensures EventsOut(r.i.now) in r.out.effects <==>
            || Batch(r.pre) != [] || |r.out.signals| > |r.pre.deferred|
            || (r.out.choice.Enter? && r.out.choice.signal == None && !r.out.choice.command)
  {
    hide Turned, LeafTick, Diagnostics, DebugEffects, DebugTicked;
    ReportsAreReports(r, cfg);
    HealthTicks(r, cfg);
    var own := LeafTick(r.pre, r.i, cfg).signals;
    MonitorOnTime(r.pre.debug, r.i.now, Diagnostics(r.pre, r.i, cfg, own, r.out.choice) != []);
    WhatIsDiagnosed(r.pre, r.i, cfg, own, r.out.choice);
  }

  lemma WhatIsDiagnosed(st: State, i: Input, cfg: Config, own: seq<Signal>, choice: Choice)
    ensures Diagnostics(st, i, cfg, own, choice) != [] <==>
            || Batch(st) != [] || |Heard(st, i, cfg) + own| > |st.deferred|
            || (choice.Enter? && choice.signal == None && !choice.command)
  {
    hide Batch, HealthSignals, Repeated;
  }

  /** The last turn before turn k that published the status, or the sensor debug line. */
  predicate LastReported(recs: seq<Rec>, j: nat, k: nat, status: bool)
    requires k <= |recs|
  {
    j < k && Reported(recs[j], status) && forall i :: j < i < k ==> !Reported(recs[i], status)
  }

  predicate Reported(r: Rec, status: bool) {
    if status then StatusOut(r.i.now) in r.out.effects else SensorDebugOut(r.i.now) in r.out.effects
  }

  lemma {:induction false} ReportTimes(recs: seq<Rec>, cfg: Config, k: nat, status: bool) returns (j: nat)
    requires IsRun(recs, cfg) && 0 < k < |recs|
    ensures LastReported(recs, j, k, status)
    ensures (if status then recs[k].pre.debug.status else recs[k].pre.debug.print_) == Some(recs[j].i.now)
  {
    hide IsRun, Turned;
    RunLinks(recs, cfg, k);
    RunLinks(recs, cfg, k - 1);
    TurnReports(recs[k - 1], cfg);
    if Reported(recs[k - 1], status) {
      j := k - 1;
    } else if k == 1 {
      FirstTurnReports(recs, cfg);
    } else {
      j := ReportTimes(recs, cfg, k - 1, status);
    }
  }

  lemma FirstTurnReports(recs: seq<Rec>, cfg: Config)
    requires IsRun(recs, cfg) && recs != []
    ensures Reported(recs[0], true) && Reported(recs[0], false)
  {
    RunLinks(recs, cfg, 0);
    TurnReports(recs[0], cfg);
    hide Turn;
  }

  /**
   The status goes out in the first turn of a run and then exactly 200 ms after it last did, the sensor
   debug line every second.
   */
  lemma ReportsAreSpaced(recs: seq<Rec>, cfg: Config, k: nat, status: bool) returns (j: nat)
    requires IsRun(recs, cfg) && 0 < k < |recs|
    ensures LastReported(recs, j, k, status)
    ensures Reported(recs[k], status) <==>
            recs[k].i.now - recs[j].i.now >= if status then 200_000_000 else 1_000_000_000
  {
    hide IsRun, Turned, LastReported;
    RunLinks(recs, cfg, k);
    TurnReports(recs[k], cfg);
    j := ReportTimes(recs, cfg, k, status);
  }

  // ----------------------------------------------------------- what a turn hears

  /** What the turns up to the k-th show the health monitor. */
  function SamplesOf(recs: seq<Rec>): seq<HealthRuns.Sample> {
    seq(|recs|, k requires 0 <= k < |recs| => HealthRuns.Sample(recs[k].i.s, recs[k].i.now))
  }

  lemma {:induction false} HealthInRuns(recs: seq<Rec>, cfg: Config, k: nat)
    requires IsRun(recs, cfg) && k < |recs|
    ensures |SamplesOf(recs)| == |recs| && recs[k].pre.health == HealthRuns.HealthAt(SamplesOf(recs), cfg, k)
    ensures recs[k].out.post.health == HealthRuns.HealthAt(SamplesOf(recs), cfg, k + 1)
  {
    hide IsRun, Turned, HealthAfter, LeafTick, Heard, HealthRuns.HealthAt, SamplesOf;
    RunLinks(recs, cfg, k);
    HealthTicks(recs[k], cfg);
    HealthMoves(recs, cfg, k);
    if k == 0 {
      StartsFresh(recs, cfg);
    } else {
      HealthInRuns(recs, cfg, k - 1);
    }
  }

  lemma HealthMoves(recs: seq<Rec>, cfg: Config, k: nat)
    requires k < |recs|
    ensures var xs := SamplesOf(recs);
            && |xs| == |recs| && HealthRuns.HealthAt(xs, cfg, 0) == FRESH_HEALTH
            && HealthRuns.HealthAt(xs, cfg, k + 1) ==
               HealthAfter(HealthRuns.HealthAt(xs, cfg, k), recs[k].i.s, cfg, recs[k].i.now)
  {
    hide HealthAfter;
  }

  lemma StartsFresh(recs: seq<Rec>, cfg: Config)
    requires IsRun(recs, cfg) && recs != []
    ensures recs[0].pre.health == FRESH_HEALTH
  {
    hide Turn;
  }

  lemma HealthTicks(r: Rec, cfg: Config)
    requires Turned(r, cfg)
    ensures r.out.post.health == HealthAfter(r.pre.health, r.i.s, cfg, r.i.now)
    ensures r.out.signals == Heard(r.pre, r.i, cfg) + LeafTick(r.pre, r.i, cfg).signals
  {
    hide LeafTick, Heard, HealthAfter, Choose, ViewOf, LeafSound, Concluded, DeferredOk;
    var beat := LeafTick(r.pre, r.i, cfg);
    ConclusionShows(r.pre, r.i, cfg, beat, Choose(KindOf(r.pre.leaf), ViewOf(r.pre, r.i, cfg, beat)));
  }

  /** The setpoint asks for more acceleration than is allowed, along the ground or up and down. */
  predicate Saturates(r: Rec, cfg: Config, vertical: bool) {
    var acc := r.pre.sp.acc;
    if vertical then acc.z > cfg.maxAccZ || -acc.z > cfg.maxAccZ
    else cfg.maxAccXy < 0.0 || acc.x * acc.x + acc.y * acc.y > cfg.maxAccXy * cfg.maxAccXy
  }

  predicate OfHealth(x: Signal) {
    Edge(x) && x != SaturationXY && x != SaturationZ
  }

  /** The edges of the health monitor that a turn of a run hears are those that its samples raise. */
  lemma EdgesInRuns(recs: seq<Rec>, cfg: Config, k: nat, x: Signal)
    requires IsRun(recs, cfg) && k < |recs| && OfHealth(x)
    ensures Said(recs[k], x) <==> HealthRuns.Raised(SamplesOf(recs), cfg, k, x)
  {
    hide IsRun, Turned, HealthSignals, LeafTick, HealthRuns.HealthAt;
    var r := recs[k];
    HealthInRuns(recs, cfg, k);
    RunLinks(recs, cfg, k);
    OnlyImuSaturates(r.pre.sp, cfg, r.i.imu, x);
    NoOtherEdge(r, cfg, x);
    EdgeIsHeard(r, cfg, x);
    hide ImuSignals, Repeated, Said;
  }

  /** Saturation is heard when an IMU message arrived that found the setpoint of PX4_LOCAL beyond a limit. */
  lemma SaturationIsHeard(r: Rec, cfg: Config, vertical: bool)
    requires Turned(r, cfg)
    ensures Said(r, if vertical then SaturationZ else SaturationXY) <==>
            r.i.imu > 0 && cfg.backend == Px4Local && Saturates(r, cfg, vertical)
  {
    hide Turned, HealthSignals, ImuSignals, Repeated, LeafTick, Said;
    var x := if vertical then SaturationZ else SaturationXY;
    OnlyImuSaturates(r.pre.sp, cfg, r.i.imu, x);
    HealthNeverSaturates(r.pre.health, r.i.s, cfg, r.i.now);
    NoOtherEdge(r, cfg, x);
    EdgeIsHeard(r, cfg, x);
  }

  lemma EdgeIsNoCompletion(y: Signal, kind: Kind)
    requires Edge(y)
    ensures !Completion(y) && !Owns(kind, y)
  {
  }

  lemma NoOtherEdge(r: Rec, cfg: Config, y: Signal)
    requires Turned(r, cfg) && Edge(y)
    ensures y !in r.pre.deferred && y !in LeafTick(r.pre, r.i, cfg).signals
  {
    hide Turn, LeafTick, LeafSound, Edge, Completion, Owns;
    BeatShape(r.pre, r.i, cfg);
    EdgeIsNoCompletion(y, KindOf(r.pre.leaf));
  }

  lemma EdgeIsHeard(r: Rec, cfg: Config, y: Signal)
    requires Turned(r, cfg) && y !in r.pre.deferred && y !in LeafTick(r.pre, r.i, cfg).signals
    ensures Said(r, y) <==>
            || y in Repeated(ImuSignals(r.pre.sp, cfg), r.i.imu)
            || y in HealthSignals(r.pre.health, r.i.s, cfg, r.i.now)
  {
    HealthTicks(r, cfg);
    hide Turned, LeafTick, ImuSignals, HealthSignals, Repeated;
  }

  lemma {:induction false} OnlyImuSaturates(sp: Setpoint, cfg: Config, n: nat, x: Signal)
    ensures var acc := sp.acc;
            && (SaturationXY in Repeated(ImuSignals(sp, cfg), n) <==>
                  n > 0 && cfg.backend == Px4Local &&
                  (cfg.maxAccXy < 0.0 || acc.x * acc.x + acc.y * acc.y > cfg.maxAccXy * cfg.maxAccXy))
            && (SaturationZ in Repeated(ImuSignals(sp, cfg), n) <==>
                  n > 0 && cfg.backend == Px4Local && (acc.z > cfg.maxAccZ || -acc.z > cfg.maxAccZ))
            && (x != SaturationXY && x != SaturationZ ==> x !in Repeated(ImuSignals(sp, cfg), n))
  {
    if n > 0 {
      OnlyImuSaturates(sp, cfg, n - 1, x);
    }
  }

  lemma HealthNeverSaturates(h: Health, s: Sensors, cfg: Config, now: int)
    ensures SaturationXY !in HealthSignals(h, s, cfg, now) && SaturationZ !in HealthSignals(h, s, cfg, now)
  {
  }
}
