/** Where every turn of the owner leads, told by what it heard, was commanded, sensed and remembers. */
module FlightRoutes {
  import opened Options
  import opened Sensors
  import opened Trajectory
  import opened FlightTypes
  import opened HealthMonitor
  import opened Flight
  import opened FlightRuns
  import opened FlightArming
  import HealthRuns
  import FlightWake

  // --------------------------------------------------------- what a turn goes by

  predicate Said(r: Rec, x: Signal) {
    x in r.out.signals
  }

  predicate Told(r: Rec, c: Command) {
    c in Batch(r.pre)
  }

  /** The edges that end every flight. */
  predicate Edge(x: Signal) {
    || x == Geofence || x == VelocityXY || x == VelocityZ || x == SaturationXY || x == SaturationZ
    || x == EstimateUnusable || x == TimeoutEstimate || x == TimeoutLocalPosition || x == TimeoutLocalVelocity
    || x == TimeoutImu || x == TimeoutFcuState
  }

  /** An edge was raised, or a Land command delivered. */
  predicate Called(r: Rec) {
    (exists x :: Said(r, x) && Edge(x)) || Told(r, Land)
  }

  /** The same, or the two positions were too far apart when they were last compared. */
  predicate Disturbed(r: Rec) {
    Called(r) || r.out.post.health.comparison.distance.exceeded
  }

  /** Armed and more than 30 cm up. */
  predicate Aloft(r: Rec, cfg: Config) {
    r.i.s.armed && HealthRuns.MotionOf(r.i.s, cfg).pos.z > 0.3
  }

  /** Feedback and FCU state are received, and the feedback may be used. */
  predicate Fit(r: Rec, cfg: Config) {
    var s := r.i.s;
    && s.fcu.isActive
    && (if !HealthRuns.FedByControlState(cfg) then s.localPos.isActive && s.localVel.isActive && s.imu.isActive
        else if s.source == RigidEstimate then s.estimate.isActive && s.estimatorOk
        else s.localPos.isActive && s.localVel.isActive && s.imu.isActive && s.inertialValid && s.localUsable)
  }

  /** More than ten seconds in the leaf. */
  predicate Overdue(r: Rec) {
    r.i.now - r.pre.enteredAt > 10_000_000_000
  }

  /** The position of a segment, on the axes it has one for, is within the tolerances of this position. */
  predicate Near(g: Segment, here: Vec3, cfg: Config) {
    var noX, noY, noZ := g.mask & 1 != 0, g.mask & 2 != 0, g.mask & 4 != 0;
    var dx, dy, dz := g.pos.x - here.x, g.pos.y - here.y, g.pos.z - here.z;
    && g.valid
    && (!noX && !noY ==> dx * dx + dy * dy <= cfg.hoverXyTol * cfg.hoverXyTol)
    && (!noX && noY ==> -cfg.hoverXyTol <= dx <= cfg.hoverXyTol)
    && (noX && !noY ==> -cfg.hoverXyTol <= dy <= cfg.hoverXyTol)
    && (!noZ ==> -cfg.hoverZTol <= dz <= cfg.hoverZTol)
  }

  /** PX4_LOCAL asks for a segment near the vehicle before it tracks; the other modes bring their own gate. */
  predicate PlanReady(r: Rec, cfg: Config) {
    var here := HealthRuns.MotionOf(r.i.s, cfg).pos;
    cfg.backend == Px4Local ==> Near(r.pre.sh.buffer.active, here, cfg) || Near(r.pre.sh.buffer.pending, here, cfg)
  }

  // -------------------------------------------------------------------- the routes

  predicate LeadsToLanding(r: Rec, cfg: Config) {
    match r.pre.leaf
    case AtSelfCheck(_) => false
    case AtReady => Called(r) || Aloft(r, cfg)
    case AtInit(_) => Disturbed(r) || (!r.i.s.armed && !Said(r, AltctlReady) && Overdue(r))
    case AtOffboard(_) => Disturbed(r) || (!r.i.s.armed && !Said(r, OffboardReady) && Overdue(r))
    case AtArm(_) => Disturbed(r) || (!Said(r, ArmReady) && Overdue(r))
    case AtAscending(_) =>
      Disturbed(r) ||
      (Said(r, TakeoffTimeout) && !Said(r, AltitudeReached) && !Told(r, Hover) &&
       !(Told(r, Track) && PlanReady(r, cfg)))
    case AtHover(_) => Disturbed(r)
    case AtCustom1(_) => Disturbed(r)
    case AtLanding(_) => false
  }

  predicate LeadsToHover(r: Rec, cfg: Config) {
    !Disturbed(r) &&
    match r.pre.leaf
    case AtAscending(_) => Told(r, Hover) || (Said(r, AltitudeReached) && !(Told(r, Track) && PlanReady(r, cfg)))
    case AtCustom1(_) => Told(r, Hover) || Said(r, ReferenceFinished)
    case _ => false
  }

  predicate LeadsToTracking(r: Rec, cfg: Config) {
    !Disturbed(r) && PlanReady(r, cfg) &&
    match r.pre.leaf
    case AtAscending(_) =>
      !Told(r, Hover) &&
      (Told(r, Track) || (r.pre.requested && !Said(r, AltitudeReached) && !Said(r, TakeoffTimeout)))
    case AtHover(_) => Told(r, Track) || r.pre.requested
    case _ => false
  }

  predicate LeadsToTakeoff(r: Rec, cfg: Config) {
    var distance := r.out.post.health.comparison.distance;
    r.pre.leaf.AtReady? && !Called(r) && !Aloft(r, cfg) &&
    Told(r, Takeoff) && distance.available && !distance.exceeded
  }

  predicate LeadsTo(r: Rec, cfg: Config, kind: Kind) {
    match kind
    case SelfCheck =>
      || (r.pre.leaf.AtReady? && !Called(r) && !Aloft(r, cfg) && !LeadsToTakeoff(r, cfg) && !Fit(r, cfg))
      || (r.pre.leaf.AtLanding? && Said(r, Touchdown))
    case Ready =>
      || (r.pre.leaf.AtSelfCheck? && Fit(r, cfg))
      || ((r.pre.leaf.AtInit? || r.pre.leaf.AtOffboard?) && !Disturbed(r) && r.i.s.armed)
    case TakeoffInit => LeadsToTakeoff(r, cfg)
    case TakeoffOffboard => r.pre.leaf.AtInit? && !Disturbed(r) && !r.i.s.armed && Said(r, AltctlReady)
    case TakeoffArm => r.pre.leaf.AtOffboard? && !Disturbed(r) && !r.i.s.armed && Said(r, OffboardReady)
    case TakeoffAscending => r.pre.leaf.AtArm? && !Disturbed(r) && Said(r, ArmReady)
    case Hovering => LeadsToHover(r, cfg)
    case Tracking => LeadsToTracking(r, cfg)
    case Landed => LeadsToLanding(r, cfg)
  }

  lemma EdgesAreSafety(x: Signal)
    ensures Edge(x) <==> Safety(x)
  {
  }

  lemma NearIsMatch(g: Segment, here: Vec3, cfg: Config)
    ensures Near(g, here, cfg) <==> PlanMatchesHover(g, here, cfg.hoverXyTol, cfg.hoverZTol)
  {
  }

  lemma SensesAgree(r: Rec, cfg: Config)
    ensures Airborne(r.i.s, cfg.backend) <==> Aloft(r, cfg)
    ensures SensorsReady(r.i.s, cfg.backend) <==> Fit(r, cfg)
  {
  }

  lemma PlanAgrees(r: Rec, cfg: Config)
    ensures ReferenceReady(r.pre.sh.buffer, r.i.s, cfg) <==> PlanReady(r, cfg)
  {
    var here := HealthRuns.MotionOf(r.i.s, cfg).pos;
    assert here == World(r.i.s, cfg.backend).pos;
    NearIsMatch(r.pre.sh.buffer.active, here, cfg);
    NearIsMatch(r.pre.sh.buffer.pending, here, cfg);
    hide Near, PlanMatchesHover, World, HealthRuns.MotionOf;
  }

  lemma CallsAgree(r: Rec, v: View)
    requires v.signals == r.out.signals && v.commands == Batch(r.pre)
    ensures NormalPreemption(v) != Stay <==> Called(r)
    ensures NormalPreemption(v) != Stay ==> NormalPreemption(v).Enter? && NormalPreemption(v).kind == Landed
  {
    forall x: Signal ensures Edge(x) <==> Safety(x) {
      EdgesAreSafety(x);
    }
    hide Edge, Safety;
  }

  lemma ConclusionShows(st: State, i: Input, cfg: Config, beat: Beat, choice: Choice)
    ensures var out := Concluded(st, i, cfg, beat, choice);
            && out.signals == Heard(st, i, cfg) + beat.signals && out.choice == choice
            && out.post.health == HealthAfter(st.health, i.s, cfg, i.now)
            && (choice == Stay ==> out.post.leaf == beat.leaf)
            && (choice.Enter? ==> KindOf(out.post.leaf) == choice.kind)
  {
    EnteredLeaf(st, i, cfg, beat, choice);
  }

  /** What the turn's choice looks at, in the terms above. */
  lemma ViewTells(r: Rec, cfg: Config)
    requires Turned(r, cfg)
    ensures var v := ViewOf(r.pre, r.i, cfg, LeafTick(r.pre, r.i, cfg));
            && v.signals == r.out.signals && v.commands == Batch(r.pre)
            && v.s == r.i.s && v.backend == cfg.backend && v.elapsed == r.i.now - r.pre.enteredAt
            && v.distance == r.out.post.health.comparison.distance && v.requested == r.pre.requested
            && (!r.pre.leaf.AtCustom1? ==> (v.referenceReady <==> PlanReady(r, cfg)))
            && r.out.choice == Choose(KindOf(r.pre.leaf), v)
            && KindOf(r.out.post.leaf) == (if r.out.choice.Enter? then r.out.choice.kind else KindOf(r.pre.leaf))
  {
    hide LeafTick, Heard, HealthAfter, Choose, Concluded, LeafSound, ReferenceReady, PlanReady;
    var beat := LeafTick(r.pre, r.i, cfg);
    BeatShape(r.pre, r.i, cfg);
    FlightWake.TickKeepsShared(r.pre, r.i, cfg);
    PlanAgrees(r, cfg);
    ConclusionShows(r.pre, r.i, cfg, beat, Choose(KindOf(r.pre.leaf), ViewOf(r.pre, r.i, cfg, beat)));
  }

  /**
   Where a turn leads: it enters a leaf exactly under the condition of that route, and stays where it is
   when no route is open.
   */
  lemma TurnTakesRoute(r: Rec, cfg: Config, kind: Kind)
    requires Turned(r, cfg)
    ensures LeadsTo(r, cfg, kind) <==> KindOf(r.out.post.leaf) == kind && kind != KindOf(r.pre.leaf)
  {
    hide LeafTick, Heard, HealthAfter, Turn, Choose, ViewOf, Said, Told, LeadsTo;
    var v := ViewOf(r.pre, r.i, cfg, LeafTick(r.pre, r.i, cfg));
    ViewTells(r, cfg);
    RouteIsChosen(r, cfg, v, kind);
    ChoiceFacts(KindOf(r.pre.leaf), v);
  }

  /** The view shows what the turn goes by. */
  predicate Shows(r: Rec, cfg: Config, v: View) {
    && v.signals == r.out.signals && v.commands == Batch(r.pre)
    && v.s == r.i.s && v.backend == cfg.backend && v.elapsed == r.i.now - r.pre.enteredAt
    && v.distance == r.out.post.health.comparison.distance && v.requested == r.pre.requested
    && (!r.pre.leaf.AtCustom1? ==> (v.referenceReady <==> PlanReady(r, cfg)))
  }

  lemma RouteIsChosen(r: Rec, cfg: Config, v: View, kind: Kind)
    requires Shows(r, cfg, v)
    ensures var c := Choose(KindOf(r.pre.leaf), v);
            LeadsTo(r, cfg, kind) <==> c.Enter? && c.kind == kind
  {
    hide Choose, LeadsTo;
    match KindOf(r.pre.leaf)
    case SelfCheck => FromGround(r, cfg, v, kind);
    case Ready => FromGround(r, cfg, v, kind);
    case Landed => FromGround(r, cfg, v, kind);
    case TakeoffInit => FromRequest(r, cfg, v, kind);
    case TakeoffOffboard => FromRequest(r, cfg, v, kind);
    case TakeoffArm => FromRequest(r, cfg, v, kind);
    case _ => FromFlight(r, cfg, v, kind);
  }

  lemma FromGround(r: Rec, cfg: Config, v: View, kind: Kind)
    requires Shows(r, cfg, v) && (r.pre.leaf.AtSelfCheck? || r.pre.leaf.AtReady? || r.pre.leaf.AtLanding?)
    ensures var c := Choose(KindOf(r.pre.leaf), v);
            LeadsTo(r, cfg, kind) <==> c.Enter? && c.kind == kind
  {
    SensesAgree(r, cfg);
    CallsAgree(r, v);
    hide PlanReady, Airborne, SensorsReady, Aloft, Fit, Called, NormalPreemption, DistancePreemption;
    hide LeadsToHover, LeadsToTracking;
    assert !LeadsToHover(r, cfg) && !LeadsToTracking(r, cfg) by { NoFlightFrom(r, cfg); }
  }

  lemma NoFlightFrom(r: Rec, cfg: Config)
    requires !r.pre.leaf.AtAscending? && !r.pre.leaf.AtHover? && !r.pre.leaf.AtCustom1?
    ensures !LeadsToHover(r, cfg) && !LeadsToTracking(r, cfg)
  {
  }

  lemma FromRequest(r: Rec, cfg: Config, v: View, kind: Kind)
    requires Shows(r, cfg, v) && (r.pre.leaf.AtInit? || r.pre.leaf.AtOffboard? || r.pre.leaf.AtArm?)
    ensures var c := Choose(KindOf(r.pre.leaf), v);
            LeadsTo(r, cfg, kind) <==> c.Enter? && c.kind == kind
  {
    DisturbanceAgrees(r, cfg, v);
    NoFlightFrom(r, cfg);
    hide PlanReady, Airborne, SensorsReady, Aloft, Fit, Called, NormalPreemption, DistancePreemption, Disturbed;
    hide LeadsToHover, LeadsToTracking;
  }

  lemma DisturbanceAgrees(r: Rec, cfg: Config, v: View)
    requires Shows(r, cfg, v)
    ensures var c := DistancePreemption(v);
            (c != Stay <==> Disturbed(r)) && (c != Stay ==> c.Enter? && c.kind == Landed)
  {
    CallsAgree(r, v);
    hide Called, NormalPreemption, PlanReady;
  }

  lemma FromFlight(r: Rec, cfg: Config, v: View, kind: Kind)
    requires Shows(r, cfg, v) && (r.pre.leaf.AtAscending? || r.pre.leaf.AtHover? || r.pre.leaf.AtCustom1?)
    ensures var c := Choose(KindOf(r.pre.leaf), v);
            LeadsTo(r, cfg, kind) <==> c.Enter? && c.kind == kind
  {
    DisturbanceAgrees(r, cfg, v);
    hide PlanReady, Airborne, SensorsReady, Aloft, Fit, Called, NormalPreemption, DistancePreemption, Disturbed;
  }

  // ------------------------------------------------------- what a transition answers to

  const EDGES: seq<Signal> := [Geofence, VelocityXY, VelocityZ, SaturationXY, SaturationZ, EstimateUnusable,
                               TimeoutEstimate, TimeoutLocalPosition, TimeoutLocalVelocity, TimeoutImu, TimeoutFcuState]

  /** The first safety edge that the turn has, in the order of the rules. */
  predicate IsFirstEdge(r: Rec, x: Signal) {
    exists k :: 0 <= k < |EDGES| && EDGES[k] == x && Said(r, x) && forall i :: 0 <= i < k ==> !Said(r, EDGES[i])
  }

  predicate Calls(r: Rec) {
    exists x :: Edge(x) && Said(r, x)
  }

  /** The signal a transition is for, or whether it is for a command; for neither when the sensors or time made it. */
  predicate AnswersTo(r: Rec, signal: Option<Signal>, command: bool) {
    var preempted := !r.pre.leaf.AtSelfCheck? && !r.pre.leaf.AtLanding?;
    if preempted && Calls(r) then signal.Some? && IsFirstEdge(r, signal.value) && !command
    else if preempted && Told(r, Land) then signal == None && command
    else match KindOf(r.out.post.leaf)
      case SelfCheck => signal == (if r.pre.leaf.AtLanding? then Some(Touchdown) else None) && !command
      case Ready => signal == None && !command
      case TakeoffInit => signal == None && command
      case TakeoffOffboard => signal == Some(AltctlReady) && !command
      case TakeoffArm => signal == Some(OffboardReady) && !command
      case TakeoffAscending => signal == Some(ArmReady) && !command
      case Hovering =>
        if Told(r, Hover) then signal == None && command
        else signal == Some(if r.pre.leaf.AtAscending? then AltitudeReached else ReferenceFinished) && !command
      case Tracking => signal == None && command == Told(r, Track)
      case Landed =>
        && !command
        && signal == if r.pre.leaf.AtAscending? && !r.out.post.health.comparison.distance.exceeded
                     then Some(TakeoffTimeout) else None
  }

  /** A transition consumes exactly what it answers to: the first edge, the command, or the completion. */
  lemma TransitionAnswers(r: Rec, cfg: Config)
    requires Turned(r, cfg) && KindOf(r.out.post.leaf) != KindOf(r.pre.leaf)
    ensures r.out.choice.Enter? && AnswersTo(r, r.out.choice.signal, r.out.choice.command)
  {
    hide Turned, LeafTick, Heard, HealthAfter, Choose, AnswersTo, ReferenceReady, PlanReady, ViewOf;
    var v := ViewOf(r.pre, r.i, cfg, LeafTick(r.pre, r.i, cfg));
    ViewTells(r, cfg);
    ChoiceFacts(KindOf(r.pre.leaf), v);
    FirstEdges(r, v);
    NamesWhat(r, cfg, v);
  }

  lemma FirstEdges(r: Rec, v: View)
    requires v.signals == r.out.signals
    ensures Calls(r) <==> FirstSafety(v.signals).Some?
    ensures Calls(r) ==> IsFirstEdge(r, FirstSafety(v.signals).value)
  {
    var ss := v.signals;
    forall x: Signal ensures Edge(x) <==> x in EDGES {
    }
    if FirstSafety(ss).Some? {
      var x := FirstSafety(ss).value;
      FirstInOrder(ss);
      var k :| 0 <= k < |EDGES| && EDGES[k] == x && NoneBefore(ss, k);
      assert Said(r, x);
    }
  }

  lemma FirstInOrder(ss: seq<Signal>)
    requires FirstSafety(ss).Some?
    ensures exists k :: 0 <= k < |EDGES| && EDGES[k] == FirstSafety(ss).value && NoneBefore(ss, k)
  {
    forall k | 0 <= k < |EDGES| && EDGES[k] == FirstSafety(ss).value ensures NoneBefore(ss, k) {
    }
    assert FirstSafety(ss).value in EDGES;
  }

  predicate NoneBefore(ss: seq<Signal>, k: nat)
    requires k <= |EDGES|
  {
    forall i :: 0 <= i < k ==> EDGES[i] !in ss
  }

  lemma NamesWhat(r: Rec, cfg: Config, v: View)
    requires Shows(r, cfg, v) && (Calls(r) <==> FirstSafety(v.signals).Some?)
    requires Calls(r) ==> IsFirstEdge(r, FirstSafety(v.signals).value)
    requires var c := Choose(KindOf(r.pre.leaf), v); c.Enter? && KindOf(r.out.post.leaf) == c.kind
    ensures var c := Choose(KindOf(r.pre.leaf), v); AnswersTo(r, c.signal, c.command)
  {
    hide Calls, IsFirstEdge, PlanReady, FirstSafety, SensorsReady, Airborne;
  }
}
