/** What the health monitor signals over whole runs. */
module HealthRuns {
  import opened Sensors
  import opened FlightTypes
  import opened HealthMonitor

  /** What one turn shows the monitor. */
  datatype Sample = Sample(s: Sensors, now: int)

  /** The monitor before turn k. */
  function HealthAt(xs: seq<Sample>, cfg: Config, k: nat): Health
    requires k <= |xs|
  {
    if k == 0 then FRESH_HEALTH else HealthAfter(HealthAt(xs, cfg, k - 1), xs[k - 1].s, cfg, xs[k - 1].now)
  }

  predicate Raised(xs: seq<Sample>, cfg: Config, k: nat, signal: Signal)
    requires k < |xs|
  {
    signal in HealthSignals(HealthAt(xs, cfg, k), xs[k].s, cfg, xs[k].now)
  }

  // --------------------------------------------------- unusable estimate

  /** The backends that are fed by the fused control state. */
  predicate FedByControlState(cfg: Config) {
    cfg.backend == Nmpc || cfg.backend == Dfbc
  }

  /** The control state is received in full, and says of itself that it must not be used. */
  predicate Bad(xs: seq<Sample>, cfg: Config, k: nat)
    requires k < |xs|
  {
    var s := xs[k].s;
    FedByControlState(cfg) &&
    if s.source == RigidEstimate then s.estimate.isActive && !s.estimatorOk
    else s.localPos.isActive && s.localVel.isActive && s.imu.isActive && !(s.inertialValid && s.localUsable)
  }

  /** Turns a..b are one maximal stretch of turns with an unusable control state. */
  predicate UnusableRun(xs: seq<Sample>, cfg: Config, a: nat, b: nat) {
    && a <= b < |xs|
    && (forall k :: a <= k <= b ==> Bad(xs, cfg, k))
    && (a == 0 || !Bad(xs, cfg, a - 1))
    && (b == |xs| - 1 || !Bad(xs, cfg, b + 1))
  }

  predicate TimeRuns(xs: seq<Sample>) {
    (forall i :: 0 <= i < |xs| ==> xs[i].now >= 0) &&
    (forall i, j :: 0 <= i <= j < |xs| ==> xs[i].now <= xs[j].now)
  }

  /** The debounce remembers when the current stretch began, and whether it has lasted long enough. */
  lemma {:induction false} DebounceState(xs: seq<Sample>, cfg: Config, a: nat, k: nat)
    requires TimeRuns(xs) && a <= k <= |xs|
    requires a == 0 || !Bad(xs, cfg, a - 1)
    requires forall i :: a <= i < k ==> Bad(xs, cfg, i)
    ensures HealthAt(xs, cfg, k).estimate ==
            if k == a then Estimate(false, -1)
            else Estimate(xs[k - 1].now - xs[a].now >= cfg.tripDelay, xs[a].now)
  {
    if k > a {
      DebounceState(xs, cfg, a, k - 1);
      assert Bad(xs, cfg, k - 1);
    }
  }

  lemma RaisedEstimate(xs: seq<Sample>, cfg: Config, k: nat)
    requires k < |xs|
    ensures Raised(xs, cfg, k, EstimateUnusable) <==>
            !HealthAt(xs, cfg, k).estimate.unusable && HealthAt(xs, cfg, k + 1).estimate.unusable
  {
  }

  /** Turn k is the first of its stretch, begun at turn a, that is at least the trip delay past a. */
  predicate FirstPastDelay(xs: seq<Sample>, cfg: Config, a: nat, k: nat)
    requires a <= k < |xs|
  {
    xs[k].now - xs[a].now >= cfg.tripDelay && forall j :: a <= j < k ==> xs[j].now - xs[a].now < cfg.tripDelay
  }

  /** Within one maximal unusable stretch the signal is raised at exactly that turn. */
  lemma EstimateUnusableAtFirstTurnPastDelay(xs: seq<Sample>, cfg: Config, a: nat, b: nat, k: nat)
    requires TimeRuns(xs) && UnusableRun(xs, cfg, a, b) && a <= k <= b
    ensures Raised(xs, cfg, k, EstimateUnusable) <==> FirstPastDelay(xs, cfg, a, k)
  {
    DebounceState(xs, cfg, a, k);
    DebounceState(xs, cfg, a, k + 1);
    RaisedEstimate(xs, cfg, k);
  }

  /** There is such a turn if and only if the stretch lasts the trip delay. */
  lemma {:induction false} SomeFirstPastDelay(xs: seq<Sample>, cfg: Config, a: nat, b: nat)
    requires TimeRuns(xs) && a <= b < |xs|
    ensures xs[b].now - xs[a].now >= cfg.tripDelay <==> exists k :: a <= k <= b && FirstPastDelay(xs, cfg, a, k)
    decreases b - a
  {
    if xs[b].now - xs[a].now >= cfg.tripDelay {
      if b == a || xs[b - 1].now - xs[a].now < cfg.tripDelay {
        assert FirstPastDelay(xs, cfg, a, b);
      } else {
        SomeFirstPastDelay(xs, cfg, a, b - 1);
      }
    }
  }

  /** So a stretch raises the signal exactly once if it lasts the trip delay, and otherwise not at all. */
  lemma EstimateUnusableExactlyOnce(xs: seq<Sample>, cfg: Config, a: nat, b: nat)
    requires TimeRuns(xs) && UnusableRun(xs, cfg, a, b)
    ensures xs[b].now - xs[a].now >= cfg.tripDelay <==>
            exists k :: a <= k <= b && Raised(xs, cfg, k, EstimateUnusable)
    ensures forall j, k | a <= j <= b && a <= k <= b ::
              Raised(xs, cfg, j, EstimateUnusable) && Raised(xs, cfg, k, EstimateUnusable) ==> j == k
  {
    SomeFirstPastDelay(xs, cfg, a, b);
    forall k | a <= k <= b ensures Raised(xs, cfg, k, EstimateUnusable) <==> FirstPastDelay(xs, cfg, a, k) {
      EstimateUnusableAtFirstTurnPastDelay(xs, cfg, a, b, k);
    }
    assert forall j, k | a <= j <= b && a <= k <= b ::
             FirstPastDelay(xs, cfg, a, j) && FirstPastDelay(xs, cfg, a, k) ==> j == k;
  }

  /** Outside such a stretch it is never raised. */
  lemma NoSignalWhileUsable(xs: seq<Sample>, cfg: Config, k: nat)
    requires k < |xs| && !Bad(xs, cfg, k)
    ensures !Raised(xs, cfg, k, EstimateUnusable)
  {
    RaisedEstimate(xs, cfg, k);
  }

  // ------------------------------------------------------- pose limits

  datatype Limit = Fence | HorizontalSpeed | VerticalSpeed

  /** Position and velocity as the backend is fed with them. */
  function MotionOf(s: Sensors, cfg: Config): Motion {
    if FedByControlState(cfg) && s.source == RigidEstimate then s.est else s.local
  }

  predicate NewPose(s: Sensors, cfg: Config) {
    if !FedByControlState(cfg) then s.localPos.isNew
    else if s.source == RigidEstimate then s.estimate.isNew
    else s.localPos.isNew || s.localVel.isNew || s.imu.isNew
  }

  predicate Exceeds(s: Sensors, cfg: Config, limit: Limit) {
    var m := MotionOf(s, cfg);
    match limit
    case Fence =>
      cfg.bounds.Some? &&
      var lo, hi := cfg.bounds.value.lo, cfg.bounds.value.hi;
      !(lo.x <= m.pos.x <= hi.x && lo.y <= m.pos.y <= hi.y && lo.z <= m.pos.z <= hi.z)
    case HorizontalSpeed =>
      cfg.maxVelXy < 0.0 || m.vel.x * m.vel.x + m.vel.y * m.vel.y > cfg.maxVelXy * cfg.maxVelXy
    case VerticalSpeed => m.vel.z > cfg.maxVelZ || -m.vel.z > cfg.maxVelZ
  }

  function SignalOf(limit: Limit): Signal {
    match limit case Fence => Geofence case HorizontalSpeed => VelocityXY case VerticalSpeed => VelocityZ
  }

  predicate Flag(m: Limits, limit: Limit) {
    match limit case Fence => m.fence case HorizontalSpeed => m.fastXY case VerticalSpeed => m.fastZ
  }

  /** Turn k brings a new pose that exceeds the limit, or one that does not. */
  predicate Violates(xs: seq<Sample>, cfg: Config, k: nat, limit: Limit)
    requires k < |xs|
  {
    NewPose(xs[k].s, cfg) && Exceeds(xs[k].s, cfg, limit)
  }

  predicate Respects(xs: seq<Sample>, cfg: Config, k: nat, limit: Limit)
    requires k < |xs|
  {
    NewPose(xs[k].s, cfg) && !Exceeds(xs[k].s, cfg, limit)
  }

  lemma RaisedLimit(xs: seq<Sample>, cfg: Config, k: nat, limit: Limit)
    requires k < |xs|
    ensures Raised(xs, cfg, k, SignalOf(limit)) <==>
            Violates(xs, cfg, k, limit) && !Flag(HealthAt(xs, cfg, k).limits, limit)
  {
    var h, s := HealthAt(xs, cfg, k), xs[k].s;
    NotActivity(h.activity, s, cfg, limit);
    InLimits(h.limits, s, cfg, limit);
  }

  lemma NotActivity(a: Activity, s: Sensors, cfg: Config, limit: Limit)
    ensures SignalOf(limit) !in ActivitySignals(a, s, cfg)
  {
  }

  lemma InLimits(m: Limits, s: Sensors, cfg: Config, limit: Limit)
    ensures SignalOf(limit) in LimitSignals(m, s, cfg) <==>
            NewPose(s, cfg) && !Flag(m, limit) && Exceeds(s, cfg, limit)
  {
  }

  /** The remembered flag is the verdict of the last new pose. */
  lemma {:induction false} FlagIsLastVerdict(xs: seq<Sample>, cfg: Config, k: nat, limit: Limit)
    requires k <= |xs|
    ensures Flag(HealthAt(xs, cfg, k).limits, limit) <==>
            exists j :: 0 <= j < k && Violates(xs, cfg, j, limit) &&
                        forall i :: j < i < k ==> !Respects(xs, cfg, i, limit)
  {
    if k > 0 {
      FlagIsLastVerdict(xs, cfg, k - 1, limit);
      if NewPose(xs[k - 1].s, cfg) {
        if Exceeds(xs[k - 1].s, cfg, limit) {
          assert Violates(xs, cfg, k - 1, limit);
        } else {
          assert Respects(xs, cfg, k - 1, limit);
        }
      }
    }
  }

  /**
   A fence or speed signal is raised exactly once per maximal stretch of violating new poses: at a
   violating new pose such that every earlier violating one is followed, before it, by a new pose
   within the limit.
   */
  lemma LimitSignalOncePerViolation(xs: seq<Sample>, cfg: Config, k: nat, limit: Limit)
    requires k < |xs|
    ensures Raised(xs, cfg, k, SignalOf(limit)) <==>
            Violates(xs, cfg, k, limit) &&
            forall j :: 0 <= j < k && Violates(xs, cfg, j, limit) ==>
              exists i :: j < i < k && Respects(xs, cfg, i, limit)
  {
    RaisedLimit(xs, cfg, k, limit);
    FlagIsLastVerdict(xs, cfg, k, limit);
  }

  // ---------------------------------------------------- lost streams

  datatype Stream = EstimateStream | PositionStream | VelocityStream | ImuStream | FcuStream

  /** Whether the stream is active in turn k. */
  predicate Active(xs: seq<Sample>, k: nat, stream: Stream)
    requires k < |xs|
  {
    match stream
    case EstimateStream => xs[k].s.estimate.isActive
    case PositionStream => xs[k].s.localPos.isActive
    case VelocityStream => xs[k].s.localVel.isActive
    case ImuStream => xs[k].s.imu.isActive
    case FcuStream => xs[k].s.fcu.isActive
  }

  /** The FCU state is always watched; the feedback only of the backends that use it, and by its source. */
  predicate Watched(xs: seq<Sample>, cfg: Config, k: nat, stream: Stream)
    requires k < |xs|
  {
    match stream
    case FcuStream => true
    case EstimateStream => FedByControlState(cfg) && xs[k].s.source == RigidEstimate
    case _ => FedByControlState(cfg) && xs[k].s.source == MavrosLocal
  }

  function TimeoutOf(stream: Stream): Signal {
    match stream
    case EstimateStream => TimeoutEstimate
    case PositionStream => TimeoutLocalPosition
    case VelocityStream => TimeoutLocalVelocity
    case ImuStream => TimeoutImu
    case FcuStream => TimeoutFcuState
  }

  predicate Remembered(a: Activity, stream: Stream) {
    match stream
    case EstimateStream => a.estimate
    case PositionStream => a.localPos
    case VelocityStream => a.localVel
    case ImuStream => a.imu
    case FcuStream => a.fcu
  }

  /** The stream was watched and active in turn j, and not watched after it before turn k. */
  predicate LastSeenActive(xs: seq<Sample>, cfg: Config, j: nat, k: nat, stream: Stream)
    requires k <= |xs|
  {
    && j < k && Watched(xs, cfg, j, stream) && Active(xs, j, stream)
    && forall i :: j < i < k ==> !Watched(xs, cfg, i, stream)
  }

  ghost predicate SeenActive(xs: seq<Sample>, cfg: Config, k: nat, stream: Stream)
    requires k <= |xs|
  {
    exists j :: 0 <= j < k && LastSeenActive(xs, cfg, j, k, stream)
  }

  lemma SeenMoves(xs: seq<Sample>, cfg: Config, k: nat, stream: Stream)
    requires k < |xs|
    ensures SeenActive(xs, cfg, k + 1, stream) <==>
            if Watched(xs, cfg, k, stream) then Active(xs, k, stream) else SeenActive(xs, cfg, k, stream)
  {
    if SeenActive(xs, cfg, k + 1, stream) {
      var j :| 0 <= j < k + 1 && LastSeenActive(xs, cfg, j, k + 1, stream);
      if j < k {
        assert LastSeenActive(xs, cfg, j, k, stream);
      }
    }
    if Watched(xs, cfg, k, stream) && Active(xs, k, stream) {
      assert LastSeenActive(xs, cfg, k, k + 1, stream);
    } else if !Watched(xs, cfg, k, stream) && SeenActive(xs, cfg, k, stream) {
      var j :| 0 <= j < k && LastSeenActive(xs, cfg, j, k, stream);
      assert LastSeenActive(xs, cfg, j, k + 1, stream);
    }
  }

  lemma {:induction false} ActivityIsLastSeen(xs: seq<Sample>, cfg: Config, k: nat, stream: Stream)
    requires k <= |xs|
    ensures Remembered(HealthAt(xs, cfg, k).activity, stream) <==> SeenActive(xs, cfg, k, stream)
  {
    if k > 0 {
      hide Watched, Active;
      ActivityIsLastSeen(xs, cfg, k - 1, stream);
      ActivityMoves(xs, cfg, k - 1, stream);
      SeenMoves(xs, cfg, k - 1, stream);
      hide SeenActive, HealthAt;
    }
  }

  lemma ActivityMoves(xs: seq<Sample>, cfg: Config, k: nat, stream: Stream)
    requires k < |xs|
    ensures Remembered(HealthAt(xs, cfg, k + 1).activity, stream) ==
            if Watched(xs, cfg, k, stream) then Active(xs, k, stream)
            else Remembered(HealthAt(xs, cfg, k).activity, stream)
  {
    hide Estimated, Compared, LimitsAfter;
  }

  lemma RaisedTimeout(xs: seq<Sample>, cfg: Config, k: nat, stream: Stream)
    requires k < |xs|
    ensures Raised(xs, cfg, k, TimeoutOf(stream)) <==>
            Watched(xs, cfg, k, stream) && !Active(xs, k, stream) && Remembered(HealthAt(xs, cfg, k).activity, stream)
  {
    hide HealthAt;
    var h, s := HealthAt(xs, cfg, k), xs[k].s;
    InActivity(h.activity, xs, cfg, k, stream);
    NotLimit(h.limits, s, cfg, stream);
    hide ActivitySignals, LimitSignals, Estimated, Unusable, Watched, Active, Remembered;
  }

  lemma InActivity(a: Activity, xs: seq<Sample>, cfg: Config, k: nat, stream: Stream)
    requires k < |xs|
    ensures TimeoutOf(stream) in ActivitySignals(a, xs[k].s, cfg) <==>
            Watched(xs, cfg, k, stream) && !Active(xs, k, stream) && Remembered(a, stream)
  {
  }

  lemma NotLimit(m: Limits, s: Sensors, cfg: Config, stream: Stream)
    ensures TimeoutOf(stream) !in LimitSignals(m, s, cfg) && TimeoutOf(stream) != EstimateUnusable
  {
    hide OutsideFence, TooFastXY, TooFastZ, PoseNew;
  }

  /**
   A stream's timeout is raised exactly when the stream is watched and inactive, and was active at the
   last turn before that watched it.
   */
  lemma TimeoutIsRaisedOnLoss(xs: seq<Sample>, cfg: Config, k: nat, stream: Stream)
    requires k < |xs|
    ensures Raised(xs, cfg, k, TimeoutOf(stream)) <==>
            Watched(xs, cfg, k, stream) && !Active(xs, k, stream) && SeenActive(xs, cfg, k, stream)
  {
    RaisedTimeout(xs, cfg, k, stream);
    ActivityIsLastSeen(xs, cfg, k, stream);
  }

  /** For the FCU state that is the turn before, with every backend and every source of feedback. */
  lemma FcuTimeoutIsRaisedOnLoss(xs: seq<Sample>, cfg: Config, k: nat)
    requires k < |xs|
    ensures Raised(xs, cfg, k, TimeoutFcuState) <==>
            k > 0 && xs[k - 1].s.fcu.isActive && !xs[k].s.fcu.isActive
  {
    hide Raised;
    TimeoutIsRaisedOnLoss(xs, cfg, k, FcuStream);
    if k > 0 {
      forall j | 0 <= j < k && LastSeenActive(xs, cfg, j, k, FcuStream) ensures j == k - 1 {
        assert Watched(xs, cfg, k - 1, FcuStream);
      }
      if xs[k - 1].s.fcu.isActive {
        assert LastSeenActive(xs, cfg, k - 1, k, FcuStream);
      }
    }
  }

  // ------------------------------------------------- the two positions

  predicate SeenBefore(xs: seq<Sample>, k: nat, canonical: bool)
    requires k <= |xs|
  {
    exists j :: 0 <= j < k && if canonical then xs[j].s.canonicalPose.isNew else xs[j].s.localPos.isNew
  }

  /** Turn k compares the positions: one of them is new and both have been received. */
  predicate Compares(xs: seq<Sample>, k: nat)
    requires k < |xs|
  {
    && (xs[k].s.canonicalPose.isNew || xs[k].s.localPos.isNew)
    && SeenBefore(xs, k + 1, true) && SeenBefore(xs, k + 1, false)
  }

  lemma {:induction false} SightingsAreRemembered(xs: seq<Sample>, cfg: Config, k: nat)
    requires k <= |xs|
    ensures HealthAt(xs, cfg, k).comparison.sawCanonical <==> SeenBefore(xs, k, true)
    ensures HealthAt(xs, cfg, k).comparison.sawLocal <==> SeenBefore(xs, k, false)
  {
    if k > 0 {
      hide ActivityAfter, LimitsAfter, Estimated, FarApart;
      SightingsAreRemembered(xs, cfg, k - 1);
    }
  }

  /** Turn j is the last before turn k that compares the positions. */
  predicate LastCompared(xs: seq<Sample>, j: nat, k: nat)
    requires k <= |xs|
  {
    j < k && Compares(xs, j) && forall i :: j < i < k ==> !Compares(xs, i)
  }

  /** More than a metre apart. */
  predicate Apart(xs: seq<Sample>, k: nat)
    requires k < |xs|
  {
    var p, q := xs[k].s.canonical, xs[k].s.local.pos;
    (p.x - q.x) * (p.x - q.x) + (p.y - q.y) * (p.y - q.y) + (p.z - q.z) * (p.z - q.z) > 1.0
  }

  ghost predicate EverCompared(xs: seq<Sample>, k: nat)
    requires k <= |xs|
  {
    exists j :: 0 <= j < k && Compares(xs, j)
  }

  lemma EverComparedMoves(xs: seq<Sample>, k: nat)
    requires k < |xs|
    ensures EverCompared(xs, k + 1) <==> EverCompared(xs, k) || Compares(xs, k)
  {
    hide Compares;
  }

  ghost predicate LastApart(xs: seq<Sample>, k: nat)
    requires k <= |xs|
  {
    exists j :: 0 <= j < k && LastCompared(xs, j, k) && Apart(xs, j)
  }

  lemma LastApartMoves(xs: seq<Sample>, k: nat)
    requires k < |xs|
    ensures LastApart(xs, k + 1) <==> if Compares(xs, k) then Apart(xs, k) else LastApart(xs, k)
  {
    hide Compares, Apart;
    if LastApart(xs, k + 1) {
      var j :| 0 <= j < k + 1 && LastCompared(xs, j, k + 1) && Apart(xs, j);
      if j < k {
        assert LastCompared(xs, j, k);
      }
    }
    if Compares(xs, k) && Apart(xs, k) {
      assert LastCompared(xs, k, k + 1);
    } else if !Compares(xs, k) && LastApart(xs, k) {
      var j :| 0 <= j < k && LastCompared(xs, j, k) && Apart(xs, j);
      assert LastCompared(xs, j, k + 1);
    }
  }

  /**
   The cached distance is available once a turn has compared the positions, and exceeded exactly when they
   were more than a metre apart at the last turn that did.
   */
  lemma {:induction false} DistanceIsLastComparison(xs: seq<Sample>, cfg: Config, k: nat)
    requires k <= |xs|
    ensures var d := HealthAt(xs, cfg, k).comparison.distance;
            (d.available <==> EverCompared(xs, k)) && (d.exceeded <==> LastApart(xs, k))
  {
    hide HealthAt, LastApart, EverCompared, Compares, Apart;
    if k == 0 {
      NothingCompared(xs, cfg);
    } else {
      EverComparedMoves(xs, k - 1);
      DistanceIsLastComparison(xs, cfg, k - 1);
      DistanceMoves(xs, cfg, k - 1);
      LastApartMoves(xs, k - 1);
    }
  }

  lemma NothingCompared(xs: seq<Sample>, cfg: Config)
    ensures HealthAt(xs, cfg, 0).comparison.distance == Distance(false, false)
    ensures !EverCompared(xs, 0) && !LastApart(xs, 0)
  {
  }

  lemma DistanceMoves(xs: seq<Sample>, cfg: Config, k: nat)
    requires k < |xs|
    ensures HealthAt(xs, cfg, k + 1).comparison.distance ==
            if Compares(xs, k) then Distance(true, Apart(xs, k)) else HealthAt(xs, cfg, k).comparison.distance
  {
    SightingsAreRemembered(xs, cfg, k + 1);
    SightingsAreRemembered(xs, cfg, k);
    hide ActivityAfter, LimitsAfter, Estimated, SeenBefore;
  }
}
