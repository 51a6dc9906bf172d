/**
 One owner turn of the flight runtime on values: the health monitor, the tick of the active leaf,
 the choice of a transition under the fixed preemption order, exit and entry, the debug monitor,
 and what is kept for the next turn.
 */
module Flight {
  import opened Options
  import opened Ticks
  import opened Sensors
  import opened Trajectory
  import opened FlightTypes
  import opened HealthMonitor
  import opened DebugMonitor
  import opened TakeoffStates
  import opened GroundStates
  import opened LandingLeaf
  import Custom1

  const CAPACITY: nat := 4096
  const BATCH: nat := 64
  const REQUEST_TIMEOUT: int := 10 * SECOND

  datatype Kind =
    | SelfCheck | Ready | TakeoffInit | TakeoffOffboard | TakeoffArm | TakeoffAscending
    | Hovering | Tracking | Landed

  /** The active leaf and its data. */
  datatype Leaf =
    | AtSelfCheck(log: Timer) | AtReady | AtInit(init: Init) | AtOffboard(offboard: Offboard) | AtArm(arm: Arm)
    | AtAscending(ascent: Ascent) | AtHover(publish: Timer) | AtCustom1(tracking: Custom1.Tracking)
    | AtLanding(landing: Landing)

  function KindOf(leaf: Leaf): Kind {
    match leaf
    case AtSelfCheck(_) => SelfCheck
    case AtReady => Ready
    case AtInit(_) => TakeoffInit
    case AtOffboard(_) => TakeoffOffboard
    case AtArm(_) => TakeoffArm
    case AtAscending(_) => TakeoffAscending
    case AtHover(_) => Hovering
    case AtCustom1(_) => Tracking
    case AtLanding(_) => Landed
  }

  datatype State = State(
    leaf: Leaf, enteredAt: int, health: Health, debug: Debug, pending: seq<Command>, deferred: seq<Signal>,
    sp: Setpoint, requested: bool, sh: Custom1.Shared)

  /** What one turn is given: the time, the sensors, how many IMU messages arrived, and the oracles. */
  datatype Input = Input(now: int, s: Sensors, imu: nat, o: Custom1.Oracle)

  function Initial(sh: Custom1.Shared, now: int): State {
    State(AtSelfCheck(STOPPED.Start(now)), now, FRESH_HEALTH, Debug(None, None), [], [], NO_SETPOINT, false, sh)
  }

  // ------------------------------------------------------------------ commands

  function BatchSize(pending: seq<Command>): nat {
    if |pending| < BATCH then |pending| else BATCH
  }

  function Batch(st: State): seq<Command> {
    st.pending[..BatchSize(st.pending)]
  }

  // ------------------------------------------------------------------- signals

  function Repeated(ss: seq<Signal>, n: nat): seq<Signal> {
    if n == 0 then [] else Repeated(ss, n - 1) + ss
  }

  /** Everything the turn has heard before the leaf ticks: IMU facts, deferred signals, health edges. */
  function Heard(st: State, i: Input, cfg: Config): seq<Signal> {
    Repeated(ImuSignals(st.sp, cfg), i.imu) + st.deferred + HealthSignals(st.health, i.s, cfg, i.now)
  }

  function FirstIndex(ss: seq<Signal>, x: Signal): (k: nat)
    ensures k <= |ss|
    ensures x in ss ==> k < |ss| && ss[k] == x
    ensures forall j :: 0 <= j < k ==> ss[j] != x
  {
    if ss == [] || ss[0] == x then 0 else 1 + FirstIndex(ss[1..], x)
  }

  // ------------------------------------------------------------- the leaf's tick

  /** What the leaf's tick changes and emits. */
  datatype Beat = Beat(leaf: Leaf, effects: seq<Effect>, signals: seq<Signal>, sp: Setpoint, sh: Custom1.Shared)

  function TrackingBeat(w: Custom1.Work): Beat {
    Beat(AtCustom1(w.c), w.fx, w.sg, w.sp, w.sh)
  }

  function LeafTick(st: State, i: Input, cfg: Config): Beat {
    var s, now, b, elapsed := i.s, i.now, cfg.backend, i.now - st.enteredAt;
    match st.leaf
    case AtSelfCheck(log) => Beat(AtSelfCheck(SelfCheckTick(log, now)), [], [], st.sp, st.sh)
    case AtReady => Beat(AtReady, [], [], st.sp, st.sh)
    case AtInit(d) => var t := InitTick(d, s, now); Beat(AtInit(t.leaf), t.effects, t.signals, st.sp, st.sh)
    case AtOffboard(d) => var t := OffboardTick(d, s, now); Beat(AtOffboard(t.leaf), t.effects, t.signals, st.sp, st.sh)
    case AtArm(d) => var t := ArmTick(d, s, now); Beat(AtArm(t.leaf), t.effects, t.signals, st.sp, st.sh)
    case AtAscending(d) =>
      var t := AscentTick(d, s, b, st.sp.pos.z, now, elapsed);
      Beat(AtAscending(t.leaf), t.effects, t.signals, st.sp, st.sh)
    case AtHover(t) => Beat(AtHover(t.Ran(now, SETPOINT_INTERVAL)), Publishing(t, now), [], st.sp, st.sh)
    case AtCustom1(c) =>
      TrackingBeat(Custom1.Tick(Custom1.Work(c, st.sh, st.sp, [], []), Custom1.Env(cfg, s, now, i.o)))
    case AtLanding(d) =>
      var t := LandingTick(d, s, b, now, elapsed);
      Beat(AtLanding(t.leaf), t.effects, t.signals, LandingTickSetpoint(d, s, b, now, st.sp), st.sh)
  }

  // ------------------------------------------------------------------ the choice

  /** A transition names the signal or command it consumes, if it consumes one. */
  datatype Choice = Stay | Enter(kind: Kind, signal: Option<Signal>, command: bool)

  predicate Safety(x: Signal) {
    !Completion(x)
  }

  /** The safety signal that counts, in the order of the rules. */
  function FirstSafety(ss: seq<Signal>): (r: Option<Signal>)
    ensures r.Some? ==> r.value in ss && Safety(r.value)
    ensures r == None ==> forall x :: x in ss ==> !Safety(x)
  {
    if Geofence in ss then Some(Geofence)
    else if VelocityXY in ss then Some(VelocityXY)
    else if VelocityZ in ss then Some(VelocityZ)
    else if SaturationXY in ss then Some(SaturationXY)
    else if SaturationZ in ss then Some(SaturationZ)
    else if EstimateUnusable in ss then Some(EstimateUnusable)
    else if TimeoutEstimate in ss then Some(TimeoutEstimate)
    else if TimeoutLocalPosition in ss then Some(TimeoutLocalPosition)
    else if TimeoutLocalVelocity in ss then Some(TimeoutLocalVelocity)
    else if TimeoutImu in ss then Some(TimeoutImu)
    else if TimeoutFcuState in ss then Some(TimeoutFcuState)
    else None
  }

  /** What a choice looks at. */
  datatype View = View(commands: seq<Command>, signals: seq<Signal>, s: Sensors, backend: Backend, distance: Distance,
                       elapsed: int, requested: bool, referenceReady: bool)

  function On(signal: Signal, kind: Kind): Choice {
    Enter(kind, Some(signal), false)
  }

  function ByCommand(kind: Kind): Choice {
    Enter(kind, None, true)
  }

  function Unprompted(kind: Kind): Choice {
    Enter(kind, None, false)
  }

  /** Safety edges come before Land; both lead to Landing. */
  function NormalPreemption(v: View): Choice {
    match FirstSafety(v.signals)
    case Some(x) => On(x, Landed)
    case None => if Land in v.commands then ByCommand(Landed) else Stay
  }

  function DistancePreemption(v: View): Choice {
    if NormalPreemption(v) != Stay then NormalPreemption(v)
    else if v.distance.exceeded then Unprompted(Landed)
    else Stay
  }

  function Choose(kind: Kind, v: View): Choice {
    match kind
    case SelfCheck => if SensorsReady(v.s, v.backend) then Unprompted(Ready) else Stay
    case Ready =>
      if NormalPreemption(v) != Stay then NormalPreemption(v)
      else if Airborne(v.s, v.backend) then Unprompted(Landed)
      else if Takeoff in v.commands && v.distance.available && !v.distance.exceeded then ByCommand(TakeoffInit)
      else if !SensorsReady(v.s, v.backend) then Unprompted(SelfCheck)
      else Stay
    case TakeoffInit =>
      if DistancePreemption(v) != Stay then DistancePreemption(v)
      else if v.s.armed then Unprompted(Ready)
      else if AltctlReady in v.signals then On(AltctlReady, TakeoffOffboard)
      else if v.elapsed > REQUEST_TIMEOUT then Unprompted(Landed)
      else Stay
    case TakeoffOffboard =>
      if DistancePreemption(v) != Stay then DistancePreemption(v)
      else if v.s.armed then Unprompted(Ready)
      else if OffboardReady in v.signals then On(OffboardReady, TakeoffArm)
      else if v.elapsed > REQUEST_TIMEOUT then Unprompted(Landed)
      else Stay
    case TakeoffArm =>
      if DistancePreemption(v) != Stay then DistancePreemption(v)
      else if ArmReady in v.signals then On(ArmReady, TakeoffAscending)
      else if v.elapsed > REQUEST_TIMEOUT then Unprompted(Landed)
      else Stay
    case TakeoffAscending =>
      if DistancePreemption(v) != Stay then DistancePreemption(v)
      else if Hover in v.commands then ByCommand(Hovering)
      else if Track in v.commands && v.referenceReady then ByCommand(Tracking)
      else if AltitudeReached in v.signals then On(AltitudeReached, Hovering)
      else if TakeoffTimeout in v.signals then On(TakeoffTimeout, Landed)
      else if v.requested && v.referenceReady then Unprompted(Tracking)
      else Stay
    case Hovering =>
      if DistancePreemption(v) != Stay then DistancePreemption(v)
      else if Track in v.commands && v.referenceReady then ByCommand(Tracking)
      else if v.requested && v.referenceReady then Unprompted(Tracking)
      else Stay
    case Tracking =>
      if DistancePreemption(v) != Stay then DistancePreemption(v)
      else if Hover in v.commands then ByCommand(Hovering)
      else if ReferenceFinished in v.signals then On(ReferenceFinished, Hovering)
      else Stay
    case Landed =>
      if Touchdown in v.signals then On(Touchdown, SelfCheck) else Stay
  }

  /** A planner segment is ready near the present position; only PX4_LOCAL asks for one. */
  predicate ReferenceReady(buf: Buffer, s: Sensors, cfg: Config) {
    var here := World(s, cfg.backend).pos;
    cfg.backend == Px4Local ==>
      PlanMatchesHover(buf.active, here, cfg.hoverXyTol, cfg.hoverZTol) ||
      PlanMatchesHover(buf.pending, here, cfg.hoverXyTol, cfg.hoverZTol)
  }

  // ----------------------------------------------------------------------- entry

  datatype Entry = Entry(leaf: Leaf, effects: seq<Effect>, sp: Setpoint, requested: bool, sh: Custom1.Shared)

  function EnterLeaf(kind: Kind, i: Input, cfg: Config, sp: Setpoint, requested: bool, sh: Custom1.Shared): Entry {
    var s, now := i.s, i.now;
    match kind
    case SelfCheck => Entry(AtSelfCheck(STOPPED.Start(now)), [], sp, requested, sh)
    case Ready => Entry(AtReady, ReadyEntry(s, cfg.backend, now), sp, requested, sh)
    case TakeoffInit =>
      Entry(AtInit(InitEntered(cfg, now)), InitEntry(cfg, now), TakeoffSetpoint(cfg, s), requested, sh)
    case TakeoffOffboard => Entry(AtOffboard(OffboardEntered(now)), [SetpointOut(now)], sp, requested, sh)
    case TakeoffArm => Entry(AtArm(ArmEntered(now)), [SetpointOut(now)], sp, requested, sh)
    case TakeoffAscending => Entry(AtAscending(AscentEntered(now)), [SetpointOut(now)], sp, requested, sh)
    case Hovering => Entry(AtHover(STOPPED.Start(now)), [SetpointOut(now)], HoverSetpoint(cfg, s), requested, sh)
    case Tracking =>
      var e := Custom1.Env(cfg, s, now, i.o);
      Entry(AtCustom1(Custom1.Entered(sh, e)), Custom1.EntryEffects(cfg, now), sp, false, Custom1.EnteredShared(sh, e))
    case Landed =>
      var d := LandingEntered(s, cfg.backend, now);
      Entry(AtLanding(d), [SetpointOut(now)], LandingSetpoint(d.vz), false, sh)
  }

  function ExitLeaf(leaf: Leaf, sh: Custom1.Shared): Custom1.Shared {
    if leaf.AtCustom1? then Custom1.ExitedShared(sh, leaf.tracking) else sh
  }

  /** Commands that did not cause a transition are handed to the leaf: Track is latched. */
  predicate Latched(leaf: Leaf, requested: bool, batch: seq<Command>) {
    requested || ((leaf.AtHover? || leaf.AtAscending?) && Track in batch)
  }

  // ------------------------------------------------------------------- the turn

  /** The leaf's own signals that the choice did not consume; health and deferred ones are dropped. */
  function Unconsumed(heard: seq<Signal>, own: seq<Signal>, choice: Choice): seq<Signal> {
    if choice == Stay || choice.signal == None then own
    else
      var k := FirstIndex(heard + own, choice.signal.value);
      if |heard| <= k < |heard| + |own| then own[..k - |heard|] + own[k - |heard| + 1..] else own
  }

  function Diagnostics(st: State, i: Input, cfg: Config, own: seq<Signal>, choice: Choice): seq<Diagnostic> {
    Commanded(Batch(st)) + Signalled(HealthSignals(st.health, i.s, cfg, i.now)) +
    Signalled(Repeated(ImuSignals(st.sp, cfg), i.imu)) + Signalled(own) +
    if choice.Enter? && choice.signal == None && !choice.command then [Unnamed] else []
  }

  /** Everything a turn did. */
  datatype Outcome = Outcome(post: State, effects: seq<Effect>, signals: seq<Signal>, choice: Choice, again: bool)

  function ViewOf(st: State, i: Input, cfg: Config, beat: Beat): View {
    View(Batch(st), Heard(st, i, cfg) + beat.signals, i.s, cfg.backend,
         HealthAfter(st.health, i.s, cfg, i.now).comparison.distance, i.now - st.enteredAt, st.requested,
         ReferenceReady(beat.sh.buffer, i.s, cfg))
  }

  /** The rest of a turn, once the leaf has ticked and the choice is made. */
  function Concluded(st: State, i: Input, cfg: Config, beat: Beat, choice: Choice): Outcome {
    var health := HealthAfter(st.health, i.s, cfg, i.now);
    var rest := st.pending[BatchSize(st.pending)..];
    var heard := Heard(st, i, cfg);
    var diagnosed := Diagnostics(st, i, cfg, beat.signals, choice) != [];
    var debugged, fx := DebugTicked(st.debug, i.now), DebugEffects(st.debug, i.now, diagnosed);
    var deferred := Unconsumed(heard, beat.signals, choice);
    match choice
    case Stay =>
      Outcome(State(beat.leaf, st.enteredAt, health, debugged, rest, deferred, beat.sp,
                    Latched(beat.leaf, st.requested, Batch(st)), beat.sh),
              beat.effects + fx, heard + beat.signals, choice, rest != [] || deferred != [])
    case Enter(kind, _, _) =>
      var n := EnterLeaf(kind, i, cfg, beat.sp, st.requested, ExitLeaf(beat.leaf, beat.sh));
      Outcome(State(n.leaf, i.now, health, debugged, rest, deferred, n.sp, n.requested, n.sh),
              beat.effects + n.effects + fx, heard + beat.signals, choice, true)
  }

  function TurnWith(st: State, i: Input, cfg: Config, beat: Beat): Outcome {
    Concluded(st, i, cfg, beat, Choose(KindOf(st.leaf), ViewOf(st, i, cfg, beat)))
  }

  function Turn(st: State, i: Input, cfg: Config): Outcome {
    TurnWith(st, i, cfg, LeafTick(st, i, cfg))
  }

  /** A command is accepted while there is room for it. */
  function Posted(st: State, c: Command): State {
    if |st.pending| >= CAPACITY then st else st.(pending := st.pending + [c])
  }

  // ------------------------------------------------------------------- wake-up

  /** The deadline of a leaf that is left, or gives something up, some time after it was entered. */
  function EntryDeadline(st: State): Option<int> {
    match st.leaf
    case AtInit(_) => Some(StrictDueAt(st.enteredAt, REQUEST_TIMEOUT))
    case AtOffboard(_) => Some(StrictDueAt(st.enteredAt, REQUEST_TIMEOUT))
    case AtArm(_) => Some(StrictDueAt(st.enteredAt, REQUEST_TIMEOUT))
    case AtAscending(d) => if d.timedOut then None else Some(StrictDueAt(st.enteredAt, ASCENDING_TIMEOUT))
    case AtLanding(d) => if d.reported then None else Some(DueAt(st.enteredAt, d.limit))
    case _ => None
  }

  function LeafWake(st: State, cfg: Config, s: Sensors, now: int): Option<int> {
    match st.leaf
    case AtSelfCheck(log) => log.DueAfter(SELF_CHECK_LOG_INTERVAL)
    case AtReady => None
    case AtInit(d) => InitWake(d)
    case AtOffboard(d) => OffboardWake(d)
    case AtArm(d) => ArmWake(d)
    case AtAscending(d) => AscentWake(d)
    case AtHover(t) => t.DueAfter(SETPOINT_INTERVAL)
    case AtCustom1(c) => Custom1.Wake(c, st.sh, cfg, s, now)
    case AtLanding(d) => LandingWake(d)
  }

  /** When the owner wants its next turn, if nothing new arrives: `now` is the time of the last turn. */
  function NextWake(st: State, cfg: Config, s: Sensors, now: int): Option<int> {
    Earlier(Earlier(Earlier(HealthWake(st.health, cfg), Some(DebugWake(st.debug, now))),
                    LeafWake(st, cfg, s, now)),
            EntryDeadline(st))
  }
}
