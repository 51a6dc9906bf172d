/** Turns and runs that show the exceptions in the theorems about the wake-up to be real. */
module WakeWitness {
  import opened Options
  import opened Ticks
  import opened Sensors
  import opened Trajectory
  import opened ResultBuffer
  import opened FlightTypes
  import opened HealthMonitor
  import opened DebugMonitor
  import opened TakeoffStates
  import opened Flight
  import opened FlightRuns
  import Custom1
  import opened Custom1Wake
  import opened TrackingWake
  import opened FlightWake
  import opened WakeRuns

  const MS: int := 1_000_000
  const ALIVE := Stats(true, true)

  /** Everything is received and usable, at rest at the origin. */
  function AllWell(armed: bool): Sensors {
    Sensors(RigidEstimate, ALIVE, ALIVE, ALIVE, ALIVE, ALIVE, ALIVE, true, true, true,
            Motion(ZERO3, ZERO3), Motion(ZERO3, ZERO3), ZERO3, true, armed, OFFBOARD, None)
  }

  function Setup(backend: Backend, plannerStream: bool): Config {
    Config(backend, false, plannerStream, true, 1.0, 0, false, 50 * MS, 10 * MS, 100 * MS, 50 * MS, 0, 1.0, 1.0,
           SECOND, 1.0, 1.0, 1.0, 1.0, None)
  }

  const ANSWERS := Custom1.Oracle(None, true, Some((NO_SETPOINT, Target(ZERO3, 0.5))), NO_SETPOINT)

  /** Nothing is wrong then: no signal is raised, and the two poses agree. */
  lemma AllIsWell(h: Health, armed: bool, backend: Backend, plannerStream: bool, now: int)
    requires backend != Px4Local
    ensures var cfg, s := Setup(backend, plannerStream), AllWell(armed);
            && HealthSignals(h, s, cfg, now) == []
            && HealthAfter(h, s, cfg, now).comparison.distance == Distance(true, false)
            && HealthWake(HealthAfter(h, s, cfg, now), cfg) == None
            && (forall sp :: ImuSignals(sp, cfg) == [])
  {
  }

  /** A turn without commands or signals in which the tracking leaf stays. */
  lemma TrackingStays(st: State, i: Input, cfg: Config)
    requires st.leaf.AtCustom1? && st.pending == [] && st.deferred == [] && i.imu == 0
    requires HealthSignals(st.health, i.s, cfg, i.now) == []
    requires !HealthAfter(st.health, i.s, cfg, i.now).comparison.distance.exceeded
    requires LeafTick(st, i, cfg).signals == [] && LeafTick(st, i, cfg).leaf.AtCustom1?
    ensures var beat, out := LeafTick(st, i, cfg), Turn(st, i, cfg);
            && !out.again && out.choice == Stay && out.post.leaf == beat.leaf && out.post.sh == beat.sh
            && out.post.health == HealthAfter(st.health, i.s, cfg, i.now)
            && out.post.debug == DebugTicked(st.debug, i.now)
            && (forall x :: x in beat.effects ==> x in out.effects)
  {
    hide LeafTick, HealthAfter, HealthSignals, DebugEffects, DebugTicked, ReferenceReady, Latched;
    NothingHeard(st, i, cfg);
    hide Heard;
    var beat := LeafTick(st, i, cfg);
    var v := ViewOf(st, i, cfg, beat);
    assert v.commands == [] && v.signals == [];
    assert Choose(Tracking, v) == Stay;
  }

  // ------------------------------------------------------------- a window closes on nothing

  const STREAMED := Segment(ZERO3, ZERO3, ZERO3, 955_000_000, 0, 1, true)

  const NO_PROTOCOL := Custom1.Protocol(1, 0, 0, 0, false, 0, 0)

  function TrackingSince(lastPublish: int, lastSuccess: int, protocol: Custom1.Protocol): Custom1.Tracking {
    Custom1.Tracking(lastPublish, lastSuccess, ZERO3, true, false, NO_SETPOINT, true, false, 0, STOPPED, STOPPED,
                     protocol)
  }

  function Owner(c: Custom1.Tracking, sh: Custom1.Shared, printed: int): State {
    State(AtCustom1(c), 0, FRESH_HEALTH, Debug(Some(printed), Some(printed)), [], [], NO_SETPOINT, false, sh)
  }

  function Shared(buffer: Buffer, cache: Custom1.Cache, staleLog: Timer): Custom1.Shared {
    Custom1.Shared(SETPOINT_INTERVAL, staleLog, buffer, cache, Results(None, 1, 1, 1), Target(ZERO3, 0.0))
  }

  lemma StreamedIsReady(c: Custom1.Tracking, sh: Custom1.Shared, now: int)
    requires sh.buffer == Buffer(STREAMED, NO_SEGMENT) && c.armed
    ensures Custom1.StreamReady(c, sh, Setup(Dfbc, true), now) <==> 955 * MS <= now <= 1005 * MS
  {
  }

  lemma ReadyStreamTick(w: Custom1.Work, e: Custom1.Env)
    requires e.cfg.backend == Dfbc && e.cfg.plannerStream && w.c.armed && w.c.entered
    requires Custom1.PromoteDue(w, e) == w && Custom1.StreamReady(w.c, w.sh, e.cfg, e.now)
    ensures Custom1.Tick(w, e) == Custom1.DfbcUpdate(w, e, true)
  {
    ReadyMeansUsable(w, e);
    hide Custom1.ActiveLift, Custom1.MayTake, Custom1.StreamReady, Promoted, Custom1.DfbcCacheTick, Custom1.DfbcUpdate;
    assert Custom1.DfbcEnter(w, e) == w && w.(c := w.c.(armed := true)) == w;
  }

  lemma DueUpdateSucceeds(w: Custom1.Work, e: Custom1.Env)
    requires Custom1.ShouldRunSync(w, e) && w.c.entered && e.o == ANSWERS
    ensures var w' := Custom1.DfbcUpdate(w, e, true);
            && w'.fx == w.fx + [AttitudeOut(e.now)] && w'.sg == w.sg
            && w'.sh == w.sh.(attitude := Target(ZERO3, 0.5))
            && w'.c == w.c.(failures := 0, lastSuccess := e.now, held := false, lastPublish := e.now)
  {
  }

  lemma WakeAfterUpdate(st: State, cfg: Config, s: Sensors)
    requires st.leaf.AtCustom1? && st.leaf.tracking.armed && st.leaf.tracking.lastPublish == 1000 * MS
    requires st.sh.buffer == Buffer(STREAMED, NO_SEGMENT) && cfg == Setup(Dfbc, true)
    requires HealthWake(st.health, cfg) == None && st.debug == Debug(Some(900 * MS), Some(900 * MS))
    ensures NextWake(st, cfg, s, 1000 * MS) == Some(1005 * MS + 1)
  {
    StreamedIsReady(st.leaf.tracking, st.sh, 1000 * MS);
  }

  const STREAMING :=
    Owner(TrackingSince(990 * MS, 990 * MS, NO_PROTOCOL),
          Shared(Buffer(STREAMED, NO_SEGMENT), Custom1.NoCache, STOPPED), 900 * MS)

  function At(now: int, s: Sensors): Input {
    Input(now, s, 0, ANSWERS)
  }

  /** The tick at 1 s runs the control law. */
  lemma StreamUpdate(w: Custom1.Work, e: Custom1.Env)
    requires e.cfg == Setup(Dfbc, true) && e.now == 1000 * MS && e.o == ANSWERS
    requires w.sh.buffer == Buffer(STREAMED, NO_SEGMENT) && w.c.armed && w.c.entered && w.c.lastPublish == 990 * MS
    ensures Custom1.Tick(w, e) == Custom1.DfbcUpdate(w, e, true) && Custom1.ShouldRunSync(w, e)
  {
    StreamedIsReady(w.c, w.sh, e.now);
    assert Custom1.PromoteDue(w, e) == w;
    hide Custom1.StreamReady, Custom1.PromoteDue, Custom1.Tick, Custom1.DfbcUpdate;
    ReadyStreamTick(w, e);
  }

  lemma StreamingIsUsable(i: Input)
    requires i.now == 1000 * MS
    ensures Sound(STREAMING) && Usable(STREAMING, i, Setup(Dfbc, true))
  {
  }

  lemma StreamingTick(i: Input)
    requires i == At(1000 * MS, AllWell(true))
    ensures var beat := LeafTick(STREAMING, i, Setup(Dfbc, true));
            && beat.effects == [AttitudeOut(1000 * MS)] && beat.signals == [] && beat.leaf.AtCustom1?
            && beat.leaf.tracking == TrackingSince(1000 * MS, 1000 * MS, NO_PROTOCOL)
            && beat.sh.buffer == Buffer(STREAMED, NO_SEGMENT) && beat.sh.publishPeriod == SETPOINT_INTERVAL
  {
    hide AllWell, Setup, Custom1.Tick, Custom1.DfbcUpdate, Custom1.ShouldRunSync;
    var w := Custom1.Work(STREAMING.leaf.tracking, STREAMING.sh, NO_SETPOINT, [], []);
    var e := Custom1.Env(Setup(Dfbc, true), i.s, i.now, i.o);
    StreamUpdate(w, e);
    DueUpdateSucceeds(w, e);
  }

  lemma StreamingTurn(i: Input)
    requires i == At(1000 * MS, AllWell(true))
    ensures var cfg := Setup(Dfbc, true);
            var out := Turn(STREAMING, i, cfg);
            && !out.again && AttitudeOut(1000 * MS) in out.effects && out.post.leaf.AtCustom1?
            && out.post.leaf.tracking == TrackingSince(1000 * MS, 1000 * MS, NO_PROTOCOL)
            && out.post.sh.buffer == Buffer(STREAMED, NO_SEGMENT) && out.post.sh.publishPeriod == SETPOINT_INTERVAL
            && HealthWake(out.post.health, cfg) == None && out.post.debug == Debug(Some(900 * MS), Some(900 * MS))
  {
    AllIsWell(STREAMING.health, true, Dfbc, true, i.now);
    StreamingTick(i);
    hide LeafTick, HealthSignals, HealthAfter, HealthWake, AllWell, Turn, Setup;
    assert AttitudeOut(1000 * MS) in LeafTick(STREAMING, i, Setup(Dfbc, true)).effects;
    TrackingStays(STREAMING, i, Setup(Dfbc, true));
  }

  /**
   DFBC follows a planner segment of 955 ms with a window of 50 ms. The turn at 1 s publishes an attitude
   command and asks to be woken when the window has closed; the turn then has nothing to do, because the
   next publication is due only later.
   */
  lemma WindowClosesOnNothing()
    ensures var cfg, i, i' := Setup(Dfbc, true), At(1000 * MS, AllWell(true)), At(1005 * MS + 1, Stale(AllWell(true)));
            var out := Turn(STREAMING, i, cfg);
            && Sound(STREAMING) && Usable(STREAMING, i, cfg)
            && !out.again && AttitudeOut(1000 * MS) in out.effects
            && NextWake(out.post, cfg, i.s, i.now) == Some(i'.now) && Idle(out.post, i', cfg)
  {
    var cfg, i, i' := Setup(Dfbc, true), At(1000 * MS, AllWell(true)), At(1005 * MS + 1, Stale(AllWell(true)));
    StreamingTurn(i);
    StreamingIsUsable(i);
    var post := Turn(STREAMING, i, cfg).post;
    WakeAfterUpdate(post, cfg, i.s);
    hide Turn, Sound, Usable, NextWake, Stale, AllWell, Idle, STREAMING;
    WakeHasWork(STREAMING, i, i', cfg);
  }

  // ------------------------------------------------------------- an output goes stale for nothing

  const SOLVING :=
    Owner(TrackingSince(990 * MS, 960 * MS, Custom1.Protocol(1, 1, 1, 0, true, 900 * MS, 2000 * MS)),
          Shared(EMPTY, Custom1.Cached(0, None), Timer(500 * MS, true)), 900 * MS)

  lemma SolvingTick(w: Custom1.Work, e: Custom1.Env)
    requires e.cfg == Setup(Nmpc, false) && e.now == 1000 * MS
    requires w.c == SOLVING.leaf.tracking && w.sh == SOLVING.sh
    ensures Custom1.Tick(w, e) == w
  {
    assert Custom1.NmpcTimeout(Custom1.NmpcConsume(Custom1.NmpcRestart(w), e), e) == w;
  }

  lemma SolvingTurn(i: Input)
    requires i == At(1000 * MS, AllWell(true))
    ensures var cfg := Setup(Nmpc, false);
            var out := Turn(SOLVING, i, cfg);
            && Sound(SOLVING) && Usable(SOLVING, i, cfg)
            && !out.again && out.post.leaf == SOLVING.leaf && out.post.sh == SOLVING.sh
            && HealthWake(out.post.health, cfg) == None && out.post.debug == Debug(Some(900 * MS), Some(900 * MS))
  {
    var cfg := Setup(Nmpc, false);
    AllIsWell(SOLVING.health, true, Nmpc, false, i.now);
    var w := Custom1.Work(SOLVING.leaf.tracking, SOLVING.sh, NO_SETPOINT, [], []);
    SolvingTick(w, Custom1.Env(cfg, i.s, i.now, i.o));
    assert Sound(SOLVING) && Usable(SOLVING, i, cfg);
    hide Custom1.Tick, HealthSignals, HealthAfter, HealthWake, AllWell, Turn, Setup, Sound, Usable;
    TrackingStays(SOLVING, i, cfg);
  }

  lemma WakeWhileSolving(st: State, s: Sensors)
    requires st.leaf == SOLVING.leaf && st.sh == SOLVING.sh
    requires HealthWake(st.health, Setup(Nmpc, false)) == None && st.debug == Debug(Some(900 * MS), Some(900 * MS))
    ensures NextWake(st, Setup(Nmpc, false), s, 1000 * MS) == Some(1010 * MS + 1)
  {
  }

  /**
   NMPC waits for a solution. The owner asks to be woken when the last output goes stale, and has nothing
   to do then: the stale output was logged half a second ago and the next publication is due only later.
   */
  lemma OutputGoesStaleForNothing()
    ensures var cfg, i, i' := Setup(Nmpc, false), At(1000 * MS, AllWell(true)), At(1010 * MS + 1, Stale(AllWell(true)));
            var out := Turn(SOLVING, i, cfg);
            && Sound(SOLVING) && Usable(SOLVING, i, cfg) && !out.again
            && NextWake(out.post, cfg, i.s, i.now) == Some(i'.now) && Idle(out.post, i', cfg)
  {
    var cfg, i, i' := Setup(Nmpc, false), At(1000 * MS, AllWell(true)), At(1010 * MS + 1, Stale(AllWell(true)));
    SolvingTurn(i);
    var post := Turn(SOLVING, i, cfg).post;
    WakeWhileSolving(post, i.s);
    assert IdleStaleOnset(post.leaf.tracking, post.sh, cfg, i.now, i'.now);
    hide Turn, Sound, Usable, NextWake, Stale, AllWell, Idle, SOLVING, IdleStaleOnset;
    WakeHasWork(SOLVING, i, i', cfg);
  }

  // ---------------------------------------------------------------- a run that makes it late

  lemma LongerRun(recs: seq<Rec>, rec: Rec, cfg: Config)
    requires IsRun(recs, cfg) && recs != [] && Between(recs[|recs| - 1].out.post, rec.pre)
    requires rec.out == Turn(rec.pre, rec.i, cfg)
    ensures IsRun(recs + [rec], cfg)
  {
    hide Turn, Between, Starts;
    assert (recs + [rec])[0] == recs[0];
  }

  lemma LongerHostRun(recs: seq<Rec>, chs: seq<seq<Change>>, rec: Rec, ch: seq<Change>, cfg: Config)
    requires IsHostRun(recs, chs, cfg) && IsRun(recs + [rec], cfg) && recs != []
    requires Follows(recs[|recs| - 1], rec, ch, cfg)
    ensures IsHostRun(recs + [rec], chs + [ch], cfg)
  {
    hide IsRun, Follows, Opens;
  }

  /** One more turn of a run at the same time, after these changes and with these commands waiting. */
  lemma Extend(recs: seq<Rec>, chs: seq<seq<Change>>, cfg: Config, commands: seq<Command>, ch: seq<Change>, i: Input)
    returns (recs': seq<Rec>, chs': seq<seq<Change>>)
    requires IsHostRun(recs, chs, cfg) && recs != [] && |commands| <= CAPACITY
    requires recs[|recs| - 1].out.post.pending == [] && recs[|recs| - 1].i.now == i.now
    requires forall k :: 0 <= k < |ch| ==> !ch[k].Arrives?
    ensures IsHostRun(recs', chs', cfg) && recs' != []
    ensures var last, post := recs'[|recs'| - 1], recs[|recs| - 1].out.post;
            last.pre == post.(pending := commands, sh := ChangedBy(post.sh, ch, cfg)) && last.i == i &&
            last.out == Turn(last.pre, i, cfg)
  {
    hide Turn, ChangedBy;
    var post := recs[|recs| - 1].out.post;
    var pre := post.(pending := commands, sh := ChangedBy(post.sh, ch, cfg));
    var rec := Rec(pre, i, Turn(pre, i, cfg));
    LongerRun(recs, rec, cfg);
    LongerHostRun(recs, chs, rec, ch, cfg);
    recs', chs' := recs + [rec], chs + [ch];
  }

  const CACHED := Setup(Dfbc, false)

  /** A state of a run at time 0 between two turns. */
  predicate AtZero(st: State) {
    st.deferred == [] && |st.pending| <= BATCH && st.enteredAt == 0 && !st.requested
  }

  /** What the choice sees in a turn at time 0 when all is well. */
  function ViewAtZero(st: State, i: Input): View {
    View(st.pending, LeafTick(st, i, CACHED).signals, i.s, Dfbc, Distance(true, false), 0, false, true)
  }

  /** A turn at time 0 enters the leaf chosen. */
  lemma Moves(st: State, armed: bool, choice: Choice)
    requires AtZero(st) && !st.leaf.AtCustom1? && choice.Enter? && choice.kind != Landed
    requires var i := At(0, AllWell(armed)); Choose(KindOf(st.leaf), ViewAtZero(st, i)) == choice
    requires var own := LeafTick(st, At(0, AllWell(armed)), CACHED).signals;
             own == [] || (choice.signal.Some? && own == [choice.signal.value])
    ensures var i, out := At(0, AllWell(armed)), Turn(st, At(0, AllWell(armed)), CACHED);
            && AtZero(out.post) && out.post.pending == []
            && (exists sp, sh :: out.post.leaf == EnterLeaf(choice.kind, i, CACHED, sp, false, sh).leaf)
  {
    var i := At(0, AllWell(armed));
    AllIsWell(st.health, armed, Dfbc, false, 0);
    hide AllWell, Setup, HealthSignals, HealthAfter, Choose, LeafTick, DebugEffects, DebugTicked, Diagnostics;
    NothingHeard(st, i, CACHED);
    hide Heard;
    var beat := LeafTick(st, i, CACHED);
    assert Batch(st) == st.pending;
    assert [] + beat.signals == beat.signals;
    assert ViewOf(st, i, CACHED, beat) == ViewAtZero(st, i);
    EntersAtZero(st, i, beat, choice);
  }

  lemma EntersAtZero(st: State, i: Input, beat: Beat, choice: Choice)
    requires AtZero(st) && choice.Enter? && choice.kind != Landed && Heard(st, i, CACHED) == [] && i.now == 0
    requires beat.signals == [] || (choice.signal.Some? && beat.signals == [choice.signal.value])
    ensures var out := Concluded(st, i, CACHED, beat, choice);
            && AtZero(out.post) && out.post.pending == []
            && out.post.leaf ==
               EnterLeaf(choice.kind, i, CACHED, beat.sp, false, ExitLeaf(beat.leaf, beat.sh)).leaf
  {
    hide HealthAfter, DebugEffects, DebugTicked, Diagnostics, ExitLeaf;
    assert Unconsumed([], beat.signals, choice) == [];
  }

  lemma FromSelfCheck(st: State)
    requires AtZero(st) && st.leaf.AtSelfCheck? && st.pending == []
    ensures var out := Turn(st, At(0, AllWell(false)), CACHED);
            AtZero(out.post) && out.post.pending == [] && out.post.leaf.AtReady?
  {
    hide Turn;
    Moves(st, false, Unprompted(Ready));
  }

  lemma FromReady(st: State)
    requires AtZero(st) && st.leaf.AtReady? && st.pending == [Takeoff]
    ensures var out := Turn(st, At(0, AllWell(false)), CACHED);
            AtZero(out.post) && out.post.pending == [] && out.post.leaf == AtInit(InitEntered(CACHED, 0))
  {
    hide Turn;
    Moves(st, false, ByCommand(TakeoffInit));
  }

  lemma FromInit(st: State)
    requires AtZero(st) && st.leaf == AtInit(InitEntered(CACHED, 0)) && st.pending == []
    ensures var out := Turn(st, At(0, AllWell(false)), CACHED);
            AtZero(out.post) && out.post.pending == [] && out.post.leaf == AtOffboard(OffboardEntered(0))
  {
    hide Turn;
    Moves(st, false, On(AltctlReady, TakeoffOffboard));
  }

  lemma FromOffboard(st: State)
    requires AtZero(st) && st.leaf == AtOffboard(OffboardEntered(0)) && st.pending == []
    ensures var out := Turn(st, At(0, AllWell(false)), CACHED);
            AtZero(out.post) && out.post.pending == [] && out.post.leaf == AtArm(ArmEntered(0))
  {
    hide Turn;
    Moves(st, false, On(OffboardReady, TakeoffArm));
  }

  lemma FromArm(st: State)
    requires AtZero(st) && st.leaf == AtArm(ArmEntered(0)) && st.pending == []
    ensures var out := Turn(st, At(0, AllWell(true)), CACHED);
            AtZero(out.post) && out.post.pending == [] && out.post.leaf == AtAscending(AscentEntered(0))
  {
    hide Turn;
    Moves(st, true, On(ArmReady, TakeoffAscending));
  }

  lemma FromAscending(st: State)
    requires AtZero(st) && st.leaf == AtAscending(AscentEntered(0)) && st.pending == [Track]
    ensures var out := Turn(st, At(0, AllWell(true)), CACHED);
            AtZero(out.post) && out.post.pending == [] && out.post.leaf.AtCustom1? &&
            out.post.leaf.tracking.lastPublish == 0 && !out.post.leaf.tracking.finished
  {
    hide Turn;
    Moves(st, true, ByCommand(Tracking));
  }

  lemma StaysAtZero(st: State)
    requires AtZero(st) && st.leaf.AtCustom1? && st.pending == []
    requires st.leaf.tracking.lastPublish == 0 && !st.leaf.tracking.finished
    requires st.sh.cache == Custom1.Cached(0, None)
    ensures var out := Turn(st, At(0, AllWell(true)), CACHED);
            !out.again && Late(out.post, CACHED)
  {
    var i := At(0, AllWell(true));
    AllIsWell(st.health, true, Dfbc, false, 0);
    FollowsCache(Custom1.Work(st.leaf.tracking, st.sh, st.sp, [], []), Custom1.Env(CACHED, i.s, i.now, i.o));
    hide Turn, HealthSignals, HealthAfter, AllWell, Custom1.Tick;
    TrackingStays(st, i, CACHED);
  }

  lemma FollowsCache(w: Custom1.Work, e: Custom1.Env)
    requires e.cfg == CACHED && e.now == 0 && w.c.lastPublish == 0 && w.sh.cache == Custom1.Cached(0, None)
    ensures var w' := Custom1.Tick(w, e);
            w'.sg == w.sg && w'.sh.cache == w.sh.cache && w'.c.lastPublish == 0
  {
    hide Custom1.MeasuredHover;
  }

  const UNTOUCHED := Custom1.Shared(SETPOINT_INTERVAL, STOPPED, EMPTY, Custom1.NoCache, NO_RESULTS, Target(ZERO3, 0.0))

  lemma FirstTurn() returns (recs: seq<Rec>, chs: seq<seq<Change>>)
    ensures IsHostRun(recs, chs, CACHED) && |recs| == 1 && recs[0].i.now == 0
    ensures recs[0].out == Turn(Initial(UNTOUCHED, 0), At(0, AllWell(false)), CACHED)
  {
    var st, i := Initial(UNTOUCHED, 0), At(0, AllWell(false));
    var rec := Rec(st, i, Turn(st, i, CACHED));
    assert Between(Initial(UNTOUCHED, 0), st) && Fresh(UNTOUCHED) && st.sh == ChangedBy(UNTOUCHED, [], CACHED);
    assert Starts(st) && Opens(rec, [], CACHED);
    hide Turn, Starts, Opens, Between, AllWell;
    recs, chs := [rec], [[]];
  }

  /** A run does reach a late wake-up, when its clock stands at 0 from start-up to the first tracking turn. */
  lemma LateInSomeRun() returns (recs: seq<Rec>, chs: seq<seq<Change>>)
    ensures IsHostRun(recs, chs, CACHED) && recs != []
    ensures var out := recs[|recs| - 1].out; !out.again && Late(out.post, CACHED)
  {
    hide Turn, IsHostRun, InitEntered, OffboardEntered, ArmEntered, AscentEntered, AllWell, Setup, Late, CACHED;
    recs, chs := FirstTurn();
    FromSelfCheck(Initial(UNTOUCHED, 0));
    recs, chs := Extend(recs, chs, CACHED, [Takeoff], [], At(0, AllWell(false)));
    FromReady(recs[|recs| - 1].pre);
    recs, chs := Extend(recs, chs, CACHED, [], [], At(0, AllWell(false)));
    FromInit(recs[|recs| - 1].pre);
    recs, chs := Extend(recs, chs, CACHED, [], [], At(0, AllWell(false)));
    FromOffboard(recs[|recs| - 1].pre);
    recs, chs := Extend(recs, chs, CACHED, [], [], At(0, AllWell(true)));
    FromArm(recs[|recs| - 1].pre);
    recs, chs := Extend(recs, chs, CACHED, [Track], [], At(0, AllWell(true)));
    FromAscending(recs[|recs| - 1].pre);
    recs, chs := Extend(recs, chs, CACHED, [], [Refers(Custom1.Cached(0, None))], At(0, AllWell(true)));
    StaysAtZero(recs[|recs| - 1].pre);
  }
}
