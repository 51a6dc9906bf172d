/** The flight owner as an object: posting commands, taking IMU messages, and the turn itself. */
module FlightRuntime {
  import opened Options
  import opened Sensors
  import opened Trajectory
  import opened FlightTypes
  import opened HealthMonitor
  import opened DebugMonitor
  import opened TakeoffStates
  import opened GroundStates
  import opened LandingLeaf
  import opened Flight
  import opened Custom1State
  import Custom1
  import Custom1Frame

  /** The leaf states; one of them is the active one. */
  class Leaves {
    const selfCheck: SelfCheckState
    const ready: ReadyState
    const takeoffInit: TakeoffInitState
    const offboard: TakeoffOffboardRequestState
    const arming: TakeoffArmRequestState
    const ascending: TakeoffAscendingState
    const hovering: HoverState
    const custom1: Custom1State
    const landing: LandingState

    constructor ()
      ensures fresh(selfCheck)
    {
      selfCheck := new SelfCheckState();
      ready := new ReadyState();
      takeoffInit := new TakeoffInitState();
      offboard := new TakeoffOffboardRequestState();
      arming := new TakeoffArmRequestState();
      ascending := new TakeoffAscendingState();
      hovering := new HoverState();
      custom1 := new Custom1State();
      landing := new LandingState();
    }
  }

  /** The owner: two monitors, the leaves, of which `kind` is active, and the queues between turns. */
  class FlightRuntime {
    const ctl: Controller
    const res: Resources
    const health: HealthMonitorState
    const debug: DebugMonitorState
    const leaves: Leaves
    var kind: Kind
    var commands: seq<Command>
    var pending: seq<Command>
    var deferred: seq<Signal>
    ghost var imu: nat

    /** The active leaf with its data. */
    ghost function LeafView(): Leaf
      reads this, leaves.selfCheck, leaves.takeoffInit, leaves.offboard, leaves.arming, leaves.ascending
      reads leaves.hovering, leaves.custom1, leaves.landing
    {
      match kind
      case SelfCheck => AtSelfCheck(leaves.selfCheck.logTimer)
      case Ready => AtReady
      case TakeoffInit => AtInit(leaves.takeoffInit.View())
      case TakeoffOffboard => AtOffboard(leaves.offboard.View())
      case TakeoffArm => AtArm(leaves.arming.View())
      case TakeoffAscending => AtAscending(leaves.ascending.View())
      case Hovering => AtHover(leaves.hovering.publishTimer)
      case Tracking => AtCustom1(leaves.custom1.View())
      case Landed => AtLanding(leaves.landing.View())
    }

    /** The owner's state between turns, as the value that module Flight turns. */
    ghost function View(): State
      reads this, ctl, res, res.buffer, res.results, health, debug
      reads leaves.selfCheck, leaves.takeoffInit, leaves.offboard, leaves.arming, leaves.ascending
      reads leaves.hovering, leaves.custom1, leaves.landing
    {
      State(LeafView(), ctl.enteredAt, health.View(), debug.View(), pending, deferred, ctl.setpoint,
            ctl.custom1Requested, res.View())
    }

    /** Between turns the signals are those of the IMU messages since the last turn. */
    ghost predicate Valid()
      reads this, ctl
    {
      |pending| <= CAPACITY && ctl.signals == Repeated(ImuSignals(ctl.setpoint, ctl.cfg), imu)
    }

    constructor (cfg: Config, sensors: Sensors, now: int, publishPeriod: int)
      ensures Valid() && View() == Initial(res.View(), now) && ctl.cfg == cfg
    {
      hide ImuSignals, Repeated;
      NoneRepeated(ImuSignals(NO_SETPOINT, cfg));
      var c := new Controller(cfg, sensors, now);
      var l := new Leaves();
      l.selfCheck.OnEnter(c);
      ctl, leaves := c, l;
      res := new Resources(publishPeriod);
      health := new HealthMonitorState();
      debug := new DebugMonitorState();
      kind, commands, pending, deferred, imu := SelfCheck, [], [], [], 0;
    }

    method PostCommand(c: Command) returns (accepted: bool)
      requires Valid()
      modifies this`pending
      ensures Valid() && accepted == (old(|pending|) < 4096)
      ensures View() == Posted(old(View()), c)
    {
      if |pending| >= CAPACITY {
        return false;
      }
      pending := pending + [c];
      return true;
    }

    /** One delivered IMU message; its signals join those of the next turn. */
    method OnFreshImu()
      requires Valid()
      modifies this`imu, ctl`signals
      ensures Valid() && imu == old(imu) + 1 && View() == old(View())
    {
      var raised := ImuSignals(ctl.setpoint, ctl.cfg);
      ctl.signals := ctl.signals + raised;
      imu := imu + 1;
    }

    // ---------------------------------------------------------------- the turn

    /** The next commands, at most one batch of them, taken one at a time from the front. */
    method TakeBatch() returns (more: bool)
      modifies this`commands, this`pending
      ensures commands == old(pending)[..BatchSize(old(pending))]
      ensures pending == old(pending)[BatchSize(old(pending))..] && more == (pending != [])
    {
      commands := [];
      ghost var waiting := pending;
      var take := BatchSize(pending);
      for i := 0 to take
        invariant commands == waiting[..i] && pending == waiting[i..]
      {
        commands := commands + [pending[0]];
        pending := pending[1..];
      }
      more := pending != [];
    }

    method TickSimpleLeaf()
      requires kind != Tracking
      modifies ctl`effects, ctl`signals, ctl`diagnostics, ctl`setpoint
      modifies leaves.selfCheck, leaves.takeoffInit, leaves.offboard, leaves.arming, leaves.ascending
      modifies leaves.hovering, leaves.landing
      ensures var beat := LeafTick(old(View()), Input(ctl.now, ctl.sensors, imu, NoOracle()), ctl.cfg);
              && LeafView() == beat.leaf && ctl.setpoint == beat.sp && beat.sh == res.View()
              && ctl.effects == old(ctl.effects) + beat.effects
              && ctl.signals == old(ctl.signals) + beat.signals
              && ctl.diagnostics == old(ctl.diagnostics) + Signalled(beat.signals)
    {
      hide InitTick, OffboardTick, ArmTick, AscentTick, LandingTick, LandingTickSetpoint, SelfCheckTick, Publishing;
      assert Signalled([]) == [];
      match kind
      case SelfCheck => leaves.selfCheck.OnTick(ctl);
      case Ready =>
      case TakeoffInit => leaves.takeoffInit.OnTick(ctl);
      case TakeoffOffboard => leaves.offboard.OnTick(ctl);
      case TakeoffArm => leaves.arming.OnTick(ctl);
      case TakeoffAscending => leaves.ascending.OnTick(ctl);
      case Hovering => leaves.hovering.OnTick(ctl);
      case Landed => leaves.landing.OnTick(ctl);
    }

    static function NoOracle(): Custom1.Oracle {
      Custom1.Oracle(None, false, None, NO_SETPOINT)
    }

    /** What the tick of the leaf left: everything a beat says, behind what the turn had emitted before. */
    twostate predicate Ticked(beat: Beat)
      reads this, ctl, res, res.buffer, res.results
      reads leaves.selfCheck, leaves.takeoffInit, leaves.offboard, leaves.arming, leaves.ascending
      reads leaves.hovering, leaves.custom1, leaves.landing
    {
      && LeafView() == beat.leaf && ctl.setpoint == beat.sp && res.View() == beat.sh
      && ctl.effects == old(ctl.effects) + beat.effects
      && ctl.signals == old(ctl.signals) + beat.signals
      && ctl.diagnostics == old(ctl.diagnostics) + Signalled(beat.signals)
    }

    method TickTracking(o: Custom1.Oracle)
      requires kind == Tracking
      modifies leaves.custom1, ctl`setpoint, ctl`effects, ctl`signals, ctl`diagnostics
      modifies res`attitude, res`staleLog, res.results, res.buffer
      ensures var alone := Custom1.Work(old(leaves.custom1.View()), old(res.View()), old(ctl.setpoint), [], []);
              var w := Custom1.Tick(alone, Custom1.Env(ctl.cfg, ctl.sensors, ctl.now, o));
              Ticked(TrackingBeat(w))
    {
      hide Custom1.Tick, Signalled;
      ghost var alone := Custom1.Work(leaves.custom1.View(), res.View(), ctl.setpoint, [], []);
      ghost var fx, sg, e := ctl.effects, ctl.signals, leaves.custom1.EnvOf(ctl, o);
      assert leaves.custom1.Now(ctl, res) == Custom1Frame.Behind(alone, fx, sg);
      Custom1Frame.TickAppends(alone, e, fx, sg);
      leaves.custom1.OnTick(ctl, res, o);
      ghost var w := Custom1.Tick(alone, e);
      assert leaves.custom1.Now(ctl, res) == Custom1Frame.Behind(w, fx, sg);
      assert ctl.signals[|sg|..] == w.sg;
    }

    method TickLeaf(o: Custom1.Oracle)
      modifies ctl`effects, ctl`signals, ctl`diagnostics, ctl`setpoint
      modifies leaves.selfCheck, leaves.takeoffInit, leaves.offboard, leaves.arming, leaves.ascending
      modifies leaves.hovering, leaves.landing, leaves.custom1
      modifies res`attitude, res`staleLog, res.results, res.buffer
      ensures Ticked(LeafTick(old(View()), Input(ctl.now, ctl.sensors, imu, o), ctl.cfg))
    {
      hide InitTick, OffboardTick, ArmTick, AscentTick, LandingTick, LandingTickSetpoint, SelfCheckTick, Publishing;
      hide Custom1.Tick, Signalled;
      if kind == Tracking {
        TickTracking(o);
      } else {
        TickSimpleLeaf();
      }
    }

    // --------------------------------------------------------------- the choice

    /** The first present signal of a list. */
    method FirstPresent(order: seq<Signal>) returns (x: Option<Signal>)
      ensures x.Some? ==> exists k :: 0 <= k < |order| && x.value == order[k] && order[k] in ctl.signals &&
                                      forall j :: 0 <= j < k ==> order[j] !in ctl.signals
      ensures x == None ==> forall k :: 0 <= k < |order| ==> order[k] !in ctl.signals
    {
      for k := 0 to |order|
        invariant forall j :: 0 <= j < k ==> order[j] !in ctl.signals
      {
        if order[k] in ctl.signals {
          return Some(order[k]);
        }
      }
      return None;
    }

    ghost function ChoiceView(): Flight.View
      reads this, ctl, health, res, res.buffer
    {
      Flight.View(commands, ctl.signals, ctl.sensors, ctl.cfg.backend, health.comparison.distance,
                  ctl.now - ctl.enteredAt, ctl.custom1Requested,
                  ReferenceReady(res.buffer.View(), ctl.sensors, ctl.cfg))
    }

    method ChooseNormalPreemption() returns (c: Choice)
      ensures c == NormalPreemption(ChoiceView())
    {
      var order := [Geofence, VelocityXY, VelocityZ, SaturationXY, SaturationZ, EstimateUnusable, TimeoutEstimate,
                    TimeoutLocalPosition, TimeoutLocalVelocity, TimeoutImu, TimeoutFcuState];
      var x := FirstPresent(order);
      SafetyInOrder(order, ctl.signals, x);
      if x.Some? {
        return On(x.value, Landed);
      }
      if Land in commands {
        return ByCommand(Landed);
      }
      return Stay;
    }

    static lemma SafetyInOrder(order: seq<Signal>, signals: seq<Signal>, x: Option<Signal>)
      requires order == [Geofence, VelocityXY, VelocityZ, SaturationXY, SaturationZ, EstimateUnusable, TimeoutEstimate,
                         TimeoutLocalPosition, TimeoutLocalVelocity, TimeoutImu, TimeoutFcuState]
      requires x.Some? ==> exists k :: 0 <= k < |order| && x.value == order[k] && order[k] in signals &&
                                       forall j :: 0 <= j < k ==> order[j] !in signals
      requires x == None ==> forall k :: 0 <= k < |order| ==> order[k] !in signals
      ensures x == FirstSafety(signals)
    {
      assert order[0] == Geofence && order[1] == VelocityXY && order[2] == VelocityZ && order[3] == SaturationXY;
      assert order[4] == SaturationZ && order[5] == EstimateUnusable && order[6] == TimeoutEstimate;
      assert order[7] == TimeoutLocalPosition && order[8] == TimeoutLocalVelocity && order[9] == TimeoutImu;
      assert order[10] == TimeoutFcuState;
    }

    method ChooseDistancePreemption() returns (c: Choice)
      ensures c == DistancePreemption(ChoiceView())
    {
      c := ChooseNormalPreemption();
      if c != Stay {
        return;
      }
      if health.comparison.distance.exceeded {
        return Unprompted(Landed);
      }
    }

    method IsReferenceReady() returns (yes: bool)
      ensures yes == ReferenceReady(res.buffer.View(), ctl.sensors, ctl.cfg)
    {
      yes := ReferenceReady(Buffer(res.buffer.active, res.buffer.pending), ctl.sensors, ctl.cfg);
    }

    method ChooseOnGround() returns (c: Choice)
      requires kind == SelfCheck || kind == Ready || kind == Landed
      ensures c == Choose(kind, ChoiceView())
    {
      hide NormalPreemption, Airborne, SensorsReady;
      if kind == SelfCheck {
        return if SensorsReady(ctl.sensors, ctl.cfg.backend) then Unprompted(Ready) else Stay;
      }
      if kind == Landed {
        return if Touchdown in ctl.signals then On(Touchdown, SelfCheck) else Stay;
      }
      c := ChooseNormalPreemption();
      if c != Stay {
        return;
      }
      if Airborne(ctl.sensors, ctl.cfg.backend) {
        return Unprompted(Landed);
      }
      var distance := health.comparison.distance;
      if Takeoff in commands && distance.available && !distance.exceeded {
        return ByCommand(TakeoffInit);
      }
      if !SensorsReady(ctl.sensors, ctl.cfg.backend) {
        return Unprompted(SelfCheck);
      }
    }

    method ChooseInTakeoff() returns (c: Choice)
      requires kind == TakeoffInit || kind == TakeoffOffboard || kind == TakeoffArm
      ensures c == Choose(kind, ChoiceView())
    {
      hide DistancePreemption;
      c := ChooseDistancePreemption();
      if c != Stay {
        return;
      }
      if kind != TakeoffArm && ctl.sensors.armed {
        return Unprompted(Ready);
      }
      if kind == TakeoffInit && AltctlReady in ctl.signals {
        return On(AltctlReady, TakeoffOffboard);
      }
      if kind == TakeoffOffboard && OffboardReady in ctl.signals {
        return On(OffboardReady, TakeoffArm);
      }
      if kind == TakeoffArm && ArmReady in ctl.signals {
        return On(ArmReady, TakeoffAscending);
      }
      if ctl.now - ctl.enteredAt > REQUEST_TIMEOUT {
        return Unprompted(Landed);
      }
    }

    method ChooseInFlight() returns (c: Choice)
      requires kind == TakeoffAscending || kind == Hovering || kind == Tracking
      ensures c == Choose(kind, ChoiceView())
    {
      hide DistancePreemption, ReferenceReady;
      c := ChooseDistancePreemption();
      if c != Stay {
        return;
      }
      if kind != Hovering && Hover in commands {
        return ByCommand(Hovering);
      }
      if kind == Tracking {
        return if ReferenceFinished in ctl.signals then On(ReferenceFinished, Hovering) else Stay;
      }
      var referenceReady := IsReferenceReady();
      if Track in commands && referenceReady {
        return ByCommand(Tracking);
      }
      if kind == TakeoffAscending && AltitudeReached in ctl.signals {
        return On(AltitudeReached, Hovering);
      }
      if kind == TakeoffAscending && TakeoffTimeout in ctl.signals {
        return On(TakeoffTimeout, Landed);
      }
      if ctl.custom1Requested && referenceReady {
        return Unprompted(Tracking);
      }
    }

    method ChooseTransition() returns (c: Choice)
      ensures c == Choose(kind, ChoiceView())
    {
      hide Choose;
      match kind
      case SelfCheck => c := ChooseOnGround();
      case Ready => c := ChooseOnGround();
      case Landed => c := ChooseOnGround();
      case TakeoffInit => c := ChooseInTakeoff();
      case TakeoffOffboard => c := ChooseInTakeoff();
      case TakeoffArm => c := ChooseInTakeoff();
      case _ => c := ChooseInFlight();
    }

    // -------------------------------------------------------------- exit and entry

    method ExitActive()
      modifies leaves.custom1, res.results
      ensures res.View() == ExitLeaf(old(LeafView()), old(res.View()))
    {
      if kind == Tracking {
        leaves.custom1.OnExit(ctl, res);
      }
    }

    method EnterSimple(to: Kind)
      requires to != Tracking
      modifies this`kind, leaves.selfCheck, leaves.takeoffInit, leaves.offboard, leaves.arming, leaves.ascending
      modifies leaves.hovering, leaves.landing
      modifies ctl`effects, ctl`setpoint, ctl`custom1Requested
      ensures var n := EnterLeaf(to, Input(ctl.now, ctl.sensors, imu, NoOracle()), ctl.cfg, old(ctl.setpoint),
                                 old(ctl.custom1Requested), old(res.View()));
              && LeafView() == n.leaf && ctl.setpoint == n.sp && ctl.custom1Requested == n.requested
              && ctl.effects == old(ctl.effects) + n.effects && res.View() == n.sh && kind == to
    {
      hide InitEntered, InitEntry, TakeoffSetpoint, ReadyEntry, LandingEntered, HoverSetpoint;
      kind := to;
      match to
      case SelfCheck => leaves.selfCheck.OnEnter(ctl);
      case Ready => leaves.ready.OnEnter(ctl);
      case TakeoffInit => leaves.takeoffInit.OnEnter(ctl);
      case TakeoffOffboard => leaves.offboard.OnEnter(ctl);
      case TakeoffArm => leaves.arming.OnEnter(ctl);
      case TakeoffAscending => leaves.ascending.OnEnter(ctl);
      case Hovering => leaves.hovering.OnEnter(ctl);
      case Landed => leaves.landing.OnEnter(ctl);
    }

    method EnterTracking(o: Custom1.Oracle)
      modifies this`kind, leaves.custom1, ctl`effects, ctl`custom1Requested, res, res.buffer, res.results
      ensures var n := EnterLeaf(Tracking, Input(ctl.now, ctl.sensors, imu, o), ctl.cfg, old(ctl.setpoint),
                                 old(ctl.custom1Requested), old(res.View()));
              && LeafView() == n.leaf && ctl.setpoint == n.sp && ctl.custom1Requested == n.requested
              && ctl.effects == old(ctl.effects) + n.effects && res.View() == n.sh && kind == Tracking
    {
      hide Custom1.Entered, Custom1.EnteredShared, Custom1.EntryEffects;
      kind := Tracking;
      leaves.custom1.OnEnter(ctl, res, o);
    }

    /** Leave the active leaf and enter another one, now. */
    method Apply(to: Kind, o: Custom1.Oracle)
      modifies this`kind, leaves.selfCheck, leaves.takeoffInit, leaves.offboard, leaves.arming, leaves.ascending
      modifies leaves.hovering, leaves.landing, leaves.custom1
      modifies ctl`effects, ctl`setpoint, ctl`custom1Requested, ctl`enteredAt, res, res.buffer, res.results
      ensures var n := EnterLeaf(to, Input(ctl.now, ctl.sensors, imu, o), ctl.cfg, old(ctl.setpoint),
                                 old(ctl.custom1Requested), ExitLeaf(old(LeafView()), old(res.View())));
              && LeafView() == n.leaf && ctl.setpoint == n.sp && ctl.custom1Requested == n.requested
              && ctl.effects == old(ctl.effects) + n.effects && res.View() == n.sh && ctl.enteredAt == ctl.now
    {
      hide InitEntered, InitEntry, TakeoffSetpoint, ReadyEntry, LandingEntered, HoverSetpoint;
      hide Custom1.Entered, Custom1.EnteredShared, Custom1.EntryEffects, Custom1.ExitedShared;
      ExitActive();
      ctl.enteredAt := ctl.now;
      if to == Tracking {
        EnterTracking(o);
      } else {
        EnterSimple(to);
      }
    }

    /** A turn that stays hands the commands of its batch to the leaf. */
    method OfferCommands()
      modifies ctl`custom1Requested
      ensures ctl.custom1Requested == Latched(LeafView(), old(ctl.custom1Requested), commands)
    {
      for i := 0 to |commands|
        invariant ctl.custom1Requested == Latched(LeafView(), old(ctl.custom1Requested), commands[..i])
      {
        if kind == Hovering {
          leaves.hovering.OnEvent(ctl, commands[i]);
        } else if kind == TakeoffAscending {
          leaves.ascending.OnEvent(ctl, commands[i]);
        }
        assert commands[..i + 1] == commands[..i] + [commands[i]];
      }
      assert commands[..|commands|] == commands;
    }

    // --------------------------------------------------------------------- deferral

    /** The place of the first occurrence of a signal, or the end. */
    method SelectSignal(x: Signal) returns (k: nat)
      ensures k == FirstIndex(ctl.signals, x)
    {
      k := 0;
      while k < |ctl.signals| && ctl.signals[k] != x
        invariant k <= |ctl.signals| && FirstIndex(ctl.signals, x) == k + FirstIndex(ctl.signals[k..], x)
      {
        assert ctl.signals[k..][1..] == ctl.signals[k + 1..];
        k := k + 1;
      }
    }

    /** The signals from `start` on, but for the selected one, wait for the next turn. */
    method Defer(start: nat, choice: Choice)
      requires start <= |ctl.signals|
      modifies this`deferred
      ensures deferred == Unconsumed(ctl.signals[..start], ctl.signals[start..], choice)
    {
      hide Unconsumed, FirstIndex, Without;
      var all := ctl.signals;
      var selected := |all|;
      if choice.Enter? && choice.signal.Some? {
        selected := SelectSignal(choice.signal.value);
      }
      deferred := [];
      WithoutAll(all, start, choice, selected);
      for i := start to |all|
        invariant deferred == Without(all, start, i, selected)
      {
        WithoutStep(all, start, i, selected);
        if i != selected {
          deferred := deferred + [all[i]];
        }
      }
    }

    static lemma WithoutAll(all: seq<Signal>, start: nat, choice: Choice, selected: nat)
      requires start <= |all|
      requires selected == if choice.Enter? && choice.signal.Some? then FirstIndex(all, choice.signal.value) else |all|
      ensures Without(all, start, start, selected) == []
      ensures Without(all, start, |all|, selected) == Unconsumed(all[..start], all[start..], choice)
    {
      hide FirstIndex;
      var own := all[start..];
      assert all == all[..start] + own;
      if start <= selected < |all| {
        OwnWithout(all, start, selected);
        hide Without, Unconsumed;
        UnconsumedAt(all[..start], own, choice, selected);
        WithoutAt(all, start, selected);
      }
    }

    static lemma UnconsumedAt(heard: seq<Signal>, own: seq<Signal>, choice: Choice, k: nat)
      requires choice.Enter? && choice.signal.Some? && k == FirstIndex(heard + own, choice.signal.value)
      requires |heard| <= k < |heard| + |own|
      ensures Unconsumed(heard, own, choice) == own[..k - |heard|] + own[k - |heard| + 1..]
    {
    }

    static lemma WithoutAt(all: seq<Signal>, start: nat, k: nat)
      requires start <= k < |all|
      ensures Without(all, start, |all|, k) == all[start..k] + all[k + 1..]
    {
    }

    static lemma OwnWithout(all: seq<Signal>, start: nat, k: nat)
      requires start <= k < |all|
      ensures all[start..][..k - start] == all[start..k] && all[start..][k - start + 1..] == all[k + 1..]
    {
    }

    /** The elements from `start` up to i, but for the selected one. */
    static function Without(all: seq<Signal>, start: nat, i: nat, selected: nat): seq<Signal>
      requires start <= i <= |all|
    {
      if start <= selected < i then all[start..selected] + all[selected + 1..i] else all[start..i]
    }

    static lemma WithoutStep(all: seq<Signal>, start: nat, i: nat, selected: nat)
      requires start <= i < |all|
      ensures Without(all, start, i + 1, selected) ==
              Without(all, start, i, selected) + if i == selected then [] else [all[i]]
    {
    }

    // ------------------------------------------------------------------ one update

    /** Up to the tick of the leaf: the batch, the deferred signals, the health monitor and the diagnostics. */
    method Hear(now: int, s: Sensors, ghost o: Custom1.Oracle) returns (more: bool)
      requires Valid()
      modifies this`commands, this`pending, this`deferred, health
      modifies ctl`now, ctl`sensors, ctl`signals, ctl`diagnostics
      ensures var st, i := old(View()), Input(now, s, imu, o);
              && ctl.now == now && ctl.sensors == s
              && commands == Batch(st) && pending == st.pending[BatchSize(st.pending)..] && more == (pending != [])
              && |pending| <= CAPACITY && ctl.signals == Heard(st, i, ctl.cfg)
              && View() == st.(pending := pending, deferred := [], health := HealthAfter(st.health, s, ctl.cfg, now))
              && ctl.diagnostics == Commanded(Batch(st)) + Signalled(HealthSignals(st.health, s, ctl.cfg, now)) +
                                    Signalled(Repeated(ImuSignals(st.sp, ctl.cfg), imu))
    {
      hide HealthAfter, HealthSignals, ImuSignals, Signalled, Commanded, Repeated, KindOf, LeafView;
      ctl.now, ctl.sensors := now, s;
      var fresh_ := ctl.signals;
      more := Gather();
      TickHealth(fresh_);
    }

    /** The batch and the deferred signals join what is there. */
    method Gather() returns (more: bool)
      modifies this`commands, this`pending, this`deferred, ctl`signals, ctl`diagnostics
      ensures var st := old(View());
              && commands == Batch(st) && pending == st.pending[BatchSize(st.pending)..] && more == (pending != [])
              && |pending| <= |st.pending| && View() == st.(pending := pending, deferred := [])
              && ctl.signals == old(ctl.signals) + st.deferred && ctl.diagnostics == Commanded(Batch(st))
    {
      hide KindOf, Commanded;
      more := TakeBatch();
      ctl.signals := ctl.signals + deferred;
      deferred := [];
      ctl.diagnostics := Commanded(commands);
    }

    /** The health monitor's own tick, and the diagnostics of the IMU signals after it. */
    method TickHealth(fresh_: seq<Signal>)
      modifies health, ctl`signals, ctl`diagnostics
      ensures var raised := HealthSignals(old(health.View()), ctl.sensors, ctl.cfg, ctl.now);
              && View() == old(View()).(health := HealthAfter(old(health.View()), ctl.sensors, ctl.cfg, ctl.now))
              && ctl.signals == old(ctl.signals) + raised
              && ctl.diagnostics == old(ctl.diagnostics) + Signalled(raised) + Signalled(fresh_)
    {
      hide HealthAfter, HealthSignals, Signalled;
      health.OnTick(ctl);
      ctl.diagnostics := ctl.diagnostics + Signalled(fresh_);
    }

    /** The transition or, without one, the commands for the leaf. */
    method Conclude(c: Choice, o: Custom1.Oracle)
      modifies this`kind, leaves.selfCheck, leaves.takeoffInit, leaves.offboard, leaves.arming, leaves.ascending
      modifies leaves.hovering, leaves.landing, leaves.custom1
      modifies ctl`effects, ctl`setpoint, ctl`custom1Requested, ctl`enteredAt, ctl`diagnostics
      modifies res, res.buffer, res.results
      ensures var i := Input(ctl.now, ctl.sensors, imu, o);
              && View() == Moved(old(View()), i, ctl.cfg, commands, c)
              && ctl.effects == old(ctl.effects) + Entrance(old(View()), i, ctl.cfg, c)
      ensures ctl.diagnostics == old(ctl.diagnostics) + Marks(c)
    {
      hide EnterLeaf, ExitLeaf, Latched, LeafView;
      match c
      case Enter(to, signal, command) =>
        if signal == None && !command {
          ctl.diagnostics := ctl.diagnostics + [Unnamed];
        }
        Apply(to, o);
      case Stay => OfferCommands();
    }

    static function Marks(c: Choice): seq<Diagnostic> {
      if c.Enter? && c.signal == None && !c.command then [Unnamed] else []
    }

    static lemma MarksTell(st: State, i: Input, cfg: Config, own: seq<Signal>, c: Choice)
      ensures Diagnostics(st, i, cfg, own, c) == Diagnostics(st, i, cfg, own, Stay) + Marks(c)
    {
    }

    static function EntryOf(st: State, i: Input, cfg: Config, to: Kind): Entry {
      EnterLeaf(to, i, cfg, st.sp, st.requested, ExitLeaf(st.leaf, st.sh))
    }

    /** The state after the transition, or with the commands offered to the leaf. */
    static function Moved(st: State, i: Input, cfg: Config, batch: seq<Command>, c: Choice): State {
      match c
      case Stay => st.(requested := Latched(st.leaf, st.requested, batch))
      case Enter(to, _, _) =>
        var n := EntryOf(st, i, cfg, to);
        st.(leaf := n.leaf, enteredAt := i.now, sp := n.sp, requested := n.requested, sh := n.sh)
    }

    static lemma MovedKeeps(st: State, i: Input, cfg: Config, batch: seq<Command>, c: Choice)
      ensures Moved(st, i, cfg, batch, c).debug == st.debug && Moved(st, i, cfg, batch, c).pending == st.pending
    {
    }

    static function Entrance(st: State, i: Input, cfg: Config, c: Choice): seq<Effect> {
      if c == Stay then [] else EntryOf(st, i, cfg, c.kind).effects
    }

    /** The tick of the leaf, seen on the whole state. */
    method Tick(o: Custom1.Oracle, ghost st: State, ghost i: Input)
      requires i == Input(ctl.now, ctl.sensors, imu, o)
      requires st.leaf == View().leaf && st.sp == View().sp && st.sh == View().sh && st.enteredAt == View().enteredAt
      modifies ctl`effects, ctl`signals, ctl`diagnostics, ctl`setpoint
      modifies leaves.selfCheck, leaves.takeoffInit, leaves.offboard, leaves.arming, leaves.ascending
      modifies leaves.hovering, leaves.landing, leaves.custom1
      modifies res`attitude, res`staleLog, res.results, res.buffer
      ensures var beat := LeafTick(st, i, ctl.cfg);
              && View() == old(View()).(leaf := beat.leaf, sp := beat.sp, sh := beat.sh)
              && KindOf(beat.leaf) == KindOf(st.leaf)
              && ctl.effects == old(ctl.effects) + beat.effects
              && ctl.signals == old(ctl.signals) + beat.signals
              && ctl.diagnostics == old(ctl.diagnostics) + Signalled(beat.signals)
    {
      hide LeafTick, Signalled, LeafView, KindOf;
      LeafTickReads(st, View(), i, i, ctl.cfg);
      LeafKind();
      TickLeaf(o);
      LeafKind();
    }

    lemma LeafKind()
      ensures KindOf(LeafView()) == kind
    {
    }

    method ChooseFor() returns (c: Choice)
      ensures c == Choose(KindOf(View().leaf),
                          Flight.View(commands, ctl.signals, ctl.sensors, ctl.cfg.backend,
                                      View().health.comparison.distance, ctl.now - View().enteredAt,
                                      View().requested, ReferenceReady(View().sh.buffer, ctl.sensors, ctl.cfg)))
    {
      hide Choose, ReferenceReady;
      c := ChooseTransition();
    }

    /** Every object that a turn may change. */
    ghost function Footprint(): set<object>
      reads this
    {
      {this, ctl, res, res.buffer, res.results, health, debug,
       leaves.selfCheck, leaves.takeoffInit, leaves.offboard, leaves.arming, leaves.ascending, leaves.hovering,
       leaves.custom1, leaves.landing}
    }

    method Wrap(start: nat, choice: Choice, more: bool) returns (again: bool)
      requires start <= |ctl.signals|
      modifies this`deferred, debug, ctl`effects
      ensures View() == old(View()).(deferred := Unconsumed(ctl.signals[..start], ctl.signals[start..], choice),
                                     debug := DebugTicked(old(View()).debug, ctl.now))
      ensures ctl.effects == old(ctl.effects) + DebugEffects(old(View()).debug, ctl.now, ctl.diagnostics != [])
      ensures again == (choice != Stay || more || Unconsumed(ctl.signals[..start], ctl.signals[start..], choice) != [])
    {
      hide Unconsumed, DebugTicked, DebugEffects;
      Defer(start, choice);
      debug.OnTick(ctl);
      again := choice != Stay || more || deferred != [];
    }

    /** The stages of a turn on values make up the turn. */
    static lemma StagesAreTurn(st: State, i: Input, cfg: Config, beat: Beat, s1: State, choice: Choice, s2: State,
                               fx: seq<Effect>)
      requires KindOf(beat.leaf) == KindOf(st.leaf)
      requires s1 == Beaten(st, i, cfg, beat)
      requires choice == Choose(KindOf(s1.leaf), ViewOf(st, i, cfg, beat))
      requires s2 == Moved(s1, i, cfg, Batch(st), choice)
      requires fx == beat.effects + Entrance(s1, i, cfg, choice)
      ensures var out := TurnWith(st, i, cfg, beat);
              var rest := Unconsumed(Heard(st, i, cfg), beat.signals, choice);
              && out.post == s2.(deferred := rest, debug := DebugTicked(st.debug, i.now))
              && out.effects == fx + DebugEffects(st.debug, i.now, Diagnostics(st, i, cfg, beat.signals, choice) != [])
              && out.again == (choice != Stay || s1.pending != [] || rest != [])
    {
      hide HealthAfter, Heard, Diagnostics, Choose, EnterLeaf, ExitLeaf, Latched, Unconsumed, DebugTicked, DebugEffects;
    }

    static lemma LeafTickReads(a: State, b: State, i: Input, j: Input, cfg: Config)
      requires a.leaf == b.leaf && a.sp == b.sp && a.sh == b.sh && a.enteredAt == b.enteredAt
      requires i.now == j.now && i.s == j.s && i.o == j.o
      ensures LeafTick(a, i, cfg) == LeafTick(b, j, cfg)
    {
    }

    static lemma NoneRepeated(ss: seq<Signal>)
      ensures Repeated(ss, 0) == []
    {
    }

    /** The state once the leaf has ticked and nothing has been chosen yet. */
    static function Beaten(st: State, i: Input, cfg: Config, beat: Beat): State {
      st.(pending := st.pending[BatchSize(st.pending)..], deferred := [],
          health := HealthAfter(st.health, i.s, cfg, i.now), leaf := beat.leaf, sp := beat.sp, sh := beat.sh)
    }

    /** Everything in a turn after the tick of the leaf, which had heard the signals up to `start`. */
    method Finish(o: Custom1.Oracle, start: nat, more: bool, ghost st: State, ghost i: Input, ghost beat: Beat)
      returns (again: bool)
      requires i == Input(ctl.now, ctl.sensors, imu, o) && KindOf(beat.leaf) == KindOf(st.leaf)
      requires View() == Beaten(st, i, ctl.cfg, beat) && commands == Batch(st) && more == (View().pending != [])
      requires start <= |ctl.signals| && ctl.signals[..start] == Heard(st, i, ctl.cfg)
      requires ctl.signals[start..] == beat.signals
      requires ctl.diagnostics == Diagnostics(st, i, ctl.cfg, beat.signals, Stay)
      modifies this`kind, this`deferred, debug, res, res.buffer, res.results
      modifies leaves.selfCheck, leaves.takeoffInit, leaves.offboard, leaves.arming, leaves.ascending
      modifies leaves.hovering, leaves.landing, leaves.custom1
      modifies ctl`effects, ctl`setpoint, ctl`custom1Requested, ctl`enteredAt, ctl`diagnostics
      ensures var out := TurnWith(st, i, ctl.cfg, beat);
              && View() == out.post && again == out.again
              && exists rest :: out.effects == beat.effects + rest && ctl.effects == old(ctl.effects) + rest
    {
      hide HealthAfter, HealthSignals, Heard, ImuSignals, Signalled, Commanded, TurnWith, BatchSize, Repeated, Batch;
      hide Moved, Entrance, Unconsumed, DebugTicked, DebugEffects, Choose, ReferenceReady, View, LeafView;
      hide Diagnostics, Marks;
      ghost var s1, fx := View(), ctl.effects;
      assert ctl.signals == ctl.signals[..start] + ctl.signals[start..];
      var choice := ChooseFor();
      MovedKeeps(s1, i, ctl.cfg, commands, choice);
      Conclude(choice, o);
      ghost var s2 := View();
      MarksTell(st, i, ctl.cfg, beat.signals, choice);
      again := Wrap(start, choice, more);
      ghost var entrance := Entrance(s1, i, ctl.cfg, choice);
      ghost var told := DebugEffects(st.debug, i.now, ctl.diagnostics != []);
      StagesAreTurn(st, i, ctl.cfg, beat, s1, choice, s2, beat.effects + entrance);
      Assoc(fx, entrance, told);
      Assoc(beat.effects, entrance, told);
    }

    /**
     One owner turn. It leaves the owner in the state that the turn on values leaves it in, emits the
     same effects, and asks for another turn in the same cases.
     */
    method Update(now: int, s: Sensors, o: Custom1.Oracle) returns (again: bool)
      requires Valid()
      modifies Footprint()
      ensures Valid() && imu == 0
      ensures var out := Turn(old(View()), Input(now, s, old(imu), o), ctl.cfg);
              View() == out.post && ctl.effects == old(ctl.effects) + out.effects && again == out.again
    {
      hide HealthAfter, HealthSignals, Heard, ImuSignals, Signalled, Commanded, LeafTick, TurnWith, BatchSize, Repeated;
      hide View, LeafView, Batch;
      ghost var st, i, fx := View(), Input(now, s, imu, o), ctl.effects;
      ghost var beat := LeafTick(st, i, ctl.cfg);
      var more := Hear(now, s, o);
      var start := |ctl.signals|;
      Tick(o, st, i);
      assert ctl.signals[..start] == Heard(st, i, ctl.cfg) && ctl.signals[start..] == beat.signals;
      again := Finish(o, start, more, st, i, beat);
      ghost var rest :| TurnWith(st, i, ctl.cfg, beat).effects == beat.effects + rest &&
                        ctl.effects == fx + beat.effects + rest;
      Assoc(fx, beat.effects, rest);
      ClearSignals();
    }

    /** The signals of the turn are gone once it is over. */
    method ClearSignals()
      requires |pending| <= CAPACITY
      modifies ctl`signals, this`imu
      ensures Valid() && imu == 0 && View() == old(View())
    {
      hide ImuSignals;
      ctl.signals := [];
      imu := 0;
      NoneRepeated(ImuSignals(ctl.setpoint, ctl.cfg));
    }
  }
}
