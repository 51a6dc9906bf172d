/** Every request to arm has been earned by a complete, undisturbed takeoff sequence. */
module FlightArming {
  import opened Sensors
  import opened FlightTypes
  import opened HealthMonitor
  import opened DebugMonitor
  import opened TakeoffStates
  import opened LandingLeaf
  import opened Flight
  import opened FlightRuns
  import Custom1

  // ------------------------------------------------------------- one turn

  /** The position distance as the turn's health tick left it. */
  function DistanceSeen(r: Rec): Distance {
    r.out.post.health.comparison.distance
  }

  /** Nothing in the turn speaks against flying: no safety signal, no Land, no excessive distance. */
  predicate Calm(r: Rec) {
    && (forall x :: x in r.out.signals ==> !Safety(x))
    && Land !in Batch(r.pre)
    && !DistanceSeen(r).exceeded
  }

  /** The turn takes a Takeoff command in Ready, with the position distance available and not exceeded. */
  predicate TakesOff(r: Rec) {
    && r.pre.leaf.AtReady? && r.out.post.leaf.AtInit?
    && Takeoff in Batch(r.pre) && DistanceSeen(r).available && Calm(r)
  }

  predicate Turned(r: Rec, cfg: Config) {
    Sound(r.pre) && r.out == Turn(r.pre, r.i, cfg)
  }

  /** Whatever is still in a takeoff leaf after a turn, that turn was calm. */
  lemma StaysCalm(kind: Kind, v: View)
    requires kind != SelfCheck && kind != Landed
    requires var c := Choose(kind, v);
             if c == Stay then kind == TakeoffInit || kind == TakeoffOffboard || kind == TakeoffArm
             else c.kind == TakeoffInit || c.kind == TakeoffOffboard || c.kind == TakeoffArm
    ensures (forall x :: x in v.signals ==> !Safety(x)) && Land !in v.commands && !v.distance.exceeded
    ensures var c := Choose(kind, v);
            c.Enter? ==>
              && (c.kind == TakeoffInit ==> kind == Ready && Takeoff in v.commands && v.distance.available)
              && (c.kind == TakeoffOffboard ==> kind == TakeoffInit && AltctlReady in v.signals)
              && (c.kind == TakeoffArm ==> kind == TakeoffOffboard && OffboardReady in v.signals)
  {
  }

  predicate TakeoffLeaf(leaf: Leaf) {
    leaf.AtInit? || leaf.AtOffboard? || leaf.AtArm?
  }

  /** How a turn gets to, or stays in, a takeoff leaf. */
  predicate TakeoffStep(r: Rec, cfg: Config) {
    TakeoffLeaf(r.out.post.leaf) ==>
      Calm(r) &&
      match r.out.post.leaf
      case AtInit(d) =>
        || (TakesOff(r) && d == InitEntered(cfg, r.i.now))
        || (r.pre.leaf.AtInit? && d == InitTick(r.pre.leaf.init, r.i.s, r.i.now).leaf)
      case AtOffboard(d) =>
        || (r.pre.leaf.AtInit? && d == OffboardEntered(r.i.now) &&
            AltctlReady in InitTick(r.pre.leaf.init, r.i.s, r.i.now).signals)
        || (r.pre.leaf.AtOffboard? && d == OffboardTick(r.pre.leaf.offboard, r.i.s, r.i.now).leaf)
      case AtArm(d) =>
        || (r.pre.leaf.AtOffboard? && OffboardReady in OffboardTick(r.pre.leaf.offboard, r.i.s, r.i.now).signals)
        || r.pre.leaf.AtArm?
      case _ => true
  }

  lemma TakeoffTurn(r: Rec, cfg: Config)
    requires Turned(r, cfg)
    ensures TakeoffStep(r, cfg)
  {
    hide Heard, HealthAfter, LeafSound, Choose, Concluded, ReferenceReady;
    var st, i := r.pre, r.i;
    var beat := LeafTick(st, i, cfg);
    var kind, v := KindOf(st.leaf), ViewOf(st, i, cfg, beat);
    var choice := Choose(kind, v);
    BeatShape(st, i, cfg);
    HeardIsForeign(st, i, cfg);
    ChoiceFacts(kind, v);
    EnteredLeaf(st, i, cfg, beat, choice);
    if TakeoffLeaf(r.out.post.leaf) {
      if kind == SelfCheck || kind == Landed {
        NoTakeoffFrom(kind, v);
      } else {
        StaysCalm(kind, v);
      }
    }
  }

  /** What a turn leaves behind, as far as takeoff is concerned. */
  lemma EnteredLeaf(st: State, i: Input, cfg: Config, beat: Beat, choice: Choice)
    ensures var out := Concluded(st, i, cfg, beat, choice);
            && out.post.health == HealthAfter(st.health, i.s, cfg, i.now)
            && out.signals == Heard(st, i, cfg) + beat.signals && out.choice == choice
            && (choice == Stay ==> out.post.leaf == beat.leaf)
            && (choice.Enter? ==> KindOf(out.post.leaf) == choice.kind)
            && (choice.Enter? && choice.kind == TakeoffInit ==> out.post.leaf == AtInit(InitEntered(cfg, i.now)))
            && (choice.Enter? && choice.kind == TakeoffOffboard ==> out.post.leaf == AtOffboard(OffboardEntered(i.now)))
  {
    hide HealthAfter, Heard, Diagnostics, Unconsumed, DebugTicked, DebugEffects, ExitLeaf, Latched, Airborne;
    hide Custom1.Entered, Custom1.EnteredShared, Custom1.EntryEffects, LandingEntered, InitEntered, OffboardEntered;
  }

  lemma NoTakeoffFrom(kind: Kind, v: View)
    requires kind == SelfCheck || kind == Landed
    ensures Choose(kind, v).Enter? ==> Choose(kind, v).kind == Ready || Choose(kind, v).kind == SelfCheck
  {
  }

  /** Only the arm-request leaf asks to arm. */
  predicate ArmsOnlyFromArm(r: Rec) {
    forall e :: e in r.out.effects && e.ArmRequest? && e.arm ==> r.pre.leaf.AtArm?
  }

  lemma OnlyArmLeafArms(r: Rec, cfg: Config)
    requires Turned(r, cfg)
    ensures ArmsOnlyFromArm(r)
  {
    hide Choose, ViewOf, Concluded, LeafSound;
    var beat := LeafTick(r.pre, r.i, cfg);
    BeatShape(r.pre, r.i, cfg);
    if !r.pre.leaf.AtArm? {
      TickNeverArms(r.pre, r.i, cfg);
    }
    hide LeafTick;
    EntryNeverArms(r.pre, r.i, cfg, beat, Choose(KindOf(r.pre.leaf), ViewOf(r.pre, r.i, cfg, beat)));
  }

  lemma TickNeverArms(st: State, i: Input, cfg: Config)
    requires LeafSound(st.leaf) && !st.leaf.AtArm?
    ensures forall e :: e in LeafTick(st, i, cfg).effects ==> !(e.ArmRequest? && e.arm)
  {
    BeatShape(st, i, cfg);
    hide LeafSound, Custom1.Tick, ConfirmedFrames, TouchdownReady, Counted, AtAltitude, DescentVelocity;
  }

  /** Neither an entry action nor the debug monitor asks to arm. */
  lemma EntryNeverArms(st: State, i: Input, cfg: Config, beat: Beat, choice: Choice)
    ensures forall e :: e in Concluded(st, i, cfg, beat, choice).effects && e.ArmRequest? && e.arm ==> e in beat.effects
  {
    hide HealthAfter, Heard, Diagnostics, Unconsumed, DebugTicked, DebugEffects, ExitLeaf, Latched, EnterLeaf, Airborne;
    DebugRequestsNothing(st.debug, i.now, Diagnostics(st, i, cfg, beat.signals, choice) != []);
    match choice
    case Stay =>
    case Enter(kind, _, _) => EntryRequests(kind, i, cfg, beat.sp, st.requested, ExitLeaf(beat.leaf, beat.sh));
  }

  // --------------------------------------------------------------- history

  /** What the history of arming needs to know of a run. */
  ghost predicate Linked(recs: seq<Rec>, cfg: Config) {
    && (forall k :: 0 <= k < |recs| ==> TakeoffStep(recs[k], cfg) && ArmsOnlyFromArm(recs[k]))
    && (recs != [] ==> recs[0].pre.leaf.AtSelfCheck?)
    && (forall k :: 0 < k < |recs| ==> recs[k].pre.leaf == recs[k - 1].out.post.leaf)
  }

  lemma RunIsLinked(recs: seq<Rec>, cfg: Config)
    requires IsRun(recs, cfg)
    ensures Linked(recs, cfg)
  {
    forall k | 0 <= k < |recs| ensures TakeoffStep(recs[k], cfg) && ArmsOnlyFromArm(recs[k]) {
      RunIsSound(recs, cfg, k);
      TakeoffTurn(recs[k], cfg);
      OnlyArmLeafArms(recs[k], cfg);
    }
  }

  /** How many of the last fresh FCU frames in turns (a, k] report the mode, without a break. */
  function Streak(recs: seq<Rec>, a: nat, k: nat, mode: FcuMode): nat
    requires a <= k < |recs|
    decreases k
  {
    if k == a then 0
    else if !recs[k].i.s.fcu.isNew then Streak(recs, a, k - 1, mode)
    else if recs[k].i.s.mode == mode then Streak(recs, a, k - 1, mode) + 1
    else 0
  }

  function AtMost(n: nat, limit: nat): nat {
    if n < limit then n else limit
  }

  /** Turns a..k were calm, and those after a began in the given leaf. */
  predicate CalmIn(recs: seq<Rec>, a: nat, k: nat, kind: Kind)
    requires a <= k < |recs|
  {
    && (forall j :: a <= j <= k ==> Calm(recs[j]))
    && (forall j :: a < j <= k ==> KindOf(recs[j].pre.leaf) == kind)
  }

  lemma CalmLonger(recs: seq<Rec>, a: nat, k: nat, kind: Kind)
    requires a < k < |recs| && CalmIn(recs, a, k - 1, kind) && Calm(recs[k]) && KindOf(recs[k].pre.leaf) == kind
    ensures CalmIn(recs, a, k, kind)
  {
  }

  /** Counting up to a limit is the same as limiting the count. */
  lemma CountedAtMost(streak: nat, required: nat, isNew: bool, good: bool)
    ensures Counted(AtMost(streak, required), required, isNew, good) ==
            AtMost(if !isNew then streak else if good then streak + 1 else 0, required)
  {
  }

  /** A turn that ends in TakeoffInit. */
  lemma InitStepAt(recs: seq<Rec>, cfg: Config, k: nat)
    requires Linked(recs, cfg) && k < |recs| && recs[k].out.post.leaf.AtInit?
    ensures var r, d := recs[k], recs[k].out.post.leaf.init;
            && Calm(r)
            && (if r.pre.leaf.AtInit?
                then k > 0 && r.pre.leaf == recs[k - 1].out.post.leaf &&
                     d == InitTick(r.pre.leaf.init, r.i.s, r.i.now).leaf
                else TakesOff(r) && d == InitEntered(cfg, r.i.now))
  {
  }

  /**
   After turn k in TakeoffInit: when Ready was left, and that the frame count is the streak since, or the gate
   skipped.
   */
  lemma {:induction false} InitHistory(recs: seq<Rec>, cfg: Config, k: nat) returns (r: nat)
    requires Linked(recs, cfg) && k < |recs| && recs[k].out.post.leaf.AtInit?
    ensures r <= k && TakesOff(recs[r]) && CalmIn(recs, r, k, TakeoffInit)
    ensures var d := recs[k].out.post.leaf.init;
            && d.skip == cfg.skipAltctlGate
            && d.frames == if d.skip then REQUIRED_ALTCTL_FRAMES
                           else AtMost(Streak(recs, r, k, ALTCTL), REQUIRED_ALTCTL_FRAMES)
  {
    hide Calm, TakesOff, TakeoffStep, ArmsOnlyFromArm, CalmIn, Counted, AtMost;
    InitStepAt(recs, cfg, k);
    if recs[k].pre.leaf.AtInit? {
      r := InitHistory(recs, cfg, k - 1);
      CalmLonger(recs, r, k, TakeoffInit);
      CountedAtMost(Streak(recs, r, k - 1, ALTCTL), REQUIRED_ALTCTL_FRAMES, recs[k].i.s.fcu.isNew,
                    recs[k].i.s.mode == ALTCTL);
    } else {
      r := k;
      CalmAtStart(recs, k, TakeoffInit);
    }
  }

  lemma CalmAtStart(recs: seq<Rec>, k: nat, kind: Kind)
    requires k < |recs| && Calm(recs[k])
    ensures CalmIn(recs, k, k, kind)
    ensures AtMost(0, REQUIRED_ALTCTL_FRAMES) == 0 && AtMost(0, REQUIRED_OFFBOARD_FRAMES) == 0
  {
  }

  /** The ALTCTL gate opens only on enough frames. */
  lemma GatePassed(d: Init, i: Input, streak: nat)
    requires !d.skip ==> d.frames == AtMost(streak, REQUIRED_ALTCTL_FRAMES)
    requires AltctlReady in InitTick(d, i.s, i.now).signals && !d.skip
    ensures (if !i.s.fcu.isNew then streak else if i.s.mode == ALTCTL then streak + 1 else 0) >= REQUIRED_ALTCTL_FRAMES
  {
  }

  /** A turn that ends in TakeoffOffboard. */
  lemma OffboardStepAt(recs: seq<Rec>, cfg: Config, k: nat)
    requires Linked(recs, cfg) && k < |recs| && recs[k].out.post.leaf.AtOffboard?
    ensures var r, d := recs[k], recs[k].out.post.leaf.offboard;
            && Calm(r) && k > 0 && r.pre.leaf == recs[k - 1].out.post.leaf
            && (if r.pre.leaf.AtInit?
                then AltctlReady in InitTick(r.pre.leaf.init, r.i.s, r.i.now).signals && d == OffboardEntered(r.i.now)
                else r.pre.leaf.AtOffboard? && d == OffboardTick(r.pre.leaf.offboard, r.i.s, r.i.now).leaf)
  {
  }

  /** After turn k in TakeoffOffboard: the takeoff turn r and the turn a that passed the ALTCTL gate. */
  lemma {:induction false} OffboardHistory(recs: seq<Rec>, cfg: Config, k: nat) returns (r: nat, a: nat)
    requires Linked(recs, cfg) && k < |recs| && recs[k].out.post.leaf.AtOffboard?
    ensures r < a <= k && TakesOff(recs[r]) && CalmIn(recs, r, a, TakeoffInit)
    ensures cfg.skipAltctlGate || Streak(recs, r, a, ALTCTL) >= REQUIRED_ALTCTL_FRAMES
    ensures CalmIn(recs, a, k, TakeoffOffboard)
    ensures recs[k].out.post.leaf.offboard.frames ==
            AtMost(Streak(recs, a, k, OFFBOARD), REQUIRED_OFFBOARD_FRAMES)
  {
    hide Calm, TakesOff, TakeoffStep, ArmsOnlyFromArm, CalmIn, Counted, AtMost, InitTick;
    OffboardStepAt(recs, cfg, k);
    if recs[k].pre.leaf.AtInit? {
      r := InitHistory(recs, cfg, k - 1);
      a := k;
      CalmLonger(recs, r, k, TakeoffInit);
      CalmAtStart(recs, k, TakeoffOffboard);
      if !cfg.skipAltctlGate {
        GatePassed(recs[k].pre.leaf.init, recs[k].i, Streak(recs, r, k - 1, ALTCTL));
      }
    } else {
      r, a := OffboardHistory(recs, cfg, k - 1);
      CalmLonger(recs, a, k, TakeoffOffboard);
      CountedAtMost(Streak(recs, a, k - 1, OFFBOARD), REQUIRED_OFFBOARD_FRAMES, recs[k].i.s.fcu.isNew,
                    recs[k].i.s.mode == OFFBOARD);
    }
  }

  /** The complete sequence behind turn k: takeoff at r, ALTCTL gate at a, OFFBOARD gate at o. */
  predicate Earned(recs: seq<Rec>, cfg: Config, r: nat, a: nat, o: nat, k: nat) {
    && r < a < o < k < |recs|
    && TakesOff(recs[r])
    && CalmIn(recs, r, a, TakeoffInit)
    && (cfg.skipAltctlGate || Streak(recs, r, a, ALTCTL) >= REQUIRED_ALTCTL_FRAMES)
    && CalmIn(recs, a, o, TakeoffOffboard)
    && Streak(recs, a, o, OFFBOARD) >= REQUIRED_OFFBOARD_FRAMES
    && CalmIn(recs, o, k - 1, TakeoffArm)
    && recs[k].pre.leaf.AtArm?
  }

  /** A turn that ends in TakeoffArm. */
  lemma ArmStepAt(recs: seq<Rec>, cfg: Config, k: nat)
    requires Linked(recs, cfg) && k < |recs| && recs[k].out.post.leaf.AtArm?
    ensures var r := recs[k];
            && Calm(r) && k > 0 && r.pre.leaf == recs[k - 1].out.post.leaf
            && (r.pre.leaf.AtArm? ||
                (r.pre.leaf.AtOffboard? && OffboardReady in OffboardTick(r.pre.leaf.offboard, r.i.s, r.i.now).signals))
  {
  }

  /** The OFFBOARD gate opens only on enough frames. */
  lemma OffboardPassed(d: Offboard, i: Input, streak: nat)
    requires d.frames == AtMost(streak, REQUIRED_OFFBOARD_FRAMES)
    requires OffboardReady in OffboardTick(d, i.s, i.now).signals
    ensures var longer := if !i.s.fcu.isNew then streak else if i.s.mode == OFFBOARD then streak + 1 else 0;
            longer >= REQUIRED_OFFBOARD_FRAMES
  {
  }

  lemma {:induction false} ArmHistory(recs: seq<Rec>, cfg: Config, k: nat) returns (r: nat, a: nat, o: nat)
    requires Linked(recs, cfg) && k < |recs| && recs[k].pre.leaf.AtArm?
    ensures Earned(recs, cfg, r, a, o, k)
  {
    hide Calm, TakesOff, TakeoffStep, ArmsOnlyFromArm, CalmIn, AtMost, OffboardTick;
    assert k > 0 && recs[k].pre.leaf == recs[k - 1].out.post.leaf;
    ArmStepAt(recs, cfg, k - 1);
    if recs[k - 1].pre.leaf.AtOffboard? {
      r, a := OffboardHistory(recs, cfg, k - 2);
      o := k - 1;
      OffboardPassed(recs[k - 1].pre.leaf.offboard, recs[k - 1].i, Streak(recs, a, k - 2, OFFBOARD));
      CalmLonger(recs, a, k - 1, TakeoffOffboard);
      CalmAtStart(recs, k - 1, TakeoffArm);
    } else {
      r, a, o := ArmHistory(recs, cfg, k - 1);
      CalmLonger(recs, o, k - 1, TakeoffArm);
    }
  }

  /**
   In any run, every request to arm is preceded, since Ready was last left, by a Takeoff command taken
   with the position distance available and not exceeded, then by the required consecutive fresh ALTCTL
   frames unless that gate is skipped, then by the required consecutive fresh OFFBOARD frames; and no
   turn from the takeoff up to the one before the request saw a safety signal, a Land command or an
   excessive distance.
   */
  lemma ArmingIsEarned(recs: seq<Rec>, cfg: Config, k: nat, e: Effect)
    requires IsRun(recs, cfg) && k < |recs| && e in recs[k].out.effects && e.ArmRequest? && e.arm
    ensures exists r, a, o :: Earned(recs, cfg, r, a, o, k)
  {
    RunIsLinked(recs, cfg);
    var r, a, o := ArmHistory(recs, cfg, k);
  }

  /**
   The calm ends at the turn before the request, and not at the request: a turn asks to arm exactly when
   it begins in the arm-request leaf with the periodic request due, whatever it delivers, because the leaf
   ticks before the turn looks at its commands. Even a turn that leaves on a Land command arms then.
   */
  lemma ArmsExactlyWhenDue(st: State, i: Input, cfg: Config)
    requires Sound(st)
    ensures ArmRequest(i.now, true) in Turn(st, i, cfg).effects <==>
            st.leaf.AtArm? && st.leaf.arm.request.Elapsed(i.now) >= REQUEST_INTERVAL
    ensures st.leaf.AtArm? && Land in Batch(st) ==> Turn(st, i, cfg).post.leaf.AtLanding?
  {
    var beat := LeafTick(st, i, cfg);
    if st.leaf.AtArm? {
      LandPreempts(st, i, cfg);
    } else {
      TickNeverArms(st, i, cfg);
    }
    assert ArmRequest(i.now, true) in beat.effects <==>
           st.leaf.AtArm? && st.leaf.arm.request.Elapsed(i.now) >= REQUEST_INTERVAL;
    hide LeafTick, Choose, ViewOf, Concluded, LeafSound;
    var choice := Choose(KindOf(st.leaf), ViewOf(st, i, cfg, beat));
    EntryNeverArms(st, i, cfg, beat, choice);
    TickIsEmitted(st, i, cfg, beat, choice);
  }

  lemma TickIsEmitted(st: State, i: Input, cfg: Config, beat: Beat, choice: Choice)
    ensures forall e :: e in beat.effects ==> e in Concluded(st, i, cfg, beat, choice).effects
  {
    hide HealthAfter, Heard, Unconsumed, Diagnostics, DebugTicked, DebugEffects, EnterLeaf, ExitLeaf;
  }

  lemma LandPreempts(st: State, i: Input, cfg: Config)
    requires st.leaf.AtArm?
    ensures Land in Batch(st) ==> Turn(st, i, cfg).post.leaf.AtLanding?
  {
    hide HealthAfter, Heard, Unconsumed, Diagnostics, DebugTicked, DebugEffects, LandingEntered, ReferenceReady;
    hide ArmTick;
    var choice := Choose(TakeoffArm, ViewOf(st, i, cfg, LeafTick(st, i, cfg)));
    match choice
    case Stay =>
    case Enter(_, _, _) =>
  }
}
