/**
 What the theorems about the wake-up ask for holds before every turn of every run of the owner under a
 monotone clock, whatever segments, solver results, stops and references arrive between its turns.
 */
module WakeRuns {
  import opened Ticks
  import opened Sensors
  import opened Trajectory
  import opened ResultBuffer
  import opened HealthMonitor
  import opened DebugMonitor
  import opened Flight
  import opened FlightRuns
  import Custom1
  import opened Custom1Wake
  import opened FlightWake

  /** What other owners do to the shared data between two turns. */
  datatype Change =
    | Arrives(m: Ingress)              // a planner segment is received
    | Answers(x: SolveResult)          // the NMPC worker offers a result
    | Stops                            // the NMPC worker is stopped
    | Refers(cache: Custom1.Cache)     // the reference is replaced or cleared

  function Changed(sh: Custom1.Shared, ch: Change, cfg: Config): Custom1.Shared {
    match ch
    case Arrives(m) => sh.(buffer := Ingested(sh.buffer, m, cfg))
    case Answers(x) => sh.(results := Stored(sh.results, x))
    case Stops => sh.(results := Invalidated(sh.results, 0))
    case Refers(cache) => sh.(cache := cache)
  }

  function ChangedBy(sh: Custom1.Shared, chs: seq<Change>, cfg: Config): Custom1.Shared {
    if chs == [] then sh else Changed(ChangedBy(sh, chs[..|chs| - 1], cfg), chs[|chs| - 1], cfg)
  }

  /** The segments are received in this order, from time `from` to time `to`. */
  predicate Received(chs: seq<Change>, from: int, to: int) {
    && (forall k :: 0 <= k < |chs| && chs[k].Arrives? ==> from <= chs[k].m.receipt <= to)
    && (forall j, k :: 0 <= j < k < |chs| && chs[j].Arrives? && chs[k].Arrives? ==>
          chs[j].m.receipt <= chs[k].m.receipt)
  }

  /** The shared data before anything happened. */
  predicate Fresh(sh: Custom1.Shared) {
    sh.publishPeriod > 0 && sh.buffer == EMPTY && sh.results == NO_RESULTS
  }

  /** The first turn of a run, after these changes. */
  ghost predicate Opens(rec: Rec, ch: seq<Change>, cfg: Config) {
    && (exists first :: Fresh(first) && rec.pre.sh == ChangedBy(first, ch, cfg))
    && 0 <= rec.i.now && Received(ch, 0, rec.i.now)
  }

  /** The next turn of a run, after these changes. */
  predicate Follows(last: Rec, rec: Rec, ch: seq<Change>, cfg: Config) {
    && rec.pre.sh == ChangedBy(last.out.post.sh, ch, cfg)
    && last.i.now <= rec.i.now && Received(ch, last.i.now, rec.i.now)
  }

  /** A run of the owner in which chs[k] is what happened to the shared data before the k-th turn. */
  ghost predicate IsHostRun(recs: seq<Rec>, chs: seq<seq<Change>>, cfg: Config) {
    && IsRun(recs, cfg) && |chs| == |recs|
    && (recs != [] ==> Opens(recs[0], chs[0], cfg))
    && (forall k :: 0 < k < |recs| ==> Follows(recs[k - 1], recs[k], chs[k], cfg))
  }

  // ---------------------------------------------------------------- the invariant

  predicate SharedOk(sh: Custom1.Shared, cfg: Config, now: int) {
    && sh.publishPeriod > 0 && ResultsReserved(sh.results) && SlotsAdmitted(sh.buffer, cfg, now)
    && (!TakesPlannerSetpoint(cfg) ==> !sh.buffer.pending.valid)
  }

  lemma LaterIsOk(sh: Custom1.Shared, cfg: Config, now: int, t: int)
    requires SharedOk(sh, cfg, now) && now <= t
    ensures SharedOk(sh, cfg, t)
  {
  }

  lemma ChangeKeepsOk(sh: Custom1.Shared, ch: Change, cfg: Config, now: int)
    requires SharedOk(sh, cfg, now) && (ch.Arrives? ==> now <= ch.m.receipt)
    ensures SharedOk(Changed(sh, ch, cfg), cfg, if ch.Arrives? then ch.m.receipt else now)
  {
  }

  /** The time of the last segment received, or `from` when there was none. */
  function LastReceipt(chs: seq<Change>, from: int): int {
    if chs == [] then from
    else if chs[|chs| - 1].Arrives? then chs[|chs| - 1].m.receipt
    else LastReceipt(chs[..|chs| - 1], from)
  }

  lemma {:induction false} LastReceiptWithin(chs: seq<Change>, from: int, to: int)
    requires Received(chs, from, to) && from <= to
    ensures from <= LastReceipt(chs, from) <= to
    ensures forall k :: 0 <= k < |chs| && chs[k].Arrives? ==> chs[k].m.receipt <= LastReceipt(chs, from)
    ensures LastReceipt(chs, from) == from ||
            exists k :: 0 <= k < |chs| && chs[k].Arrives? && chs[k].m.receipt == LastReceipt(chs, from)
  {
    if chs != [] {
      LastReceiptWithin(chs[..|chs| - 1], from, to);
    }
  }

  lemma {:induction false} ChangesKeepOkSoFar(sh: Custom1.Shared, chs: seq<Change>, cfg: Config, from: int, to: int)
    requires SharedOk(sh, cfg, from) && Received(chs, from, to) && from <= to
    ensures SharedOk(ChangedBy(sh, chs, cfg), cfg, LastReceipt(chs, from))
  {
    hide SharedOk, Changed;
    if chs != [] {
      var before, ch := chs[..|chs| - 1], chs[|chs| - 1];
      ChangesKeepOkSoFar(sh, before, cfg, from, to);
      LastReceiptWithin(before, from, to);
      ChangeKeepsOk(ChangedBy(sh, before, cfg), ch, cfg, LastReceipt(before, from));
    }
  }

  lemma ChangesKeepOk(sh: Custom1.Shared, chs: seq<Change>, cfg: Config, from: int, to: int)
    requires SharedOk(sh, cfg, from) && Received(chs, from, to) && from <= to
    ensures SharedOk(ChangedBy(sh, chs, cfg), cfg, to)
  {
    hide SharedOk, Changed;
    ChangesKeepOkSoFar(sh, chs, cfg, from, to);
    LastReceiptWithin(chs, from, to);
    LaterIsOk(ChangedBy(sh, chs, cfg), cfg, LastReceipt(chs, from), to);
  }

  // ---------------------------------------------------------------- a turn keeps it

  lemma NmpcKeepsOk(w: Custom1.Work, e: Custom1.Env)
    requires SharedOk(w.sh, e.cfg, e.now)
    ensures SharedOk(Custom1.NmpcTick(w, e).sh, e.cfg, e.now)
  {
    hide Custom1.NmpcRestart, Custom1.NmpcConsume, Custom1.NmpcTimeout;
    hide Custom1.MeasuredHover, Custom1.EndsWithin, SlotsAdmitted;
    NmpcPrepares(w, e);
  }

  /** Outside NMPC a tick promotes a due segment or leaves the slots, and keeps results and publish period. */
  predicate SlotsMove(w: Custom1.Work, w': Custom1.Work, e: Custom1.Env) {
    && w'.sh.results == w.sh.results && w'.sh.publishPeriod == w.sh.publishPeriod
    && (w'.sh.buffer == w.sh.buffer || w'.sh.buffer == Custom1.PromoteDue(w, e).sh.buffer)
  }

  lemma DfbcMovesSlots(w: Custom1.Work, e: Custom1.Env)
    ensures SlotsMove(w, Custom1.DfbcStreamTick(w, e), e) && SlotsMove(w, Custom1.DfbcCacheTick(w, e), e)
  {
    hide Promoted, Custom1.ActiveLift, Custom1.MayTake, Custom1.EndsWithin, Custom1.MeasuredHover;
    hide Custom1.ShouldPublish, Custom1.ShouldRunSync;
  }

  lemma SmcMovesSlots(w: Custom1.Work, e: Custom1.Env)
    ensures SlotsMove(w, Custom1.SmcTick(w, e), e)
  {
    hide Promoted, Custom1.ActiveLift, Custom1.MayTake, Custom1.MeasuredHover;
    hide Custom1.ShouldPublish, Custom1.ShouldRunSync, PassThroughActive;
  }

  lemma PassThroughMovesSlots(w: Custom1.Work, e: Custom1.Env)
    ensures SlotsMove(w, Custom1.PvaSmcTick(w, e), e) && SlotsMove(w, Custom1.Px4LocalTick(w, e), e)
  {
    hide Promoted, Custom1.ActiveLift, Custom1.MayTake, Custom1.MeasuredHover, Custom1.ShouldPublish;
  }

  lemma MovedSlotsAreOk(w: Custom1.Work, w': Custom1.Work, e: Custom1.Env)
    requires SharedOk(w.sh, e.cfg, e.now) && SlotsMove(w, w', e)
    ensures SharedOk(w'.sh, e.cfg, e.now)
  {
  }

  lemma TickKeepsOk(w: Custom1.Work, e: Custom1.Env)
    requires SharedOk(w.sh, e.cfg, e.now)
    ensures SharedOk(Custom1.Tick(w, e).sh, e.cfg, e.now)
  {
    hide SharedOk, SlotsMove, Custom1.NmpcTick, Custom1.DfbcStreamTick, Custom1.DfbcCacheTick, Custom1.SmcTick;
    hide Custom1.PvaSmcTick, Custom1.Px4LocalTick;
    match e.cfg.backend {
      case Nmpc => NmpcKeepsOk(w, e);
      case Dfbc => DfbcMovesSlots(w, e);
      case Smc => SmcMovesSlots(w, e);
      case _ => PassThroughMovesSlots(w, e);
    }
    if e.cfg.backend != Nmpc {
      MovedSlotsAreOk(w, Custom1.Tick(w, e), e);
    }
  }

  /** So do leaving the tracking leaf and entering any leaf. */
  lemma ExitAndEntryKeepOk(leaf: Leaf, kind: Kind, i: Input, cfg: Config, sp: Setpoint, requested: bool,
                           sh: Custom1.Shared)
    requires SharedOk(sh, cfg, i.now)
    ensures SharedOk(EnterLeaf(kind, i, cfg, sp, requested, ExitLeaf(leaf, sh)).sh, cfg, i.now)
  {
  }

  lemma TurnKeepsOk(st: State, i: Input, cfg: Config)
    requires SharedOk(st.sh, cfg, i.now)
    ensures SharedOk(Turn(st, i, cfg).post.sh, cfg, i.now)
  {
    var beat := LeafTick(st, i, cfg);
    TickKeepsShared(st, i, cfg);
    if st.leaf.AtCustom1? {
      hide Custom1.Tick, SharedOk;
      TickKeepsOk(Custom1.Work(st.leaf.tracking, st.sh, st.sp, [], []), Custom1.Env(cfg, i.s, i.now, i.o));
    }
    hide LeafTick, SharedOk;
    assert SharedOk(beat.sh, cfg, i.now);
    ConclusionKeepsOk(st, i, cfg, beat, Choose(KindOf(st.leaf), ViewOf(st, i, cfg, beat)));
  }

  lemma ConclusionKeepsOk(st: State, i: Input, cfg: Config, beat: Beat, choice: Choice)
    requires SharedOk(beat.sh, cfg, i.now)
    ensures SharedOk(Concluded(st, i, cfg, beat, choice).post.sh, cfg, i.now)
  {
    hide SharedOk, HealthAfter, Heard, Diagnostics, DebugTicked, DebugEffects, Unconsumed, EnterLeaf, ExitLeaf;
    if choice.Enter? {
      ExitAndEntryKeepOk(beat.leaf, choice.kind, i, cfg, beat.sp, st.requested, beat.sh);
    }
  }

  // ----------------------------------------------------------------------- runs

  lemma {:induction false} HostRunIsOk(recs: seq<Rec>, chs: seq<seq<Change>>, cfg: Config, k: nat)
    requires IsHostRun(recs, chs, cfg) && k < |recs|
    ensures recs[k].i.now >= 0 && SharedOk(recs[k].pre.sh, cfg, recs[k].i.now)
  {
    hide SharedOk, Turn, Received;
    var ch, now := chs[k], recs[k].i.now;
    if k == 0 {
      var first :| Fresh(first) && recs[0].pre.sh == ChangedBy(first, ch, cfg);
      FreshIsOk(first, cfg);
      ChangesKeepOk(first, ch, cfg, 0, now);
    } else {
      var last := recs[k - 1];
      HostRunIsOk(recs, chs, cfg, k - 1);
      assert last.out == Turn(last.pre, last.i, cfg) && Follows(last, recs[k], ch, cfg);
      TurnKeepsOk(last.pre, last.i, cfg);
      ChangesKeepOk(last.out.post.sh, ch, cfg, last.i.now, now);
    }
  }

  lemma FreshIsOk(sh: Custom1.Shared, cfg: Config)
    requires Fresh(sh)
    ensures SharedOk(sh, cfg, 0)
  {
  }

  /** The periods a configuration must have. */
  predicate Timed(cfg: Config) {
    cfg.controlPeriod > 0 && cfg.solveTimeout >= 0 && cfg.horizonSpan >= 0
  }

  /** Before every turn of every run, what the theorems about the wake-up ask for holds. */
  lemma UsableInRuns(recs: seq<Rec>, chs: seq<seq<Change>>, cfg: Config, k: nat)
    requires IsHostRun(recs, chs, cfg) && k < |recs| && Timed(cfg)
    ensures Sound(recs[k].pre) && Usable(recs[k].pre, recs[k].i, cfg)
  {
    HostRunIsOk(recs, chs, cfg, k);
    RunIsSound(recs, cfg, k);
  }

  /**
   In every run: when a turn has not asked for another one, the wake-up lies ahead; and when nothing has
   arrived since, the next turn, if it comes before the wake-up, emits nothing and stays, unless the
   wake-up is late, which takes a turn at time 0.
   */
  lemma WakeUpsInRuns(recs: seq<Rec>, chs: seq<seq<Change>>, cfg: Config, k: nat)
    requires IsHostRun(recs, chs, cfg) && 0 < k < |recs| && Timed(cfg) && !recs[k - 1].out.again
    ensures var last, wake := recs[k - 1].i, NextWake(recs[k - 1].out.post, cfg, recs[k - 1].i.s, recs[k - 1].i.now);
            && After(wake, last.now)
            && (recs[k].pre == recs[k - 1].out.post && NothingArrives(last.s, recs[k].i, last.now) &&
                After(wake, recs[k].i.now) ==>
                  && (!Late(recs[k].pre, cfg) <==>
                        recs[k].out.effects == [] && recs[k].out.signals == [] && recs[k].out.choice == Stay)
                  && (Late(recs[k].pre, cfg) ==> last.now == 0))
  {
    hide Turn, NextWake, After, Late, Usable, Sound, NothingArrives, Timed, Received;
    UsableInRuns(recs, chs, cfg, k - 1);
    var st, i := recs[k - 1].pre, recs[k - 1].i;
    assert recs[k - 1].out == Turn(st, i, cfg) && recs[k].out == Turn(recs[k].pre, recs[k].i, cfg);
    WakeMovesOn(st, i, cfg);
    if recs[k].pre == recs[k - 1].out.post && NothingArrives(i.s, recs[k].i, i.now) &&
       After(NextWake(recs[k - 1].out.post, cfg, i.s, i.now), recs[k].i.now) {
      EarlyTurnIsSilent(st, i, recs[k].i, cfg);
    }
  }
}
