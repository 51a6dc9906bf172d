/** How old an emitted attitude command can be, how far apart requests are, and what a stop does to both. */
module NmpcTiming {
  import opened Options
  import opened Sensors
  import opened ResultBuffer
  import opened FlightTypes
  import opened Custom1
  import opened NmpcProtocol
  import opened NmpcTurns
  import opened NmpcSafety

  /** The configuration does not change during the run. */
  predicate Configured(evs: seq<Event>, cfg: Config) {
    && (forall k :: 0 <= k < |evs| && evs[k].Ticks? ==> evs[k].e.cfg == cfg)
    && (forall k :: 0 <= k < |evs| && evs[k].Enters? ==> evs[k].e.cfg == cfg)
  }

  // ------------------------------------------------------------------- freshness

  /** The attitude output is the last copy of this stay, and that was fresh when it was made. */
  predicate FreshInv(y: Sys, timeout: int) {
    y.c.Some? && y.c.value.lastSuccess > 0 ==>
      && y.log.copied.Some? && y.sh.attitude == y.log.copied.value.target
      && 0 <= y.c.value.lastSuccess - y.log.copied.value.stamp.ns <= timeout
      && y.log.copied.value.generation <= y.c.value.protocol.generation
      && (y.log.restarted <==> y.log.copied.value.generation < y.c.value.protocol.generation)
  }

  lemma TurnKeepsFresh(y: Sys, e: Env)
    requires OwnerInv(y) && FreshInv(y, e.cfg.resultTimeout) && y.c.Some? && e.cfg.resultTimeout > 0
    ensures FreshInv(OwnerTurn(y, e), e.cfg.resultTimeout)
  {
    hide NmpcTick, RequestsIn, RecentSuccess, NextRequestBase, Increasing;
    var w := NmpcProtocol.WorkOf(y.c.value, y.sh);
    TurnFacts(w, e);
    if Copied(w, e).Some? {
      CopiedIsTaken(w, e);
    }
  }

  lemma StepKeepsFresh(y: Sys, ev: Event, timeout: int)
    requires OwnerInv(y) && FreshInv(y, timeout) && Enabled(y, ev)
    requires ev.Ticks? ==> ev.e.cfg.resultTimeout == timeout && timeout > 0
    ensures FreshInv(Next(y, ev), timeout)
  {
    match ev
    case Ticks(e) => hide OwnerTurn, FreshInv; TurnKeepsFresh(y, e);
    case _ => hide OwnerTurn, OwnerInv, SolvedJob;
  }

  lemma {:induction false} TraceKeepsFresh(ys: seq<Sys>, evs: seq<Event>, cfg: Config, k: nat)
    requires IsTrace(ys, evs) && Configured(evs, cfg) && cfg.resultTimeout > 0 && k < |ys|
    ensures FreshInv(ys[k], cfg.resultTimeout)
  {
    hide Next, Enabled;
    if k > 0 {
      TraceKeepsFresh(ys, evs, cfg, k - 1);
      TraceKeepsInv(ys, evs, k - 1);
      hide FreshInv, OwnerInv, NumbersInv, AnswersInv, BackendInv;
      assert ys[k] == Next(ys[k - 1], evs[k - 1]);
      StepKeepsFresh(ys[k - 1], evs[k - 1], cfg.resultTimeout);
    }
  }

  predicate EmitsAttitude(y: Sys, e: Env)
    requires y.c.Some?
  {
    exists x :: x in NmpcTick(NmpcProtocol.WorkOf(y.c.value, y.sh), e).fx && x.AttitudeOut?
  }

  lemma EmissionStep(y: Sys, e: Env)
    requires OwnerInv(y) && FreshInv(y, e.cfg.resultTimeout) && y.c.Some? && e.cfg.resultTimeout > 0
    requires EmitsAttitude(y, e)
    ensures var y', copied := OwnerTurn(y, e), Copied(NmpcProtocol.WorkOf(y.c.value, y.sh), e);
            && y'.log.copied.Some? && y'.sh.attitude == y'.log.copied.value.target
            && e.now - y'.log.copied.value.stamp.ns <= 2 * e.cfg.resultTimeout
            && (copied.Some? ==> y'.log.copied == copied && e.now - copied.value.stamp.ns <= e.cfg.resultTimeout)
            && (y'.log.copied.value.generation == y'.c.value.protocol.generation <==> !y'.log.restarted)
  {
    hide NmpcTick, RequestsIn, NextRequestBase, Increasing;
    var w := NmpcProtocol.WorkOf(y.c.value, y.sh);
    TurnFacts(w, e);
    if Copied(w, e).Some? {
      CopiedIsTaken(w, e);
    }
  }

  // ------------------------------------------------- where the emitted target comes from

  function CopyAt(ys: seq<Sys>, evs: seq<Event>, k: nat): Option<SolveResult>
    requires k < |evs| && k < |ys|
  {
    if evs[k].Ticks? && ys[k].c.Some? then Copied(NmpcProtocol.WorkOf(ys[k].c.value, ys[k].sh), evs[k].e) else None
  }

  /** The turn at event j made the last copy before event k, in the same stay in the leaf. */
  predicate LastCopy(ys: seq<Sys>, evs: seq<Event>, j: nat, k: nat) {
    && j < k <= |evs| && |ys| == |evs| + 1
    && CopyAt(ys, evs, j).Some? && CopyAt(ys, evs, j) == ys[k].log.copied
    && (forall m :: j < m < k ==> !evs[m].Enters? && !evs[m].Exits? && CopyAt(ys, evs, m) == None)
  }

  predicate StoppedBetween(evs: seq<Event>, j: nat, k: nat)
    requires k <= |evs|
  {
    exists m :: j < m < k && evs[m].Closes?
  }

  predicate GenerationStands(y: Sys)
    requires y.c.Some?
  {
    !y.log.restarted && IsActive(y.sh.results, y.c.value.protocol.generation)
  }

  lemma StepOfCopy(y: Sys, ev: Event)
    requires OwnerInv(y) && Enabled(y, ev) && Next(y, ev).c.Some? && Next(y, ev).log.copied.Some?
    ensures !ev.Enters? && !ev.Exits? && y.c.Some?
    ensures var copied := if ev.Ticks? then Copied(NmpcProtocol.WorkOf(y.c.value, y.sh), ev.e) else None;
            if copied.Some? then Next(y, ev).log.copied == copied && GenerationStands(Next(y, ev))
            else Next(y, ev).log.copied == y.log.copied &&
                 (GenerationStands(Next(y, ev)) <==> GenerationStands(y) && !ev.Closes?)
  {
    hide NmpcTick, RequestsIn, NextRequestBase, Increasing, TimestampFresh, Taken;
    match ev
    case Ticks(e) =>
      var w := NmpcProtocol.WorkOf(y.c.value, y.sh);
      TurnFacts(w, e);
      RestartKeepsOwner(w);
      if Copied(w, e).Some? {
        CopiedIsTaken(w, e);
      }
    case _ => hide OwnerTurn, SolvedJob;
  }

  /** Since the turn that made the last copy, the generation stands exactly when the worker was not stopped. */
  lemma {:induction false} CopyHistory(ys: seq<Sys>, evs: seq<Event>, k: nat) returns (j: nat)
    requires IsTrace(ys, evs) && k < |ys| && ys[k].c.Some? && ys[k].log.copied.Some?
    ensures LastCopy(ys, evs, j, k)
    ensures GenerationStands(ys[k]) <==> !StoppedBetween(evs, j, k)
  {
    hide Copied, Next, Enabled, OwnerInv, NumbersInv, AnswersInv, BackendInv, GenerationStands;
    TraceKeepsInv(ys, evs, k - 1);
    assert ys[k] == Next(ys[k - 1], evs[k - 1]);
    StepOfCopy(ys[k - 1], evs[k - 1]);
    if CopyAt(ys, evs, k - 1).Some? {
      j := k - 1;
    } else {
      j := CopyHistory(ys, evs, k - 1);
      assert StoppedBetween(evs, j, k) <==> StoppedBetween(evs, j, k - 1) || evs[k - 1].Closes?;
    }
  }

  /** The target in use after event k was copied by the turn at event j, not long ago. */
  predicate CarriesCopy(ys: seq<Sys>, evs: seq<Event>, j: nat, k: nat, timeout: int)
    requires k < |evs| && |ys| == |evs| + 1
  {
    && LastCopy(ys, evs, j, k + 1) && evs[k].Ticks? && ys[k + 1].c.Some?
    && var x := CopyAt(ys, evs, j).value;
       && ys[k + 1].sh.attitude == x.target && evs[k].e.now - x.stamp.ns <= 2 * timeout
       && (x.generation == ys[k + 1].c.value.protocol.generation <==> !StoppedBetween(evs, j, k + 1))
  }

  /**
   Every attitude command, emitted for a new result or again after a failed solve, carries a target
   whose time stamp is at most twice the result timeout old: the last one that a turn of this stay in the
   leaf copied. That target belongs to the generation now active if and only if the worker was not
   stopped since that turn: a failure after a stop re-emits a target of the generation before.
   */
  lemma AttitudeIsFresh(ys: seq<Sys>, evs: seq<Event>, cfg: Config, k: nat) returns (j: nat)
    requires IsTrace(ys, evs) && Configured(evs, cfg) && cfg.resultTimeout > 0
    requires k < |evs| && evs[k].Ticks? && Enabled(ys[k], evs[k]) && EmitsAttitude(ys[k], evs[k].e)
    ensures CarriesCopy(ys, evs, j, k, cfg.resultTimeout)
  {
    hide NmpcTick, Logged, RequestsIn, FreshInv, EmitsAttitude, OwnerInv, NumbersInv, AnswersInv, BackendInv;
    hide CopyAt, IsActive, StoppedBetween;
    TraceKeepsInv(ys, evs, k);
    TraceKeepsFresh(ys, evs, cfg, k);
    EmissionStep(ys[k], evs[k].e);
    j := CopyHistory(ys, evs, k + 1);
    TurnIsActive(ys[k], evs[k].e);
  }

  lemma TurnIsActive(y: Sys, e: Env)
    requires OwnerInv(y) && y.c.Some?
    ensures var y' := OwnerTurn(y, e); y'.c.Some? && IsActive(y'.sh.results, y'.c.value.protocol.generation)
  {
    hide NmpcTick, RequestsIn, NextRequestBase, Increasing, TimestampFresh, Taken, RecentSuccess;
    var w := NmpcProtocol.WorkOf(y.c.value, y.sh);
    TurnFacts(w, e);
    RestartKeepsOwner(w);
  }

  /** A turn that finds its generation stopped begins the next one and sends a request. */
  lemma StoppedTurnDispatches(w: Work, e: Env)
    requires w.sh.results.active == 0 && w.sh.cache.Cached? && w.sh.cache.duration == None
    requires e.now - w.c.lastSuccess <= e.cfg.resultTimeout
    ensures var w1, n, g := NmpcTick(w, e), w.sh.results.requests + 1, w.sh.results.generations + 1;
            && w1.sh == w.sh.(results := Results(None, g, g, n)) && w1.c.lastSuccess == w.c.lastSuccess
            && w1.c.protocol.generation == g && w1.c.protocol.inFlight == n && w1.c.protocol.consumed == n - 1
            && w1.fx == w.fx + [NmpcRequest(e.now, n, g)]
  {
  }

  /** A busy answer in the buffer makes the turn emit the attitude output as it stands. */
  lemma BusyTurnReemits(w: Work, e: Env)
    requires Taken(w).Some? && !Taken(w).value.success && Taken(w).value.status == DISPATCHER_BUSY
    requires IsActive(w.sh.results, w.c.protocol.generation) && RecentSuccess(w, e)
    requires e.now >= 0 && TimestampFresh(Taken(w).value.stamp, e.now, e.cfg.resultTimeout)
    ensures AttitudeOut(e.now) in NmpcTick(w, e).fx && NmpcTick(w, e).sh.attitude == w.sh.attitude
    ensures NmpcTick(w, e).c.protocol.generation == w.c.protocol.generation
  {
    hide TimestampFresh, Taken, IsActive, NmpcTimeout, NmpcPlan, RequestsIn;
    var w1 := NmpcConsume(w, e);
    assert AttitudeOut(e.now) in w1.fx;
    ConsumeFacts(w, e);
    TimeoutFacts(w1, e);
    var w2 := NmpcTimeout(w1, e);
    PlanFacts(w2, e);
    EffectsGrow(w1, e);
    EffectsGrow(w2, e);
  }

  /** No stage takes an effect back. */
  lemma EffectsGrow(w: Work, e: Env)
    ensures forall x :: x in w.fx ==> x in NmpcTimeout(w, e).fx
    ensures forall x :: x in w.fx ==> x in NmpcPlan(w, e).fx
  {
  }

  /**
   The other case does occur: the worker is stopped while the leaf stays active, the next turn begins a
   new generation and sends its first request, that one is rejected as busy, and the turn after it
   emits the old target again.
   */
  lemma FailureAfterStopReemits(w: Work, e: Env, e': Env)
    requires w.sh.results.active == 0 && w.sh.cache.Cached? && w.sh.cache.duration == None && w.fx == []
    requires 0 < w.c.lastSuccess <= e.now <= e'.now && e'.now - w.c.lastSuccess <= e.cfg.resultTimeout
    requires e'.cfg == e.cfg && 0 < w.c.protocol.generation <= w.sh.results.generations
    ensures var w1 := NmpcTick(w, e);
            var n, g := w.sh.results.requests + 1, w.sh.results.generations + 1;
            var answer := Rejected(Request(n, g, e.now), DISPATCHER_BUSY, Stamp(e.now, true));
            var w2 := NmpcTick(w1.(sh := w1.sh.(results := Stored(w1.sh.results, answer))), e');
            && NmpcRequest(e.now, n, g) in w1.fx
            && AttitudeOut(e'.now) in w2.fx && w2.sh.attitude == w.sh.attitude
            && w2.c.protocol.generation > w.c.protocol.generation
  {
    var w1 := NmpcTick(w, e);
    var n, g := w.sh.results.requests + 1, w.sh.results.generations + 1;
    StoppedTurnDispatches(w, e);
    var answer := Rejected(Request(n, g, e.now), DISPATCHER_BUSY, Stamp(e.now, true));
    var v := w1.(sh := w1.sh.(results := Stored(w1.sh.results, answer)));
    hide NmpcTick;
    BusyTurnReemits(v, e');
  }

  // ---------------------------------------------------------------------- pacing

  /**
   A time at or after the place on the grid that the last request has: the first one at a positive time
   starts it, with one period from one request to the next. Before there was one, the time is not positive.
   */
  predicate OnGrid(log: Log, t: int, period: int) {
    if log.count == log.early then t <= 0
    else 0 < log.first && log.first + Periods(log.count - log.early - 1, period) <= t
  }

  function Periods(n: int, period: int): int {
    n * period
  }

  lemma OneMorePeriod(n: int, period: int)
    ensures Periods(n + 1, period) == Periods(n, period) + period && Periods(0, period) == 0
    ensures n >= 0 && period > 0 ==> Periods(n, period) >= 0
  {
  }

  /** The base that the next request is measured from is on the grid; at 0 it reads as "never". */
  predicate PaceInv(y: Sys, period: int) {
    y.c.Some? ==> y.log.early <= y.log.count && OnGrid(y.log, y.c.value.protocol.lastRequest, period)
  }

  lemma NextBase(lastRequest: int, now: int, period: int)
    requires lastRequest > 0 && period > 0 && now - lastRequest >= period
    ensures lastRequest + period <= NextRequestBase(lastRequest, now, period) <= now
  {
  }

  /** A request that is due comes on the grid, and so does the base it leaves. */
  lemma RequestStaysOnGrid(log: Log, log': Log, base: int, now: int, period: int)
    requires log.early <= log.count && OnGrid(log, base, period) && period > 0
    requires base <= 0 || now - base >= period
    requires log'.count == log.count + 1
    requires log'.early == if log.count == log.early && now <= 0 then log.early + 1 else log.early
    requires log'.first == if log.count == log.early && now > 0 then now else log.first
    ensures OnGrid(log', now, period) && OnGrid(log', NextRequestBase(base, now, period), period)
  {
    hide Periods, NextRequestBase;
    OneMorePeriod(log.count - log.early - 1, period);
    if base <= 0 {
      FirstBase(base, now, period);
    } else {
      NextBase(base, now, period);
    }
  }

  lemma TurnKeepsPace(y: Sys, e: Env)
    requires PaceInv(y, e.cfg.controlPeriod) && y.c.Some? && e.cfg.controlPeriod > 0
    ensures PaceInv(OwnerTurn(y, e), e.cfg.controlPeriod)
    ensures var sent := RequestsIn(NmpcTick(NmpcProtocol.WorkOf(y.c.value, y.sh), e).fx);
            |sent| <= 1 && (sent != [] ==> OnGrid(OwnerTurn(y, e).log, e.now, e.cfg.controlPeriod))
  {
    hide NmpcTick, RequestsIn, Copied, Taken, RecentSuccess, TimestampFresh, NextRequestBase, OnGrid, NmpcRestart;
    var w, period := NmpcProtocol.WorkOf(y.c.value, y.sh), e.cfg.controlPeriod;
    TurnFacts(w, e);
    NoRequests();
    RestartSendsNothing(w);
    var log := if IsActive(w.sh.results, w.c.protocol.generation) then y.log else y.log.(count := 0, early := 0);
    var log', base := OwnerTurn(y, e).log, NmpcRestart(w).c.protocol.lastRequest;
    assert OnGrid(log, base, period) by { RestartedGrid(y, w, period); }
    if RequestsIn(NmpcTick(w, e).fx) != [] {
      RequestStaysOnGrid(log, log', base, e.now, period);
    } else {
      SameGrid(log, log', base, period);
    }
  }

  lemma SameGrid(log: Log, log': Log, t: int, period: int)
    requires OnGrid(log, t, period) && log'.count == log.count && log'.early == log.early && log'.first == log.first
    ensures OnGrid(log', t, period)
  {
  }

  lemma RestartedGrid(y: Sys, w: Work, period: int)
    requires y.c.Some? && w == NmpcProtocol.WorkOf(y.c.value, y.sh) && PaceInv(y, period)
    ensures OnGrid(if IsActive(w.sh.results, w.c.protocol.generation) then y.log else y.log.(count := 0, early := 0),
                   NmpcRestart(w).c.protocol.lastRequest, period)
  {
  }

  lemma FirstBase(lastRequest: int, now: int, period: int)
    requires lastRequest <= 0
    ensures NextRequestBase(lastRequest, now, period) == now
  {
  }

  lemma StepKeepsPace(y: Sys, ev: Event, period: int)
    requires PaceInv(y, period) && Enabled(y, ev) && period > 0
    requires ev.Ticks? ==> ev.e.cfg.controlPeriod == period
    ensures PaceInv(Next(y, ev), period)
  {
    match ev
    case Ticks(e) => hide OwnerTurn, PaceInv; TurnKeepsPace(y, e);
    case _ => hide OwnerTurn, SolvedJob;
  }

  lemma {:induction false} TraceKeepsPace(ys: seq<Sys>, evs: seq<Event>, cfg: Config, k: nat)
    requires IsTrace(ys, evs) && Configured(evs, cfg) && cfg.controlPeriod > 0 && k < |ys|
    ensures PaceInv(ys[k], cfg.controlPeriod)
  {
    hide Next, Enabled;
    if k > 0 {
      TraceKeepsPace(ys, evs, cfg, k - 1);
      hide PaceInv;
      assert ys[k] == Next(ys[k - 1], evs[k - 1]);
      StepKeepsPace(ys[k - 1], evs[k - 1], cfg.controlPeriod);
    }
  }

  /**
   A turn sends at most one request. From the first request of a generation at a positive time on, the n-th
   comes no earlier than n - 1 control periods after that one; requests before it were all sent at time 0
   or earlier. When the first request of the generation was sent at a positive time there are none of those,
   and the bound is about all of its requests.
   */
  lemma RequestsArePaced(ys: seq<Sys>, evs: seq<Event>, cfg: Config, k: nat)
    requires IsTrace(ys, evs) && Configured(evs, cfg) && cfg.controlPeriod > 0
    requires k < |evs| && evs[k].Ticks? && Enabled(ys[k], evs[k])
    ensures var sent := RequestsIn(NmpcTick(NmpcProtocol.WorkOf(ys[k].c.value, ys[k].sh), evs[k].e).fx);
            var log := ys[k + 1].log;
            && |sent| <= 1 && log.dispatched == ys[k].log.dispatched + sent
            && (sent != [] ==> log.count > 0 && OnGrid(log, evs[k].e.now, cfg.controlPeriod))
  {
    hide NmpcTick, RequestsIn, PaceInv, OnGrid;
    TraceKeepsPace(ys, evs, cfg, k);
    TurnKeepsPace(ys[k], evs[k].e);
  }

  // ------------------------------------------------------------- when a turn sends

  /** After the check of the generation: the reference goes on beyond the horizon, and nothing stays in flight. */
  predicate MaySend(w: Work, e: Env) {
    && w.sh.cache.Cached? && !HorizonEnds(w, e)
    && (!w.c.protocol.pending || Taken(w).Some? || e.now > w.c.protocol.deadline)
  }

  lemma ConsumptionFrees(w: Work, e: Env)
    ensures var w' := NmpcConsume(w, e);
            && w'.sh.cache == w.sh.cache && w'.sh.results == w.sh.results
            && w'.c.protocol.lastRequest == w.c.protocol.lastRequest
            && w'.c.protocol.deadline == w.c.protocol.deadline
            && w'.c.protocol.pending == (w.c.protocol.pending && Taken(w) == None)
            && RequestsIn(w'.fx) == RequestsIn(w.fx)
  {
    hide RequestsIn, Taken, EndsWithin, MeasuredHover, TimestampFresh;
    ConsumeFacts(w, e);
    assert RequestsIn(NmpcConsume(w, e).fx) == RequestsIn(w.fx);
    hide ConsumeStep;
  }

  lemma TimeoutFrees(w: Work, e: Env)
    ensures var w' := NmpcTimeout(w, e);
            && w'.sh == w.sh && w'.c.protocol.lastRequest == w.c.protocol.lastRequest
            && w'.c.protocol.pending == (w.c.protocol.pending && e.now <= w.c.protocol.deadline)
  {
    hide MeasuredHover;
  }

  /** Planning sends exactly when the reference goes on and a request is due. */
  lemma PlanSends(w: Work, e: Env)
    ensures NmpcPlan(w, e).sh.results != w.sh.results <==>
            w.sh.cache.Cached? && !HorizonEnds(w, e) && ShouldDispatch(w.c.protocol, e.now, e.cfg.controlPeriod)
  {
    hide EndsWithin, MeasuredHover, RequestsIn;
    FallbackAside(w.(c := w.c.(armed := true)), e);
  }

  /** A turn sends a request exactly when it may and the base reads as "never" or a period has passed since. */
  lemma SendsExactlyWhenDue(w: Work, e: Env)
    requires w.fx == []
    ensures var w1 := NmpcRestart(w);
            RequestsIn(NmpcTick(w, e).fx) != [] <==>
            MaySend(w1, e) &&
            (w1.c.protocol.lastRequest <= 0 || e.now - w1.c.protocol.lastRequest >= e.cfg.controlPeriod)
  {
    hide NmpcConsume, NmpcTimeout, NmpcPlan, NmpcRestart, Taken, EndsWithin, RequestsIn;
    var w1 := NmpcRestart(w);
    var w2 := NmpcConsume(w1, e);
    var w3 := NmpcTimeout(w2, e);
    RestartSendsNothing(w);
    ConsumptionFrees(w1, e);
    TimeoutFrees(w2, e);
    TimeoutFacts(w2, e);
    PlanFacts(w3, e);
    PlanSends(w3, e);
    NoRequests();
  }

  lemma RestartSendsNothing(w: Work)
    ensures NmpcRestart(w).fx == w.fx
  {
  }

  /**
   In every run: a turn that may send a request does so if and only if the generation has sent none at a
   positive time yet, or a period has passed since the base of the last one. So a request at time 0
   delays nothing: the next turn that finds it answered sends again.
   */
  lemma SendsInRuns(ys: seq<Sys>, evs: seq<Event>, cfg: Config, k: nat)
    requires IsTrace(ys, evs) && Configured(evs, cfg) && cfg.controlPeriod > 0
    requires k < |evs| && evs[k].Ticks? && Enabled(ys[k], evs[k])
    ensures var w, e, log := NmpcProtocol.WorkOf(ys[k].c.value, ys[k].sh), evs[k].e, ys[k].log;
            RequestsIn(NmpcTick(w, e).fx) != [] <==>
            MaySend(NmpcRestart(w), e) &&
            (!IsActive(w.sh.results, w.c.protocol.generation) || log.count == log.early ||
             e.now - w.c.protocol.lastRequest >= cfg.controlPeriod)
  {
    var w := NmpcProtocol.WorkOf(ys[k].c.value, ys[k].sh);
    TraceKeepsPace(ys, evs, cfg, k);
    hide IsTrace, NmpcTick, RequestsIn, MaySend, IsActive, NmpcRestart;
    NeverReadsAsZero(ys[k], cfg.controlPeriod);
    RestartedBase(w);
    SendsExactlyWhenDue(w, evs[k].e);
  }

  lemma NeverReadsAsZero(y: Sys, period: int)
    requires PaceInv(y, period) && y.c.Some? && period > 0
    ensures y.c.value.protocol.lastRequest <= 0 <==> y.log.count == y.log.early
  {
    OneMorePeriod(y.log.count - y.log.early - 1, period);
  }

  lemma RestartedBase(w: Work)
    ensures NmpcRestart(w).c.protocol.lastRequest ==
            if IsActive(w.sh.results, w.c.protocol.generation) then w.c.protocol.lastRequest else 0
  {
  }
}
