/**
 What an NMPC turn makes of the answer it finds: whether it ends the tracking, commands, or backs up, decided
 on the fields of the leaf and carried over every trace of the protocol.
 */
module NmpcAnswers {
  import opened Options
  import opened Sensors
  import opened ResultBuffer
  import opened FlightTypes
  import opened Custom1
  import opened NmpcProtocol
  import opened TrackingOutputs

  // ------------------------------------------------------------- what a turn finds

  /** The generation that the leaf began is still the active one. */
  predicate Current(w: Work) {
    w.c.protocol.generation != 0 && w.c.protocol.generation == w.sh.results.active
  }

  /** The stored result, if it answers the request in flight and was not taken before. */
  function Answer(w: Work): Option<SolveResult> {
    var p := w.c.protocol;
    match w.sh.results.latest
    case None => None
    case Some(x) =>
      if Current(w) && x.generation == p.generation && x.sequence == p.inFlight && p.consumed < x.sequence
      then Some(x) else None
  }

  /** An answer is used when its stamp is readable, not ahead, and at most the timeout old, if there is one. */
  predicate InTime(x: SolveResult, e: Env) {
    && e.now >= 0 && x.stamp.canonical && 0 <= e.now - x.stamp.ns
    && (e.cfg.resultTimeout > 0 ==> e.now - x.stamp.ns <= e.cfg.resultTimeout)
  }

  predicate Succeeds(w: Work, e: Env) {
    Answer(w).Some? && InTime(Answer(w).value, e) && Answer(w).value.success
  }

  predicate Fails(w: Work, e: Env) {
    Answer(w).Some? && InTime(Answer(w).value, e) && !Answer(w).value.success
  }

  /** The reference could not be sampled for the request. */
  predicate Unsampled(w: Work, e: Env) {
    Fails(w, e) && Answer(w).value.status == -2
  }

  /** A request in flight is past its deadline, and no answer has come. */
  predicate Overdue(w: Work, e: Env) {
    Current(w) && w.c.protocol.pending && Answer(w) == None && w.c.protocol.deadline < e.now
  }

  /** The horizon of the next solve reaches beyond the end of the reference. */
  predicate AtEnd(w: Work, e: Env) {
    NearlyOver(w.sh.cache, e.now, e.cfg.horizonSpan + 1_000)
  }

  // ------------------------------------------------------------- what it puts out

  datatype Reply = Nothing | Command | Backup | Hovering

  function Out(r: Reply, now: int): seq<Effect> {
    match r
    case Nothing => []
    case Command => [AttitudeOut(now)]
    case _ => [SetpointOut(now)]
  }

  predicate Shows(sp: Setpoint, sp0: Setpoint, r: Reply, e: Env) {
    match r
    case Nothing => sp == sp0
    case Command => sp == sp0
    case Backup =>
      (match e.o.reference
       case Some(m) => sp == Setpoint(m.pos, m.vel, ZERO3, 0xDC0)
       case None => HoversHere(sp, e))
    case Hovering => HoversHere(sp, e)
  }

  /** To the answer, or to its absence past the deadline. */
  function Reaction(w: Work, e: Env): Reply {
    if Succeeds(w, e) then Command
    else if Unsampled(w, e) then
      if !AtEnd(w, e) then Backup else if !w.c.finished || OutDue(w, e) then Hovering else Nothing
    else if Fails(w, e) then
      if 0 < w.c.lastSuccess && e.now - w.c.lastSuccess <= e.cfg.resultTimeout then Command else Backup
    else if Overdue(w, e) then Backup
    else Nothing
  }

  /** After the reaction: hovering without a reference or at its end, and backing up while commands are stale. */
  function Sequel(w: Work, e: Env): Reply {
    var shown := if Reaction(w, e) == Nothing then w.c.lastPublish else e.now;
    var success := if Succeeds(w, e) then e.now else w.c.lastSuccess;
    var due := e.now - shown >= w.sh.publishPeriod;
    if w.sh.cache == NoCache then if due then Hovering else Nothing
    else if AtEnd(w, e) then if due || !(w.c.finished || Unsampled(w, e)) then Hovering else Nothing
    else if 0 < success && 0 < e.cfg.resultTimeout < e.now - success && due then Backup
    else Nothing
  }

  /** The next request goes out once none is in flight and a period has passed since the base of the last. */
  predicate Sends(w: Work, e: Env) {
    var p := w.c.protocol;
    && w.sh.cache.Cached? && !AtEnd(w, e)
    && (Current(w) ==>
          && (!p.pending || Answer(w).Some? || Overdue(w, e))
          && (p.lastRequest <= 0 || e.now - p.lastRequest >= e.cfg.controlPeriod))
  }

  /** The request in flight stays so, unless its answer or its deadline has come or the end is reported. */
  predicate StillWaits(w: Work, e: Env) {
    && Current(w) && w.c.protocol.pending && Answer(w) == None && !Overdue(w, e)
    && (AtEnd(w, e) ==> w.c.finished)
  }

  function RequestOf(w: Work, e: Env): seq<Effect> {
    if !Sends(w, e) then []
    else [NmpcRequest(e.now, w.sh.results.requests + 1,
                      if Current(w) then w.c.protocol.generation else w.sh.results.generations + 1)]
  }

  // ---------------------------------------------------------------- the three stages

  predicate Stage(w: Work, w': Work, r: Reply, e: Env) {
    && w'.fx == w.fx + Out(r, e.now) && Shows(w'.sp, w.sp, r, e)
    && w'.c.lastPublish == (if r == Nothing then w.c.lastPublish else e.now)
    && w'.sh.cache == w.sh.cache && w'.sh.publishPeriod == w.sh.publishPeriod && w'.sh.results == w.sh.results
  }

  /** A generation that is no longer active is replaced, and nothing of it is waited for. */
  predicate Renewed(w: Work, w1: Work) {
    var g, n := w.sh.results.generations + 1, w.sh.results.requests;
    && w1.sh.results == Results(None, g, g, n)
    && w1.c.protocol == Protocol(g, n, 0, n, false, 0, w.c.protocol.deadline)
  }

  lemma RestartFinds(w: Work)
    ensures var w1 := NmpcRestart(w);
            && Taken(w1) == Answer(w) && w1.c.protocol.pending == (Current(w) && w.c.protocol.pending)
            && w1.c == w.c.(protocol := w1.c.protocol) && w1.sh == w.sh.(results := w1.sh.results)
            && w1.sp == w.sp && w1.fx == w.fx && w1.sg == w.sg
            && w1.sh.results.requests == w.sh.results.requests
            && w1.c.protocol.generation ==
                 (if Current(w) then w.c.protocol.generation else w.sh.results.generations + 1)
            && (if Current(w) then w1 == w else Renewed(w, w1))
  {
  }

  /** A turn that reacts at the end of the reference reports the end, once. */
  predicate EndsIf(ends: bool, w: Work, w': Work) {
    && w'.sg == w.sg + (if ends && !w.c.finished then [ReferenceFinished] else [])
    && w'.c.finished == (w.c.finished || ends)
  }

  lemma FinishHovers(w: Work, e: Env)
    ensures var w', r := Finish(w, e), if !w.c.finished || OutDue(w, e) then Hovering else Nothing;
            && Stage(w, w', r, e) && EndsIf(true, w, w') && w'.sh == w.sh
            && w'.c.failures == w.c.failures && w'.c.lastSuccess == w.c.lastSuccess
            && w'.c.armed == (w.c.finished && w.c.armed)
            && w'.c.protocol == w.c.protocol.(pending := w.c.finished && w.c.protocol.pending)
  {
    HoverAgrees(e);
    hide HoversHere, MeasuredHover;
  }

  lemma BackupStage(w: Work, e: Env)
    ensures var w' := PublishBackup(w, e);
            && Stage(w, w', Backup, e) && w'.c == w.c.(lastPublish := e.now) && w'.sh == w.sh && w'.sg == w.sg
  {
    HoverAgrees(e);
    hide HoversHere, MeasuredHover;
  }

  lemma HoverStage(w: Work, e: Env)
    ensures var w', r := HoverIfDue(w, e), if OutDue(w, e) then Hovering else Nothing;
            && Stage(w, w', r, e) && w'.sh == w.sh && w'.sg == w.sg
            && w'.c == w.c.(lastPublish := w'.c.lastPublish)
  {
    HoverAgrees(e);
    hide HoversHere, MeasuredHover;
  }

  /** How a used answer changes what the leaf keeps. */
  predicate Keeps(w: Work, w': Work, e: Env) {
    && w'.c.lastSuccess == (if Succeeds(w, e) then e.now else w.c.lastSuccess)
    && w'.sh.attitude == (if Succeeds(w, e) then Answer(w).value.target else w.sh.attitude)
    && w'.c.failures == (if Succeeds(w, e) then 0
                         else if (Fails(w, e) && !(Unsampled(w, e) && AtEnd(w, e))) || Overdue(w, e)
                         then w.c.failures + 1 else w.c.failures)
  }

  lemma ConsumeReacts(w: Work, e: Env)
    ensures var w1 := NmpcRestart(w);
            var w2 := NmpcConsume(w1, e);
            && Stage(w1, w2, if Overdue(w, e) then Nothing else Reaction(w, e), e)
            && EndsIf(Unsampled(w, e) && AtEnd(w, e), w, w2)
            && w2.c.lastSuccess == (if Succeeds(w, e) then e.now else w.c.lastSuccess)
            && w2.sh.attitude == (if Succeeds(w, e) then Answer(w).value.target else w.sh.attitude)
            && w2.c.failures == (if Succeeds(w, e) then 0
                                 else if Fails(w, e) && !(Unsampled(w, e) && AtEnd(w, e)) then w.c.failures + 1
                                 else w.c.failures)
            && w2.c.protocol == w1.c.protocol.(pending := w2.c.protocol.pending, consumed := w2.c.protocol.consumed)
            && w2.c.protocol.pending == (Current(w) && w.c.protocol.pending && Answer(w) == None)
            && w2.c.protocol.consumed ==
                 if Answer(w).Some? then Answer(w).value.sequence else w1.c.protocol.consumed
  {
    RestartFinds(w);
    if Answer(w).Some? {
      var w1, x := NmpcRestart(w), Answer(w).value;
      UseReacts(w1.(c := w1.c.(protocol := w1.c.protocol.(consumed := x.sequence, pending := false))), e, x);
    }
    hide NmpcRestart, Taken, Stage, NmpcUse;
  }

  lemma UseReacts(w: Work, e: Env, x: SolveResult)
    requires !w.c.protocol.pending
    ensures var w' := NmpcUse(w, e, x);
            var unsampled := InTime(x, e) && !x.success && x.status == -2;
            && Stage(w, w', if !InTime(x, e) then Nothing
                            else if x.success then Command
                            else if unsampled then
                              if !AtEnd(w, e) then Backup
                              else if !w.c.finished || OutDue(w, e) then Hovering else Nothing
                            else if 0 < w.c.lastSuccess && e.now - w.c.lastSuccess <= e.cfg.resultTimeout then Command
                            else Backup, e)
            && EndsIf(unsampled && AtEnd(w, e), w, w')
            && w'.c.lastSuccess == (if InTime(x, e) && x.success then e.now else w.c.lastSuccess)
            && w'.sh.attitude == (if InTime(x, e) && x.success then x.target else w.sh.attitude)
            && w'.c.failures == (if !InTime(x, e) then w.c.failures else if x.success then 0
                                 else if unsampled && AtEnd(w, e) then w.c.failures else w.c.failures + 1)
            && w'.c.protocol == w.c.protocol
  {
    FinishHovers(w, e);
    BackupStage(Failed(w), e);
    hide Finish, PublishBackup, HoversHere;
  }

  lemma TimeoutReacts(w: Work, e: Env)
    ensures var w', late := NmpcTimeout(w, e), w.c.protocol.pending && w.c.protocol.deadline < e.now;
            && Stage(w, w', if late then Backup else Nothing, e) && w'.sh == w.sh && w'.sg == w.sg
            && w'.c == w.c.(lastPublish := w'.c.lastPublish, failures := w'.c.failures, protocol := w'.c.protocol)
            && w'.c.failures == (if late then w.c.failures + 1 else w.c.failures)
            && w'.c.protocol == w.c.protocol.(pending := w.c.protocol.pending && !late)
  {
    BackupStage(Failed(w.(c := w.c.(protocol := w.c.protocol.(pending := false)))), e);
    hide PublishBackup, HoversHere;
  }

  lemma FallbackFollows(w: Work, e: Env)
    ensures var w' := NmpcFallback(w, e);
            var stale := 0 < w.c.lastSuccess && 0 < e.cfg.resultTimeout < e.now - w.c.lastSuccess;
            && Stage(w, w', if stale && OutDue(w, e) then Backup else Nothing, e)
            && w'.c == w.c.(lastPublish := w'.c.lastPublish) && w'.sg == w.sg && w'.sh.attitude == w.sh.attitude
  {
    BackupStage(w.(sh := w.sh.(staleLog := w.sh.staleLog.Ran(e.now, Custom1.LOG_INTERVAL))), e);
    hide PublishBackup, HoversHere;
  }

  /** A request takes the next number, and its base: one period after the last, or now if that has fallen behind. */
  predicate Plans(w: Work, w': Work, sends: bool, e: Env) {
    var p, p', n := w.c.protocol, w'.c.protocol, w.sh.results.requests;
    && p'.generation == p.generation && p'.consumed == p.consumed
    && p'.request == (if sends then n + 1 else p.request) && p'.inFlight == (if sends then n + 1 else p.inFlight)
    && p'.lastRequest == (if !sends then p.lastRequest
                          else if p.lastRequest <= 0 || e.now - p.lastRequest > 2 * e.cfg.controlPeriod then e.now
                          else p.lastRequest + e.cfg.controlPeriod)
    && w'.sh.results == if sends then w.sh.results.(requests := n + 1) else w.sh.results
  }

  /** Planning hovers, backs up or does nothing, then perhaps sends a request. */
  lemma PlanFollows(w: Work, e: Env)
    ensures var w', p := NmpcPlan(w, e), w.c.protocol;
            var stale := 0 < w.c.lastSuccess && 0 < e.cfg.resultTimeout < e.now - w.c.lastSuccess;
            var r := if w.sh.cache == NoCache then if OutDue(w, e) then Hovering else Nothing
                     else if AtEnd(w, e) then if !w.c.finished || OutDue(w, e) then Hovering else Nothing
                     else if stale && OutDue(w, e) then Backup else Nothing;
            var sends := w.sh.cache.Cached? && !AtEnd(w, e) && !p.pending &&
                         (p.lastRequest <= 0 || e.now - p.lastRequest >= e.cfg.controlPeriod);
            && w'.fx == w.fx + Out(r, e.now) + (if !sends then []
                 else [NmpcRequest(e.now, w.sh.results.requests + 1, p.generation)])
            && Shows(w'.sp, w.sp, r, e)
            && w'.c.lastPublish == (if r == Nothing then w.c.lastPublish else e.now)
            && EndsIf(AtEnd(w, e), w, w')
            && w'.c.armed == (w.sh.cache.Cached? && (AtEnd(w, e) ==> w.c.finished))
            && w'.c.failures == w.c.failures && w'.c.lastSuccess == w.c.lastSuccess
            && w'.sh.attitude == w.sh.attitude
            && Plans(w, w', sends, e)
            && (sends ==> w'.c.protocol.pending && w'.c.protocol.deadline == e.now + e.cfg.solveTimeout)
            && (!sends ==> w'.c.protocol.pending == (p.pending && (AtEnd(w, e) ==> w.c.finished)))
  {
    if w.sh.cache == NoCache {
      HoverStage(LogWait(w.(c := w.c.(armed := false)), e.now), e);
    } else {
      var w1 := w.(c := w.c.(armed := true));
      FinishHovers(w1, e);
      FallbackFollows(w1, e);
    }
    hide HoverIfDue, Finish, NmpcFallback, HoversHere;
  }

  /**
   One turn in all. It puts out the reaction, then the sequel, then perhaps a request; the setpoint is the
   one of the last of the two that is a setpoint.
   */
  lemma TurnAnswers(w: Work, e: Env)
    requires e.cfg.backend == Nmpc
    ensures var w', r, s := Tick(w, e), Reaction(w, e), Sequel(w, e);
            && w'.fx == w.fx + Out(r, e.now) + Out(s, e.now) + RequestOf(w, e)
            && (if s == Nothing then Shows(w'.sp, w.sp, r, e) else Shows(w'.sp, w.sp, s, e))
            && w'.c.lastPublish == (if r == Nothing == s then w.c.lastPublish else e.now)
            && EndsIf(AtEnd(w, e), w, w') && Keeps(w, w', e)
            && w'.c.armed == (w.sh.cache.Cached? && (AtEnd(w, e) ==> w.c.finished || Unsampled(w, e)))
  {
    var w1 := NmpcRestart(w);
    var w2 := NmpcConsume(w1, e);
    var w3 := NmpcTimeout(w2, e);
    RestartFinds(w);
    ConsumeReacts(w, e);
    TimeoutReacts(w2, e);
    PlanFollows(w3, e);
    hide NmpcRestart, NmpcConsume, NmpcTimeout, NmpcPlan, HoversHere, InTime, NearlyOver, Plans;
  }

  /** The numbers a turn works with: its own while its generation is current, fresh ones otherwise. */
  predicate Numbers(w: Work, w': Work, e: Env) {
    var p, p', res := w.c.protocol, w'.c.protocol, w.sh.results;
    var n := if Sends(w, e) then res.requests + 1 else res.requests;
    var base := if Current(w) then p.lastRequest else 0;
    && p'.generation == (if Current(w) then p.generation else res.generations + 1)
    && p'.request == (if Sends(w, e) then n else if Current(w) then p.request else res.requests)
    && p'.inFlight == (if Sends(w, e) then n else if Current(w) then p.inFlight else 0)
    && p'.consumed == (if Answer(w).Some? then Answer(w).value.sequence
                       else if Current(w) then p.consumed else res.requests)
    && p'.lastRequest == (if !Sends(w, e) then base
                          else if base <= 0 || e.now - base > 2 * e.cfg.controlPeriod then e.now
                          else base + e.cfg.controlPeriod)
    && w'.sh.results == if Current(w) then res.(requests := n) else Results(None, p'.generation, p'.generation, n)
  }

  /**
   A turn numbers its request one after the newest there is and gives it a deadline, and takes every answer
   for good; it waits for the request it sends, or for the one before.
   */
  lemma TurnNumbers(w: Work, e: Env)
    requires e.cfg.backend == Nmpc
    ensures var w' := Tick(w, e);
            && Numbers(w, w', e) && (w'.c.protocol.pending <==> Sends(w, e) || StillWaits(w, e))
            && (Sends(w, e) ==> w'.c.protocol.deadline == e.now + e.cfg.solveTimeout)
  {
    var w1 := NmpcRestart(w);
    var w2 := NmpcConsume(w1, e);
    var w3 := NmpcTimeout(w2, e);
    RestartFinds(w);
    ConsumeReacts(w, e);
    TimeoutReacts(w2, e);
    PlanFollows(w3, e);
    hide NmpcRestart, NmpcConsume, NmpcTimeout, NmpcPlan, HoversHere, InTime, NearlyOver, Shows, Keeps;
    hide Reaction, Out;
  }

  // ------------------------------------------------------------------- over traces

  /** The work of the turn at event k; only its fields are looked at. */
  function At(ys: seq<Sys>, k: nat): Work
    requires k < |ys| && ys[k].c.Some?
  {
    Work(ys[k].c.value, ys[k].sh, NO_SETPOINT, [], [])
  }

  predicate TurnAt(ys: seq<Sys>, evs: seq<Event>, k: nat) {
    k < |evs| && k < |ys| && evs[k].Ticks? && ys[k].c.Some?
  }

  /** The turn at event k finds the reference at its end. */
  predicate EndAt(ys: seq<Sys>, evs: seq<Event>, k: nat) {
    TurnAt(ys, evs, k) && AtEnd(At(ys, k), evs[k].e)
  }

  predicate SuccessAt(ys: seq<Sys>, evs: seq<Event>, k: nat) {
    TurnAt(ys, evs, k) && Succeeds(At(ys, k), evs[k].e)
  }

  /** Event j is part of the stay in the leaf that lasts up to event k. */
  predicate SameStay(evs: seq<Event>, j: nat, k: nat) {
    j < k <= |evs| && forall m :: j < m < k ==> !evs[m].Enters? && !evs[m].Exits?
  }

  predicate EndedBefore(ys: seq<Sys>, evs: seq<Event>, k: nat) {
    exists j :: 0 <= j < k && EndAt(ys, evs, j) && SameStay(evs, j, k)
  }

  /** The turn at j made the last success of this stay before k. */
  predicate LastSuccess(ys: seq<Sys>, evs: seq<Event>, j: nat, k: nat) {
    && SuccessAt(ys, evs, j) && SameStay(evs, j, k)
    && (forall m :: j < m < k ==> !SuccessAt(ys, evs, m))
  }

  lemma StepRemembers(y: Sys, ev: Event)
    requires Enabled(y, ev) && Next(y, ev).c.Some?
    ensures ev.Enters? ==> !Next(y, ev).c.value.finished && Next(y, ev).c.value.lastSuccess == 0
    ensures !ev.Enters? ==>
              && !ev.Exits? && y.c.Some?
              && var w, c, c' := Work(y.c.value, y.sh, NO_SETPOINT, [], []), y.c.value, Next(y, ev).c.value;
                 && c'.finished == (c.finished || (ev.Ticks? && AtEnd(w, ev.e)))
                 && c'.lastSuccess == (if ev.Ticks? && Succeeds(w, ev.e) then ev.e.now else c.lastSuccess)
  {
    if ev.Ticks? {
      TurnRemembers(Work(y.c.value, y.sh, NO_SETPOINT, [], []), ev.e);
    }
    hide NmpcTick, Logged, AtEnd, Succeeds, SolvedJob, Submitted;
  }

  lemma TurnRemembers(w: Work, e: Env)
    requires e.cfg.backend == Nmpc
    ensures Tick(w, e).c.finished == (w.c.finished || AtEnd(w, e))
    ensures Tick(w, e).c.lastSuccess == if Succeeds(w, e) then e.now else w.c.lastSuccess
  {
    TurnAnswers(w, e);
    hide Tick, Reaction, Sequel, RequestOf, AtEnd, Succeeds, Shows, Sends, StillWaits;
  }

  /** The end was reported in this stay exactly when a turn has found the reference at its end. */
  lemma {:induction false} FinishedIsHistory(ys: seq<Sys>, evs: seq<Event>, k: nat)
    requires IsTrace(ys, evs) && k < |ys| && ys[k].c.Some?
    ensures ys[k].c.value.finished <==> EndedBefore(ys, evs, k)
  {
    hide Next, Enabled, AtEnd;
    var i := k - 1;
    assert ys[k] == Next(ys[i], evs[i]);
    StepRemembers(ys[i], evs[i]);
    if !evs[i].Enters? {
      FinishedIsHistory(ys, evs, i);
      EndedStep(ys, evs, i);
    }
  }

  lemma EndedStep(ys: seq<Sys>, evs: seq<Event>, i: nat)
    requires i < |evs| && !evs[i].Enters? && !evs[i].Exits?
    ensures EndedBefore(ys, evs, i + 1) <==> EndedBefore(ys, evs, i) || EndAt(ys, evs, i)
  {
    hide EndAt;
    if EndedBefore(ys, evs, i) {
      var j :| 0 <= j < i && EndAt(ys, evs, j) && SameStay(evs, j, i);
      assert SameStay(evs, j, i + 1);
    }
    if EndedBefore(ys, evs, i + 1) {
      var j :| 0 <= j < i + 1 && EndAt(ys, evs, j) && SameStay(evs, j, i + 1);
      assert j < i ==> SameStay(evs, j, i);
    }
    if EndAt(ys, evs, i) {
      assert SameStay(evs, i, i + 1);
    }
  }

  /**
   In every trace: a turn reports the end of the reference if and only if it finds the reference at its end
   and no turn before it in the same stay did, whatever answers come and whatever they say.
   */
  lemma ReferenceEndsOnce(ys: seq<Sys>, evs: seq<Event>, k: nat)
    requires IsTrace(ys, evs) && k < |evs| && evs[k].Ticks?
    ensures ys[k].c.Some?
    ensures ReferenceFinished in Tick(At(ys, k), evs[k].e).sg <==> EndAt(ys, evs, k) && !EndedBefore(ys, evs, k)
  {
    hide Next, AtEnd, EndedBefore, NmpcTick;
    assert Enabled(ys[k], evs[k]);
    FinishedIsHistory(ys, evs, k);
    TurnAnswers(At(ys, k), evs[k].e);
  }

  /** The time of the last success is the turn that made it; there is none before. */
  lemma {:induction false} SuccessIsHistory(ys: seq<Sys>, evs: seq<Event>, k: nat)
    requires IsTrace(ys, evs) && k < |ys| && ys[k].c.Some?
    ensures forall j :: 0 <= j < k && LastSuccess(ys, evs, j, k) ==> ys[k].c.value.lastSuccess == evs[j].e.now
    ensures ys[k].c.value.lastSuccess != 0 ==> exists j :: 0 <= j < k && LastSuccess(ys, evs, j, k)
  {
    hide Next, Enabled, Succeeds;
    var i := k - 1;
    assert ys[k] == Next(ys[i], evs[i]);
    StepRemembers(ys[i], evs[i]);
    if !evs[i].Enters? {
      SuccessIsHistory(ys, evs, i);
      SuccessStep(ys, evs, i, k);
    }
  }

  lemma SuccessStep(ys: seq<Sys>, evs: seq<Event>, i: nat, k: nat)
    requires k == i + 1 && i < |evs| && |ys| == |evs| + 1 && !evs[i].Enters? && !evs[i].Exits?
    ensures SuccessAt(ys, evs, i) ==> LastSuccess(ys, evs, i, k)
    ensures forall j :: 0 <= j < k && LastSuccess(ys, evs, j, k) ==>
              if SuccessAt(ys, evs, i) then j == i else j < i && LastSuccess(ys, evs, j, i)
    ensures forall j :: 0 <= j < i && LastSuccess(ys, evs, j, i) && !SuccessAt(ys, evs, i) ==>
              LastSuccess(ys, evs, j, k)
  {
    hide SuccessAt;
    forall j | 0 <= j < k && LastSuccess(ys, evs, j, k)
      ensures if SuccessAt(ys, evs, i) then j == i else j < i && LastSuccess(ys, evs, j, i)
    {
      assert j < i ==> !SuccessAt(ys, evs, i);
    }
  }

  /** A turn of this stay made the last success not longer ago than the timeout, at a positive time. */
  predicate RecentlySucceeded(ys: seq<Sys>, evs: seq<Event>, k: nat)
    requires TurnAt(ys, evs, k)
  {
    exists j :: 0 <= j < k && LastSuccess(ys, evs, j, k) && 0 < evs[j].e.now &&
                evs[k].e.now - evs[j].e.now <= evs[k].e.cfg.resultTimeout
  }

  /**
   What a failed solve leads to, in every trace. A reference that could not be sampled before its end backs up
   at the point of the reference and goes on; at its end it is the end that is answered, not the failure.
   After any other failure the last target is sent once more if and only if the last success of this stay
   is recent, and the turn backs up otherwise.
   */
  lemma FailuresAreAnswered(ys: seq<Sys>, evs: seq<Event>, k: nat)
    requires IsTrace(ys, evs) && TurnAt(ys, evs, k) && Fails(At(ys, k), evs[k].e)
    ensures var w, e := At(ys, k), evs[k].e;
            var w', recent := Tick(w, e), RecentlySucceeded(ys, evs, k);
            && w'.sh.attitude == w.sh.attitude && w'.c.lastSuccess == w.c.lastSuccess
            && w'.c.failures == w.c.failures + (if Unsampled(w, e) && AtEnd(w, e) then 0 else 1)
            && (!Unsampled(w, e) ==>
                  w'.fx != [] && w'.fx[0] == if recent then AttitudeOut(e.now) else SetpointOut(e.now))
            && (Unsampled(w, e) && !AtEnd(w, e) ==>
                  && w'.sg == [] && w'.fx != [] && w'.fx[0] == SetpointOut(e.now)
                  && (w.sh.cache.Cached? ==> Shows(w'.sp, w.sp, Backup, e)))
  {
    SuccessIsHistory(ys, evs, k);
    hide Next, AtEnd, LastSuccess, NmpcTick, Shows, InTime;
    assert Enabled(ys[k], evs[k]);
    TurnAnswers(At(ys, k), evs[k].e);
    if !RecentlySucceeded(ys, evs, k) && ys[k].c.value.lastSuccess > 0 {
      var j :| 0 <= j < k && LastSuccess(ys, evs, j, k);
    }
  }
}
