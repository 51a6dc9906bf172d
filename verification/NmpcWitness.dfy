/**
 Traces of the protocol from its initial state: a target is copied, the worker is stopped, and the target
 is emitted again; and a request at time 0 is followed by the next one a tick later.
 */
module NmpcWitness {
  import opened Options
  import opened Sensors
  import opened ResultBuffer
  import opened FlightTypes
  import opened Custom1
  import opened NmpcProtocol
  import opened NmpcSafety
  import opened NmpcTurns
  import opened NmpcTiming

  const MS: int := 1_000_000
  const ENDLESS := Cache.Cached(0, None)

  predicate Suitable(cfg: Config) {
    && cfg.backend == Nmpc && cfg.controlPeriod == 10 * MS && cfg.solveTimeout == 100 * MS
    && cfg.resultTimeout == 50 * MS
  }

  /** One more step of a trace. */
  lemma Step(ys: seq<Sys>, evs: seq<Event>, ev: Event) returns (ys': seq<Sys>, evs': seq<Event>)
    requires IsTrace(ys, evs) && Enabled(ys[|ys| - 1], ev)
    ensures IsTrace(ys', evs') && |evs'| == |evs| + 1 && evs' == evs + [ev]
    ensures ys'[|ys'| - 2] == ys[|ys| - 1] && ys'[|ys'| - 1] == Next(ys[|ys| - 1], ev)
  {
    hide Next, Enabled, NmpcProtocol.Initial;
    ys', evs' := ys + [Next(ys[|ys| - 1], ev)], evs + [ev];
  }

  /** With a reference that goes on, no request in flight and none sent yet, a turn sends the next one. */
  lemma FirstRequest(w: Work, e: Env)
    requires Suitable(e.cfg) && w.sh.cache == ENDLESS && IsActive(w.sh.results, w.c.protocol.generation)
    requires w.sh.results.latest == None && !w.c.protocol.pending && w.c.protocol.lastRequest == 0
    requires w.c.lastSuccess == 0 && w.fx == []
    ensures var n, g := w.sh.results.requests + 1, w.c.protocol.generation;
            var w' := NmpcTick(w, e);
            && w'.fx == [NmpcRequest(e.now, n, g)]
            && w'.sh == w.sh.(results := Reserved(w.sh.results))
            && w'.c.lastSuccess == 0
            && w'.c.protocol == w.c.protocol.(request := n, inFlight := n, pending := true, lastRequest := e.now,
                                              deadline := e.now + 100 * MS)
  {
    assert NmpcTimeout(NmpcConsume(NmpcRestart(w), e), e) == w;
  }

  /** A fresh success for the request in flight is copied; the next request is not due yet. */
  lemma FirstCopy(w: Work, e: Env)
    requires Suitable(e.cfg) && w.sh.cache == ENDLESS && IsActive(w.sh.results, w.c.protocol.generation)
    requires Taken(w).Some? && Taken(w).value.success && w.fx == []
    requires e.now > 0 && TimestampFresh(Taken(w).value.stamp, e.now, e.cfg.resultTimeout)
    requires w.c.protocol.lastRequest > 0 && e.now - w.c.protocol.lastRequest < 10 * MS
    ensures var w' := NmpcTick(w, e);
            && w'.fx == [AttitudeOut(e.now)] && w'.sh == w.sh.(attitude := Taken(w).value.target)
            && w'.c.lastSuccess == e.now && w'.c.protocol.generation == w.c.protocol.generation
  {
    hide TimestampFresh, Taken;
    var x := Taken(w).value;
    var p := w.c.protocol.(consumed := x.sequence, pending := false);
    var w1 := NmpcSuccess(w.(c := w.c.(protocol := p)), e, x.target);
    assert NmpcTimeout(NmpcConsume(NmpcRestart(w), e), e) == w1;
  }

  /** A tracking leaf that has sent its first request. */
  predicate Asked(y: Sys, at: int) {
    && y.c.Some? && y.worker == IDLE.(phase := Open) && y.outbox == [Request(1, 1, at)] && y.handing == None
    && y.sh.results == Results(None, 1, 1, 1) && y.sh.cache == ENDLESS && y.c.value.lastSuccess == 0
    && y.log.dispatched == [Request(1, 1, at)]
    && (var p := y.c.value.protocol;
        p.generation == 1 && p.inFlight == 1 && p.consumed == 0 && p.lastRequest == at && p.request == 1)
  }

  lemma Asking(cfg: Config, s: Sensors, o: Oracle, sh: Shared, at: int) returns (ys: seq<Sys>, evs: seq<Event>)
    requires Suitable(cfg) && sh.results == NO_RESULTS
    ensures IsTrace(ys, evs) && Asked(ys[|ys| - 1], at) && Configured(evs, cfg)
  {
    hide NmpcTick, Copied;
    var e := Env(cfg, s, at, o);
    ys, evs := [Sys(None, sh, [], None, IDLE, EMPTY_LOG)], [];
    ys, evs := Step(ys, evs, Starts);
    ys, evs := Step(ys, evs, Enters(e));
    ys, evs := Step(ys, evs, Refers(ENDLESS));
    var y := ys[|ys| - 1];
    var w := NmpcProtocol.WorkOf(y.c.value, y.sh);
    FirstRequest(w, e);
    OneRequest(at, 1, 1);
    ys, evs := Step(ys, evs, Ticks(e));
  }

  lemma OneRequest(at: int, sequence: nat, generation: nat)
    ensures RequestsIn([NmpcRequest(at, sequence, generation)]) == [Request(sequence, generation, at)]
    ensures RequestsIn([AttitudeOut(at)]) == []
  {
    assert RequestsIn([]) == [];
  }

  /** The answer to the request at `at`; without a positive time of its own it is stamped with the clock's. */
  function AnswerAt(at: nat, target: Target): SolveResult {
    SolveResult(1, 1, true, 0, Stamp(at, true), target)
  }

  function Answer(target: Target): SolveResult {
    AnswerAt(1000 * MS, target)
  }

  lemma Submitting(ys0: seq<Sys>, evs0: seq<Event>, at: nat) returns (ys: seq<Sys>, evs: seq<Event>)
    requires IsTrace(ys0, evs0) && Asked(ys0[|ys0| - 1], at)
    ensures IsTrace(ys, evs) && forall cfg :: Configured(evs0, cfg) ==> Configured(evs, cfg)
    ensures ys[|ys| - 1] == ys0[|ys0| - 1].(
              outbox := [], worker := IDLE.(phase := Open, queued := Some(Job(1, 1, Stamp(at, true)))))
  {
    ys, evs := Step(ys0, evs0, Checks);
    ys, evs := Step(ys, evs, Submits(Stamp(at, true), true, true));
  }

  lemma Answering(ys0: seq<Sys>, evs0: seq<Event>, at: nat, target: Target)
    returns (ys: seq<Sys>, evs: seq<Event>)
    requires IsTrace(ys0, evs0) && Asked(ys0[|ys0| - 1], at)
    ensures IsTrace(ys, evs) && forall cfg :: Configured(evs0, cfg) ==> Configured(evs, cfg)
    ensures var y0, y := ys0[|ys0| - 1], ys[|ys| - 1];
            && y.c == y0.c && y.outbox == [] && y.handing == None && y.worker.phase == Open
            && y.sh == y0.sh.(results := Results(Some(AnswerAt(at, target)), 1, 1, 1))
            && y.log.dispatched == y0.log.dispatched
  {
    hide IsTrace, Configured, OwnerTurn;
    ys, evs := Submitting(ys0, evs0, at);
    ys, evs := Worked(ys, evs, Begins);
    ys, evs := Worked(ys, evs, Solves(true, true, 0, target));
    ys, evs := Worked(ys, evs, Stores);
  }

  /** One more step, of the worker. */
  lemma Worked(ys: seq<Sys>, evs: seq<Event>, ev: Event) returns (ys': seq<Sys>, evs': seq<Event>)
    requires IsTrace(ys, evs) && Enabled(ys[|ys| - 1], ev) && !ev.Ticks? && !ev.Enters?
    ensures IsTrace(ys', evs') && forall cfg :: Configured(evs, cfg) ==> Configured(evs', cfg)
    ensures ys'[|ys'| - 1] == Next(ys[|ys| - 1], ev)
  {
    hide Next, Enabled, IsTrace;
    ys', evs' := Step(ys, evs, ev);
  }

  /** A leaf whose first request has been answered with a target, and copied. */
  predicate CopiedOnce(y: Sys, target: Target) {
    && y.c.Some? && y.c.value.lastSuccess == 1005 * MS && y.c.value.protocol.generation == 1
    && y.sh.results == Results(Some(Answer(target)), 1, 1, 1) && y.sh.cache == ENDLESS
    && y.sh.attitude == target && y.outbox == [] && y.handing == None && y.log.copied == Some(Answer(target))
  }

  lemma CopyOf(y: Sys, e: Env, target: Target)
    requires y.c.Some? && y.outbox == [] && y.handing == None && Suitable(e.cfg) && e.now == 1005 * MS
    requires y.sh.results == Results(Some(Answer(target)), 1, 1, 1) && y.sh.cache == ENDLESS
    requires var p := y.c.value.protocol;
             p.generation == 1 && p.inFlight == 1 && p.consumed == 0 && p.lastRequest == 1000 * MS
    ensures CopiedOnce(OwnerTurn(y, e), target)
    ensures Copied(NmpcProtocol.WorkOf(y.c.value, y.sh), e) == Some(Answer(target))
  {
    var w := NmpcProtocol.WorkOf(y.c.value, y.sh);
    FirstCopy(w, e);
    OneRequest(e.now, 0, 0);
    hide NmpcTick, RequestsIn, Logged;
  }

  /** A trace in which a target is copied, at 1.005 s. */
  lemma Copying(cfg: Config, s: Sensors, o: Oracle, sh: Shared, target: Target)
    returns (ys: seq<Sys>, evs: seq<Event>)
    requires Suitable(cfg) && sh.results == NO_RESULTS
    ensures IsTrace(ys, evs) && evs != [] && CopyAt(ys, evs, |evs| - 1) == Some(Answer(target))
    ensures CopiedOnce(ys[|ys| - 1], target)
  {
    ys, evs := Asking(cfg, s, o, sh, 1000 * MS);
    ys, evs := Answering(ys, evs, 1000 * MS, target);
    var e, y := Env(cfg, s, 1005 * MS, o), ys[|ys| - 1];
    CopyOf(y, e, target);
    hide OwnerTurn, Copied, CopiedOnce, IsTrace;
    ys, evs := Step(ys, evs, Ticks(e));
  }

  /** The turn that finds the worker stopped sends the first request of generation 2. */
  lemma AskAgain(y: Sys, e: Env)
    requires Suitable(e.cfg) && e.now == 1010 * MS && y.c.Some? && y.c.value.lastSuccess == 1005 * MS
    requires y.sh.results == Results(None, 1, 0, 1) && y.sh.cache == ENDLESS && y.outbox == [] && y.handing == None
    ensures var y' := OwnerTurn(y, e);
            && y'.c.Some? && y'.c.value.lastSuccess == 1005 * MS && y'.c.value.protocol.generation == 2
            && y'.c.value.protocol.inFlight == 2 && y'.c.value.protocol.consumed == 1
            && y'.sh == y.sh.(results := Results(None, 2, 2, 2)) && y'.outbox == [Request(2, 2, 1010 * MS)]
            && y'.handing == None && y'.log.copied == y.log.copied && y'.worker == y.worker
  {
    var w := NmpcProtocol.WorkOf(y.c.value, y.sh);
    StoppedTurnDispatches(w, e);
    OneRequest(e.now, 2, 2);
    assert Taken(NmpcRestart(w)) == None;
    hide NmpcTick, RequestsIn, Taken;
  }

  function Busy(): SolveResult {
    Rejected(Request(2, 2, 1010 * MS), DISPATCHER_BUSY, Stamp(1010 * MS, true))
  }

  lemma EmitAgain(y: Sys, e: Env)
    requires Suitable(e.cfg) && e.now == 1015 * MS && y.c.Some? && y.c.value.lastSuccess == 1005 * MS
    requires y.c.value.protocol.generation == 2 && y.c.value.protocol.inFlight == 2 && y.c.value.protocol.consumed == 1
    requires y.sh.results == Results(Some(Busy()), 2, 2, 2)
    ensures var y' := OwnerTurn(y, e);
            && EmitsAttitude(y, e) && y'.sh.attitude == y.sh.attitude && y'.log.copied == y.log.copied
            && y'.c.Some? && y'.c.value.protocol.generation == 2
  {
    var w := NmpcProtocol.WorkOf(y.c.value, y.sh);
    assert NmpcRestart(w) == w && Taken(w) == Some(Busy()) && Copied(w, e) == None;
    BusyTurnReemits(w, e);
    hide NmpcTick, RequestsIn, Taken;
  }

  /** The stop, and the request of the turn after it. */
  lemma Restarting(ys0: seq<Sys>, evs0: seq<Event>, e: Env, target: Target) returns (ys: seq<Sys>, evs: seq<Event>)
    requires IsTrace(ys0, evs0) && CopiedOnce(ys0[|ys0| - 1], target) && Suitable(e.cfg) && e.now == 1010 * MS
    ensures IsTrace(ys, evs)
    ensures var y0, y := ys0[|ys0| - 1], ys[|ys| - 1];
            && y.c.Some? && y.c.value.lastSuccess == 1005 * MS && y.c.value.protocol.generation == 2
            && y.c.value.protocol.inFlight == 2 && y.c.value.protocol.consumed == 1
            && y.sh == y0.sh.(results := Results(None, 2, 2, 2)) && y.outbox == [Request(2, 2, 1010 * MS)]
            && y.handing == None && y.log.copied == y0.log.copied
  {
    ys, evs := Step(ys0, evs0, Closes(true));
    AskAgain(ys[|ys| - 1], e);
    hide OwnerTurn, IsTrace;
    ys, evs := Step(ys, evs, Ticks(e));
  }

  /**
   After a stop the owner emits the old target again: the worker is stopped while the leaf stays active,
   the next turn begins a new generation and sends its first request, that one is rejected as busy, and
   the turn after it emits the target of the generation before.
   */
  lemma StopReemitsInSomeTrace(cfg: Config, s: Sensors, o: Oracle, sh: Shared, target: Target)
    returns (ys: seq<Sys>, evs: seq<Event>)
    requires Suitable(cfg) && sh.results == NO_RESULTS
    ensures IsTrace(ys, evs) && evs != []
    ensures var k := |evs| - 1;
            && evs[k].Ticks? && ys[k].c.Some? && EmitsAttitude(ys[k], evs[k].e) && ys[k + 1].sh.attitude == target
            && ys[k + 1].log.copied == Some(Answer(target))
            && ys[k + 1].c.Some? && ys[k + 1].c.value.protocol.generation == 2
  {
    ys, evs := Copying(cfg, s, o, sh, target);
    var e, e' := Env(cfg, s, 1010 * MS, o), Env(cfg, s, 1015 * MS, o);
    ys, evs := Restarting(ys, evs, e, target);
    hide OwnerTurn, EmitsAttitude, IsTrace;
    ys, evs := Step(ys, evs, Checks);
    ys, evs := Step(ys, evs, Submits(Stamp(1010 * MS, true), true, false));
    EmitAgain(ys[|ys| - 1], e');
    ys, evs := Step(ys, evs, Ticks(e'));
  }

  // -------------------------------------------------------------- a request at time 0

  /** The turn that finds the first request answered sends the second one, whatever the time. */
  lemma AskAtOnce(y: Sys, e: Env, target: Target)
    requires y.c.Some? && Suitable(e.cfg) && e.now == 1 && y.sh.cache == ENDLESS
    requires y.sh.results == Results(Some(AnswerAt(0, target)), 1, 1, 1)
    requires var p := y.c.value.protocol;
             p.generation == 1 && p.inFlight == 1 && p.consumed == 0 && p.lastRequest == 0 && p.request == 1
    ensures OwnerTurn(y, e).log.dispatched == y.log.dispatched + [Request(2, 1, 1)]
  {
    var w := NmpcProtocol.WorkOf(y.c.value, y.sh);
    assert NmpcRestart(w) == w && Taken(w).Some? && !HorizonEnds(w, e);
    SendsExactlyWhenDue(w, e);
    hide NmpcTick, RequestsIn, Taken, Copied;
    TurnFacts(w, e);
    NoRequests();
  }

  /** A request at time 0 delays nothing: in this trace the second one follows a nanosecond after it. */
  lemma UnpacedFromZero(cfg: Config, s: Sensors, o: Oracle, sh: Shared, target: Target)
    returns (ys: seq<Sys>, evs: seq<Event>)
    requires Suitable(cfg) && sh.results == NO_RESULTS
    ensures IsTrace(ys, evs) && Configured(evs, cfg)
    ensures ys[|ys| - 1].log.dispatched == [Request(1, 1, 0), Request(2, 1, 1)]
  {
    ys, evs := Asking(cfg, s, o, sh, 0);
    ys, evs := Answering(ys, evs, 0, target);
    var e := Env(cfg, s, 1, o);
    AskAtOnce(ys[|ys| - 1], e, target);
    hide OwnerTurn, IsTrace;
    ys, evs := Step(ys, evs, Ticks(e));
  }
}
