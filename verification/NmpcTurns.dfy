/** What one NMPC turn of the owner does to the protocol, stage by stage and in all. */
module NmpcTurns {
  import opened ResultBuffer
  import opened FlightTypes
  import opened Custom1
  import opened NmpcProtocol

  /** A stage that neither requests, nor consumes, nor emits an attitude command. */
  predicate Aside(w: Work, w': Work) {
    && w'.c.protocol == w.c.protocol.(pending := w'.c.protocol.pending)
    && w'.sh.results == w.sh.results && w'.sh.attitude == w.sh.attitude
    && w'.c.lastSuccess == w.c.lastSuccess
    && RequestsIn(w'.fx) == RequestsIn(w.fx)
    && (forall x :: x in w'.fx && x.AttitudeOut? ==> x in w.fx)
  }

  lemma SetpointAside(fx: seq<Effect>, t: int)
    ensures RequestsIn(fx + [SetpointOut(t)]) == RequestsIn(fx)
    ensures RequestsIn(fx + [AttitudeOut(t)]) == RequestsIn(fx)
  {
  }

  lemma BackupAside(w: Work, e: Env)
    ensures Aside(w, PublishBackup(w, e)) && Aside(w, PublishHover(w, e)) && Aside(w, HoverIfDue(w, e))
    ensures Aside(w, Finish(w, e))
  {
  }

  /** A consumed result: copied to the attitude output, re-emitting the last copy, or set aside. */
  predicate ConsumeStep(w: Work, w': Work, e: Env) {
    var taken := Taken(w);
    var copied := taken.Some? && e.now >= 0 && taken.value.success &&
                  TimestampFresh(taken.value.stamp, e.now, e.cfg.resultTimeout);
    && w'.c.protocol == w.c.protocol.(
         consumed := if taken.Some? then taken.value.sequence else w.c.protocol.consumed,
         pending := w'.c.protocol.pending)
    && w'.sh.results == w.sh.results
    && w'.sh.attitude == (if copied then taken.value.target else w.sh.attitude)
    && w'.c.lastSuccess == (if copied then e.now else w.c.lastSuccess)
    && RequestsIn(w'.fx) == RequestsIn(w.fx)
    && (forall x :: x in w'.fx && x.AttitudeOut? ==> x in w.fx || copied || RecentSuccess(w, e))
  }

  lemma ConsumeFacts(w: Work, e: Env)
    ensures ConsumeStep(w, NmpcConsume(w, e), e)
  {
    hide RequestsIn, TimestampFresh, HorizonEnds, Finish, PublishBackup;
    if Taken(w).Some? {
      var x := Taken(w).value;
      var w1 := w.(c := w.c.(protocol := w.c.protocol.(consumed := x.sequence, pending := false)));
      SetpointAside(w1.fx, e.now);
      BackupAside(w1, e);
      BackupAside(Failed(w1), e);
    }
  }

  lemma TimeoutFacts(w: Work, e: Env)
    ensures Aside(w, NmpcTimeout(w, e))
  {
    hide RequestsIn, PublishBackup;
    BackupAside(Failed(w.(c := w.c.(protocol := w.c.protocol.(pending := false)))), e);
  }

  lemma FallbackAside(w: Work, e: Env)
    ensures Aside(w, NmpcFallback(w, e)) && NmpcFallback(w, e).c.protocol == w.c.protocol
  {
    hide RequestsIn;
    BackupAside(w.(sh := w.sh.(staleLog := w.sh.staleLog.Ran(e.now, Custom1.LOG_INTERVAL))), e);
  }

  /** Planning sends at most one request, the newest, not before it is due. */
  predicate PlanStep(w: Work, w': Work, e: Env) {
    var p, p' := w.c.protocol, w'.c.protocol;
    var sent := w'.sh.results != w.sh.results;
    && w'.sh.attitude == w.sh.attitude && w'.c.lastSuccess == w.c.lastSuccess
    && (forall x :: x in w'.fx && x.AttitudeOut? ==> x in w.fx)
    && (!sent ==> p' == p.(pending := p'.pending) && RequestsIn(w'.fx) == RequestsIn(w.fx))
    && (sent ==>
          var r := Reserved(w.sh.results);
          && ShouldDispatch(p, e.now, e.cfg.controlPeriod)
          && w'.sh.results == r
          && p' == p.(request := r.requests, inFlight := r.requests, pending := true, deadline := p'.deadline,
                      lastRequest := NextRequestBase(p.lastRequest, e.now, e.cfg.controlPeriod))
          && RequestsIn(w'.fx) == RequestsIn(w.fx) + [Request(r.requests, p.generation, e.now)])
  }

  lemma DispatchFacts(w: Work, e: Env)
    ensures PlanStep(w, NmpcDispatch(w, e), e)
  {
  }

  lemma PlanFacts(w: Work, e: Env)
    ensures PlanStep(w, NmpcPlan(w, e), e)
  {
    hide RequestsIn, HorizonEnds, NmpcFallback, NmpcDispatch, HoverIfDue, Finish, ShouldDispatch, NextRequestBase;
    var w1 := w.(c := w.c.(armed := true));
    if w.sh.cache == NoCache {
      BackupAside(LogWait(w.(c := w.c.(armed := false)), e.now), e);
    } else if HorizonEnds(w1, e) {
      BackupAside(w1, e);
    } else {
      FallbackAside(w1, e);
      DispatchFacts(NmpcFallback(w1, e), e);
    }
  }

  /** A whole turn, seen from after the check of its generation. */
  predicate TurnStep(w: Work, w': Work, e: Env) {
    var p, p', taken := w.c.protocol, w'.c.protocol, Taken(w);
    var copied := taken.Some? && e.now >= 0 && taken.value.success &&
                  TimestampFresh(taken.value.stamp, e.now, e.cfg.resultTimeout);
    var sent := w'.sh.results != w.sh.results;
    && p'.generation == p.generation
    && p'.consumed == (if taken.Some? then taken.value.sequence else p.consumed)
    && w'.sh.attitude == (if copied then taken.value.target else w.sh.attitude)
    && w'.c.lastSuccess == (if copied then e.now else w.c.lastSuccess)
    && (forall x :: x in w'.fx && x.AttitudeOut? ==> x in w.fx || copied || RecentSuccess(w, e))
    && (!sent ==>
          p'.request == p.request && p'.inFlight == p.inFlight && p'.lastRequest == p.lastRequest &&
          RequestsIn(w'.fx) == RequestsIn(w.fx))
    && (sent ==>
          var r := Reserved(w.sh.results);
          && (p.lastRequest <= 0 || e.now - p.lastRequest >= e.cfg.controlPeriod)
          && w'.sh.results == r && p'.request == r.requests && p'.inFlight == r.requests
          && p'.lastRequest == NextRequestBase(p.lastRequest, e.now, e.cfg.controlPeriod)
          && RequestsIn(w'.fx) == RequestsIn(w.fx) + [Request(r.requests, p.generation, e.now)])
  }

  lemma TurnFacts(w: Work, e: Env)
    ensures TurnStep(NmpcRestart(w), NmpcTick(w, e), e)
  {
    hide RequestsIn, NmpcConsume, NmpcTimeout, NmpcPlan, NmpcRestart, Taken, TimestampFresh, RecentSuccess;
    hide NextRequestBase;
    var w1 := NmpcRestart(w);
    var w2 := NmpcConsume(w1, e);
    var w3 := NmpcTimeout(w2, e);
    ConsumeFacts(w1, e);
    TimeoutFacts(w2, e);
    PlanFacts(w3, e);
  }
}
