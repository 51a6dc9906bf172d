/** A tracking tick only appends to what the turn has emitted, and never looks at it. */
module Custom1Frame {
  import opened Sensors
  import opened Trajectory
  import opened Lifter
  import opened ResultBuffer
  import opened FlightTypes
  import opened Custom1

  /** The same work after effects and signals that were emitted before. */
  function Behind(w: Work, fx: seq<Effect>, sg: seq<Signal>): Work {
    w.(fx := fx + w.fx, sg := sg + w.sg)
  }

  lemma PublishAppends(w: Work, sp: Setpoint, now: int, fx: seq<Effect>, sg: seq<Signal>)
    ensures Publish(Behind(w, fx, sg), sp, now) == Behind(Publish(w, sp, now), fx, sg)
    ensures PublishAttitude(Behind(w, fx, sg), now) == Behind(PublishAttitude(w, now), fx, sg)
  {
  }

  lemma HoverAppends(w: Work, e: Env, fx: seq<Effect>, sg: seq<Signal>)
    ensures PublishHover(Behind(w, fx, sg), e) == Behind(PublishHover(w, e), fx, sg)
    ensures HoverIfDue(Behind(w, fx, sg), e) == Behind(HoverIfDue(w, e), fx, sg)
  {
  }

  lemma BackupAppends(w: Work, e: Env, fx: seq<Effect>, sg: seq<Signal>)
    ensures PublishBackup(Behind(w, fx, sg), e) == Behind(PublishBackup(w, e), fx, sg)
  {
  }

  lemma HoldAppends(w: Work, e: Env, fx: seq<Effect>, sg: seq<Signal>)
    ensures Hold(Behind(w, fx, sg), e) == Behind(Hold(w, e), fx, sg)
  {
  }

  lemma FinishAppends(w: Work, e: Env, fx: seq<Effect>, sg: seq<Signal>)
    ensures Finish(Behind(w, fx, sg), e) == Behind(Finish(w, e), fx, sg)
  {
  }

  lemma PvaSmcAppends(w: Work, e: Env, fx: seq<Effect>, sg: seq<Signal>)
    ensures PvaSmcTick(Behind(w, fx, sg), e) == Behind(PvaSmcTick(w, e), fx, sg)
  {
  }

  lemma Px4LocalAppends(w: Work, e: Env, fx: seq<Effect>, sg: seq<Signal>)
    ensures Px4LocalTick(Behind(w, fx, sg), e) == Behind(Px4LocalTick(w, e), fx, sg)
  {
  }

  lemma SmcWaitAppends(w: Work, e: Env, fx: seq<Effect>, sg: seq<Signal>)
    ensures SmcWait(Behind(w, fx, sg), e) == Behind(SmcWait(w, e), fx, sg)
  {
  }

  lemma SmcTrackAppends(w: Work, e: Env, fx: seq<Effect>, sg: seq<Signal>)
    ensures SmcTrack(Behind(w, fx, sg), e) == Behind(SmcTrack(w, e), fx, sg)
  {
  }

  lemma SmcAppends(w: Work, e: Env, fx: seq<Effect>, sg: seq<Signal>)
    ensures SmcTick(Behind(w, fx, sg), e) == Behind(SmcTick(w, e), fx, sg)
  {
    var w1 := PromoteDue(SmcEnter(w, e), e);
    SmcWaitAppends(w1, e, fx, sg);
    SmcTrackAppends(w1, e, fx, sg);
    hide SmcWait, SmcTrack, Promoted, LiftForBackend, MayTakeSetpoint, PassThroughActive;
  }

  lemma DfbcUpdateAppends(w: Work, e: Env, streaming: bool, fx: seq<Effect>, sg: seq<Signal>)
    ensures DfbcUpdate(Behind(w, fx, sg), e, streaming) == Behind(DfbcUpdate(w, e, streaming), fx, sg)
  {
    HoverAppends(w, e, fx, sg);
    var w1 := LogTrack(w.(c := w.c.(failures := w.c.failures + 1)), e.now);
    HoldAppends(w1, e, fx, sg);
    BackupAppends(w1, e, fx, sg);
    if e.o.output.Some? {
      var c := w.c.(failures := 0, lastSuccess := e.now, held := if streaming then false else w.c.held);
      PublishAppends(w.(c := c, sh := w.sh.(attitude := e.o.output.value.1)), NO_SETPOINT, e.now, fx, sg);
    }
    hide PublishHover, Hold, PublishBackup, PublishAttitude;
  }

  lemma DfbcAppends(w: Work, e: Env, fx: seq<Effect>, sg: seq<Signal>)
    ensures DfbcStreamTick(Behind(w, fx, sg), e) == Behind(DfbcStreamTick(w, e), fx, sg)
    ensures DfbcCacheTick(Behind(w, fx, sg), e) == Behind(DfbcCacheTick(w, e), fx, sg)
  {
    var w1 := DfbcEnter(w, e);
    var w2 := PromoteDue(w1, e);
    HoldAppends(w2, e, fx, sg);
    HoverAppends(w2, e, fx, sg);
    DfbcUpdateAppends(w2.(c := w2.c.(armed := true)), e, true, fx, sg);
    HoverAppends(LogWait(w1.(c := w1.c.(armed := false)), e.now), e, fx, sg);
    FinishAppends(w1.(c := w1.c.(armed := true)), e, fx, sg);
    DfbcUpdateAppends(w1.(c := w1.c.(armed := true)), e, false, fx, sg);
    hide Hold, PublishHover, HoverIfDue, DfbcUpdate, Finish, Promoted, LiftForBackend, MayTakeSetpoint, EndsWithin;
  }

  lemma ConsumeAppends(w: Work, e: Env, fx: seq<Effect>, sg: seq<Signal>)
    ensures NmpcConsume(Behind(w, fx, sg), e) == Behind(NmpcConsume(w, e), fx, sg)
  {
    if Taken(w).Some? {
      var x := Taken(w).value;
      var w1 := w.(c := w.c.(protocol := w.c.protocol.(consumed := x.sequence, pending := false)));
      PublishAppends(w1.(c := w1.c.(failures := 0, lastSuccess := e.now), sh := w1.sh.(attitude := x.target)),
                     NO_SETPOINT, e.now, fx, sg);
      FinishAppends(w1, e, fx, sg);
      BackupAppends(Failed(w1), e, fx, sg);
      PublishAppends(Failed(w1), NO_SETPOINT, e.now, fx, sg);
    }
    hide PublishAttitude, Finish, PublishBackup, TimestampFresh, EndsWithin;
  }

  lemma PlanAppends(w: Work, e: Env, fx: seq<Effect>, sg: seq<Signal>)
    ensures NmpcPlan(Behind(w, fx, sg), e) == Behind(NmpcPlan(w, e), fx, sg)
  {
    HoverAppends(LogWait(w.(c := w.c.(armed := false)), e.now), e, fx, sg);
    var w1 := w.(c := w.c.(armed := true));
    FinishAppends(w1, e, fx, sg);
    FallbackAppends(w1, e, fx, sg);
    DispatchAppends(NmpcFallback(w1, e), e, fx, sg);
    hide HoverIfDue, Finish, NmpcFallback, NmpcDispatch, EndsWithin;
  }

  lemma FallbackAppends(w: Work, e: Env, fx: seq<Effect>, sg: seq<Signal>)
    ensures NmpcFallback(Behind(w, fx, sg), e) == Behind(NmpcFallback(w, e), fx, sg)
  {
  }

  lemma DispatchAppends(w: Work, e: Env, fx: seq<Effect>, sg: seq<Signal>)
    ensures NmpcDispatch(Behind(w, fx, sg), e) == Behind(NmpcDispatch(w, e), fx, sg)
  {
  }

  lemma RestartAppends(w: Work, fx: seq<Effect>, sg: seq<Signal>)
    ensures NmpcRestart(Behind(w, fx, sg)) == Behind(NmpcRestart(w), fx, sg)
  {
  }

  lemma TimeoutAppends(w: Work, e: Env, fx: seq<Effect>, sg: seq<Signal>)
    ensures NmpcTimeout(Behind(w, fx, sg), e) == Behind(NmpcTimeout(w, e), fx, sg)
  {
    BackupAppends(Failed(w.(c := w.c.(protocol := w.c.protocol.(pending := false)))), e, fx, sg);
    hide PublishBackup;
  }

  lemma NmpcAppends(w: Work, e: Env, fx: seq<Effect>, sg: seq<Signal>)
    ensures NmpcTick(Behind(w, fx, sg), e) == Behind(NmpcTick(w, e), fx, sg)
  {
    hide NmpcRestart, NmpcConsume, NmpcTimeout, NmpcPlan, Behind;
    var w1 := NmpcRestart(w);
    var w2 := NmpcConsume(w1, e);
    RestartAppends(w, fx, sg);
    ConsumeAppends(w1, e, fx, sg);
    TimeoutAppends(w2, e, fx, sg);
    PlanAppends(NmpcTimeout(w2, e), e, fx, sg);
  }

  /** A tick behind earlier effects and signals does what it does on its own, behind them. */
  lemma TickAppends(w: Work, e: Env, fx: seq<Effect>, sg: seq<Signal>)
    ensures Tick(Behind(w, fx, sg), e) == Behind(Tick(w, e), fx, sg)
  {
    hide NmpcTick, DfbcStreamTick, DfbcCacheTick, SmcTick, PvaSmcTick, Px4LocalTick;
    match e.cfg.backend
    case Nmpc => NmpcAppends(w, e, fx, sg);
    case Dfbc => DfbcAppends(w, e, fx, sg);
    case Smc => SmcAppends(w, e, fx, sg);
    case PvaSmc => PvaSmcAppends(w, e, fx, sg);
    case Px4Local => Px4LocalAppends(w, e, fx, sg);
  }
}
