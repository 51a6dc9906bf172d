/**
 The worker can be stopped while the owner is inside a turn, between two of its visits to the result
 buffer. Such a turn is the same as steps of the protocol one after the other, so what holds of every
 interleaving of those steps covers it.
 */
module NmpcStops {
  import opened Options
  import opened Sensors
  import opened ResultBuffer
  import opened Custom1
  import opened NmpcProtocol

  function Stopped(w: Work): Work {
    w.(sh := w.sh.(results := Invalidated(w.sh.results, 0)))
  }

  function Forgotten(w: Work): Work {
    w.(sh := w.sh.(results := w.sh.results.(latest := None)))
  }

  /** Where the stop falls: after the check of the generation, after the consumption, or before the request. */
  datatype Moment = AfterCheck | AfterConsumption | BeforeRequest

  /** The stages of a turn with a stop between two of them. */
  function StoppedTick(w: Work, e: Env, moment: Moment): Work {
    match moment
    case AfterCheck => NmpcPlan(NmpcTimeout(NmpcConsume(Stopped(NmpcRestart(w)), e), e), e)
    case AfterConsumption => NmpcPlan(NmpcTimeout(Stopped(NmpcConsume(NmpcRestart(w), e)), e), e)
    case BeforeRequest => NmpcPlan(Stopped(NmpcTimeout(NmpcConsume(NmpcRestart(w), e), e)), e)
  }

  lemma TimeoutIgnoresStop(w: Work, e: Env)
    ensures NmpcTimeout(Stopped(w), e) == Stopped(NmpcTimeout(w, e))
  {
    hide MeasuredHover, Invalidated;
  }

  lemma HoldingIgnoresStop(w: Work, e: Env)
    ensures HoverIfDue(Stopped(w), e) == Stopped(HoverIfDue(w, e)) && Finish(Stopped(w), e) == Stopped(Finish(w, e))
  {
    hide MeasuredHover;
  }

  lemma FallbackIgnoresStop(w: Work, e: Env)
    ensures NmpcFallback(Stopped(w), e) == Stopped(NmpcFallback(w, e))
  {
    hide MeasuredHover;
  }

  lemma DispatchIgnoresStop(w: Work, e: Env)
    ensures NmpcDispatch(Stopped(w), e) == Stopped(NmpcDispatch(w, e))
  {
  }

  lemma PlanIgnoresStop(w: Work, e: Env)
    ensures NmpcPlan(Stopped(w), e) == Stopped(NmpcPlan(w, e))
  {
    hide HoverIfDue, Finish, NmpcFallback, NmpcDispatch, EndsWithin, Invalidated;
    HoldingIgnoresStop(LogWait(w.(c := w.c.(armed := false)), e.now), e);
    var w1 := w.(c := w.c.(armed := true));
    HoldingIgnoresStop(w1, e);
    FallbackIgnoresStop(w1, e);
    DispatchIgnoresStop(NmpcFallback(w1, e), e);
  }

  /** A stop before the consumption leaves nothing to consume. */
  lemma NothingLeft(w: Work, e: Env)
    ensures NmpcConsume(Stopped(w), e) == Stopped(w) && NmpcConsume(Forgotten(w), e) == Forgotten(w)
    ensures Stopped(Forgotten(w)) == Stopped(w)
    ensures NmpcRestart(Forgotten(w)) == Forgotten(NmpcRestart(w))
  {
  }

  /** The turn is the one without the stop, followed by it; before the consumption the stored result is lost first. */
  lemma StopComesAfter(w: Work, e: Env, moment: Moment)
    ensures StoppedTick(w, e, moment) == Stopped(NmpcTick(if moment == AfterCheck then Forgotten(w) else w, e))
  {
    hide NmpcRestart, NmpcConsume, NmpcTimeout, NmpcPlan, Stopped, Forgotten;
    var w1 := NmpcRestart(w);
    var w2 := NmpcConsume(w1, e);
    match moment
    case AfterCheck =>
      NothingLeft(w, e);
      NothingLeft(w1, e);
      TimeoutIgnoresStop(w1, e);
      TimeoutIgnoresStop(Forgotten(w1), e);
      PlanIgnoresStop(NmpcTimeout(Forgotten(w1), e), e);
    case AfterConsumption =>
      TimeoutIgnoresStop(w2, e);
      PlanIgnoresStop(NmpcTimeout(w2, e), e);
    case BeforeRequest =>
      PlanIgnoresStop(NmpcTimeout(w2, e), e);
  }

  /** The system after a turn with a stop inside it, but for the log, which is not part of the original. */
  function StoppedTurn(y: Sys, e: Env, moment: Moment, drops: bool): Sys
    requires y.c.Some?
  {
    var w' := StoppedTick(NmpcProtocol.WorkOf(y.c.value, y.sh), e, moment);
    y.(c := Some(w'.c), sh := w'.sh, outbox := y.outbox + RequestsIn(w'.fx), worker := Shut(y.worker, drops))
  }

  /** The same as steps of the protocol: perhaps the loss of the stored result, the turn, and the stop. */
  function TurnThenStop(y: Sys, e: Env, moment: Moment, drops: bool): Sys
    requires y.c.Some? && e.cfg.backend == Nmpc
  {
    hide OwnerTurn;
    var y1 := if moment == AfterCheck then Next(y, Forgets) else y;
    Next(Next(y1, Ticks(e)), Closes(drops))
  }

  /** Every turn with a stop inside it is a sequence of steps of the protocol. */
  lemma StopInsideATurn(y: Sys, e: Env, moment: Moment, drops: bool)
    requires y.c.Some? && e.cfg.backend == Nmpc
    ensures var y' := TurnThenStop(y, e, moment, drops);
            StoppedTurn(y, e, moment, drops).(log := y'.log) == y'
  {
    hide NmpcTick, StoppedTick, RequestsIn, Logged;
    StopComesAfter(NmpcProtocol.WorkOf(y.c.value, y.sh), e, moment);
  }

  /** A hand-off with nothing in between is the check, and the submission if the generation was found active. */
  lemma HandOffInSteps(y: Sys, clock: Stamp, sampled: bool, accepted: bool)
    requires Enabled(y, Checks) && (accepted ==> y.worker.phase == Open && y.worker.queued == None)
    ensures var y1 := Next(y, Checks);
            var y' := if y1.handing.Some? then Next(y1, Submits(clock, sampled, accepted)) else y1;
            && (y'.worker, y'.sh.results) ==
               Handled(y.worker, y.sh.results, y.outbox[0], clock, sampled, accepted)
            && y'.outbox == y.outbox[1..] && y'.handing == None
  {
  }
}
