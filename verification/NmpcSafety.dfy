/** What no interleaving of the NMPC protocol can break. */
module NmpcSafety {
  import opened Options
  import opened ResultBuffer
  import opened Custom1
  import opened NmpcProtocol
  import opened NmpcTurns

  predicate Increasing(s: seq<nat>) {
    forall i, j :: 0 <= i < j < |s| ==> s[i] < s[j]
  }

  // -------------------------------------------------- the owner and the buffer

  predicate BufferOk(r: Results) {
    && r.active <= r.generations
    && (r.latest.Some? ==>
          r.active != 0 && r.latest.value.generation == r.active && 0 < r.latest.value.sequence <= r.requests)
  }

  /** The owner's counters against the buffer's: what is in flight is the newest request there is. */
  predicate OwnerOk(p: Protocol, r: Results) {
    && 0 < p.generation <= r.generations
    && (r.active == 0 || r.active == p.generation)
    && p.request == r.requests && (p.inFlight == 0 || p.inFlight == p.request)
    && p.consumed <= r.requests
  }

  predicate ConsumedOk(consumed: seq<nat>, limit: nat) {
    Increasing(consumed) && forall n :: n in consumed ==> n <= limit
  }

  predicate OwnerInv(y: Sys) {
    && BufferOk(y.sh.results)
    && (y.c == None ==> y.sh.results.active == 0)
    && (y.c.Some? ==> OwnerOk(y.c.value.protocol, y.sh.results))
    && ConsumedOk(y.log.consumed, if y.c.Some? then y.c.value.protocol.consumed else y.sh.results.requests)
  }

  lemma RestartKeepsOwner(w: Work)
    requires BufferOk(w.sh.results) && OwnerOk(w.c.protocol, w.sh.results)
    ensures var w1 := NmpcRestart(w);
            && BufferOk(w1.sh.results) && OwnerOk(w1.c.protocol, w1.sh.results)
            && w1.sh.results.active == w1.c.protocol.generation
            && w1.c.protocol.consumed >= w.c.protocol.consumed && w1.fx == w.fx
            && w1.sh.results.requests == w.sh.results.requests
            && w1.sh.results.generations >= w.sh.results.generations
            && (w1.sh.results.active != w.sh.results.active ==> w1.sh.results.active > w.sh.results.generations)
            && (w1.sh.results == w.sh.results || w1.sh.results.latest == None)
            && (w1.c.protocol.inFlight == w.c.protocol.inFlight || w1.c.protocol.inFlight == 0)
  {
  }

  lemma ConsumedGrows(s: seq<nat>, limit: nat, n: nat)
    requires ConsumedOk(s, limit) && limit < n
    ensures ConsumedOk(s + [n], n)
  {
    assert forall i :: 0 <= i < |s| ==> s[i] in s;
  }

  lemma TurnKeepsOwner(y: Sys, e: Env)
    requires OwnerInv(y) && y.c.Some?
    ensures OwnerInv(OwnerTurn(y, e))
  {
    hide NmpcTick, NmpcRestart, RequestsIn, TimestampFresh, RecentSuccess, NextRequestBase, Copied;
    var w := NmpcProtocol.WorkOf(y.c.value, y.sh);
    RestartKeepsOwner(w);
    TurnFacts(w, e);
    if Taken(NmpcRestart(w)).Some? {
      ConsumedGrows(y.log.consumed, y.c.value.protocol.consumed, Taken(NmpcRestart(w)).value.sequence);
    }
  }

  lemma StepKeepsOwner(y: Sys, ev: Event)
    requires OwnerInv(y) && Enabled(y, ev)
    ensures OwnerInv(Next(y, ev))
  {
    match ev
    case Ticks(e) => hide OwnerTurn, OwnerInv; TurnKeepsOwner(y, e);
    case _ => hide OwnerTurn, Prepared, Solution, Began, WithSolved;
  }

  // ------------------------------------------------------- jobs and their requests

  /** The job answers a request that was sent, and carries its time. */
  predicate Answers(sequence: nat, generation: nat, stamp: Stamp, r: Request) {
    r.sequence == sequence && r.generation == generation && (r.at > 0 ==> stamp == Stamp(r.at, true))
  }

  ghost predicate Sent(sent: seq<Request>, sequence: nat, generation: nat, stamp: Stamp) {
    exists k :: 0 <= k < |sent| && Answers(sequence, generation, stamp, sent[k])
  }

  lemma SentMore(sent: seq<Request>, more: seq<Request>, sequence: nat, generation: nat, stamp: Stamp)
    requires Sent(sent, sequence, generation, stamp)
    ensures Sent(sent + more, sequence, generation, stamp)
  {
    var k :| 0 <= k < |sent| && Answers(sequence, generation, stamp, sent[k]);
    assert (sent + more)[k] == sent[k];
  }

  ghost predicate JobSent(sent: seq<Request>, job: Job) {
    Sent(sent, job.sequence, job.generation, job.stamp)
  }

  /** A successful result was computed, by a backend that had been entered for its generation, for a request sent. */
  ghost predicate Genuine(log: Log, x: SolveResult) {
    x.success ==> Sent(log.dispatched, x.sequence, x.generation, x.stamp) && Solved(x, Some(x.generation)) in log.solved
  }

  /** Requests are numbered upwards, and a generation's requests are numbered below those of later ones. */
  predicate Numbered(sent: seq<Request>, requests: nat) {
    && (forall k :: 0 <= k < |sent| ==> sent[k].sequence <= requests)
    && (forall i, j :: 0 <= i < j < |sent| ==> sent[i].sequence < sent[j].sequence)
  }

  /** The newest request, if it is in flight, is the last one sent. */
  predicate NumbersInv(y: Sys) {
    var sent := y.log.dispatched;
    && Numbered(sent, y.sh.results.requests)
    && (forall r :: r in y.outbox ==> r in sent) && (y.handing.Some? ==> y.handing.value in sent)
    && (y.c.Some? && y.c.value.protocol.inFlight > 0 ==>
          sent != [] && sent[|sent| - 1].sequence == y.c.value.protocol.inFlight)
  }

  ghost predicate AnswersInv(y: Sys) {
    var sent, k := y.log.dispatched, y.worker;
    && (k.queued.Some? ==> JobSent(sent, k.queued.value))
    && (k.running.Some? ==> JobSent(sent, k.running.value.job))
    && (k.done.Some? ==> Genuine(y.log, k.done.value))
    && (y.sh.results.latest.Some? ==> Genuine(y.log, y.sh.results.latest.value))
  }

  lemma NoRequests()
    ensures RequestsIn([]) == []
  {
  }

  lemma GenuineStays(log: Log, log': Log, more: seq<Request>, x: SolveResult)
    requires log'.dispatched == log.dispatched + more && log.solved <= log'.solved && Genuine(log, x)
    ensures Genuine(log', x)
  {
    if x.success {
      SentMore(log.dispatched, more, x.sequence, x.generation, x.stamp);
    }
  }

  lemma TurnKeepsNumbers(y: Sys, e: Env)
    requires OwnerInv(y) && NumbersInv(y) && y.c.Some?
    ensures NumbersInv(OwnerTurn(y, e))
  {
    hide NmpcTick, NmpcRestart, RequestsIn, TimestampFresh, RecentSuccess, NextRequestBase, Copied, Taken, Increasing;
    var w := NmpcProtocol.WorkOf(y.c.value, y.sh);
    RestartKeepsOwner(w);
    TurnFacts(w, e);
    NoRequests();
  }

  lemma TurnKeepsAnswers(y: Sys, e: Env)
    requires OwnerInv(y) && AnswersInv(y) && y.c.Some?
    ensures AnswersInv(OwnerTurn(y, e))
  {
    hide NmpcTick, NmpcRestart, RequestsIn, TimestampFresh, RecentSuccess, NextRequestBase, Copied, Taken, Increasing;
    hide Genuine, JobSent;
    var w := NmpcProtocol.WorkOf(y.c.value, y.sh);
    RestartKeepsOwner(w);
    TurnFacts(w, e);
    AnswersStay(y, OwnerTurn(y, e), RequestsIn(NmpcTick(w, e).fx));
  }

  /** What answered a request sent still does when more are sent and solved. */
  lemma AnswersStay(y: Sys, y': Sys, more: seq<Request>)
    requires AnswersInv(y) && y'.worker == y.worker
    requires y'.sh.results.latest == None || y'.sh.results.latest == y.sh.results.latest
    requires y'.log.dispatched == y.log.dispatched + more && y.log.solved <= y'.log.solved
    ensures AnswersInv(y')
  {
    var sent, k := y.log.dispatched, y.worker;
    if k.queued.Some? {
      SentMore(sent, more, k.queued.value.sequence, k.queued.value.generation, k.queued.value.stamp);
    }
    if k.running.Some? {
      var job := k.running.value.job;
      SentMore(sent, more, job.sequence, job.generation, job.stamp);
    }
    if k.done.Some? {
      GenuineStays(y.log, y'.log, more, k.done.value);
    }
    if y'.sh.results.latest.Some? {
      GenuineStays(y.log, y'.log, more, y.sh.results.latest.value);
    }
  }

  // ------------------------------------------------------------- the backend

  /** Where the active generation cannot be the one that the worker believes its backend was entered for. */
  predicate Retired(k: Worker, active: nat) {
    && (active == 0 || k.enteredFor != active)
    && (k.running.Some? && k.running.value.live ==> k.running.value.job.generation != k.enteredFor)
  }

  /** The worker's belief is right, or it is about a generation that will never be solved for again. */
  predicate BackendOk(k: Worker, r: Results) {
    && k.enteredFor <= r.generations
    && (k.queued.Some? ==> k.queued.value.generation <= r.generations && k.phase != Closed)
    && (k.running.Some? ==> k.running.value.job.generation <= r.generations)
    && (k.entered ==> k.backend == Some(k.enteredFor) || Retired(k, r.active))
    && (k.phase != Open && r.active != 0 ==>
          && k.enteredFor != r.active
          && (k.queued.Some? ==> k.queued.value.generation != r.active)
          && (k.running.Some? ==> k.running.value.job.generation != r.active))
  }

  predicate BackendInv(y: Sys) {
    BackendOk(y.worker, y.sh.results) && (y.handing.Some? ==> y.handing.value.generation <= y.sh.results.generations)
  }

  /** A successful solution comes from a backend that was entered for the generation of its job. */
  lemma SolvedFor(y: Sys, canEnter: bool, success: bool, status: int, target: Target)
    requires BackendInv(y) && y.worker.running.Some?
    ensures var k, job := SolvedJob(y.worker, canEnter, success, status, target), y.worker.running.value.job;
            && k.done.Some? && k.queued == y.worker.queued && k.running == None
            && k.done.value.sequence == job.sequence && k.done.value.generation == job.generation
            && k.done.value.stamp == job.stamp
            && (k.done.value.success ==> k.backend == Some(job.generation))
  {
  }

  lemma TurnKeepsBackend(y: Sys, e: Env)
    requires OwnerInv(y) && BackendInv(y) && y.c.Some?
    ensures BackendInv(OwnerTurn(y, e))
  {
    hide NmpcTick, NmpcRestart, RequestsIn, TimestampFresh, RecentSuccess, NextRequestBase, Copied, Taken, Increasing;
    var w := NmpcProtocol.WorkOf(y.c.value, y.sh);
    RestartKeepsOwner(w);
    TurnFacts(w, e);
  }

  lemma SolveKeepsBackend(y: Sys, ev: Event)
    requires BackendInv(y) && ev.Solves? && Enabled(y, ev)
    ensures BackendInv(Next(y, ev))
  {
    hide OwnerTurn, OwnerEnters;
  }

  lemma StepKeepsBackend(y: Sys, ev: Event)
    requires OwnerInv(y) && BackendInv(y) && Enabled(y, ev)
    ensures BackendInv(Next(y, ev))
  {
    match ev
    case Ticks(e) => hide OwnerTurn; TurnKeepsBackend(y, e);
    case Solves(_, _, _, _) => hide Next, BackendInv; SolveKeepsBackend(y, ev);
    case _ => hide OwnerTurn, SolvedJob, Increasing, ConsumedOk;
  }

  // ---------------------------------------------------------------- every step

  lemma SolveKeepsAnswers(y: Sys, ev: Event)
    requires AnswersInv(y) && BackendInv(y) && ev.Solves? && Enabled(y, ev)
    ensures AnswersInv(Next(y, ev))
  {
    hide Sent;
    var job := y.worker.running.value.job;
    var y' := Next(y, ev);
    SolvedFor(y, ev.canEnter, ev.success, ev.status, ev.target);
    var idle := y.worker.(running := None, done := None);
    AnswersStay(y.(worker := idle), y'.(worker := idle), []);
  }

  lemma SubmissionKeepsAnswers(y: Sys, ev: Event)
    requires AnswersInv(y) && NumbersInv(y) && ev.Submits? && Enabled(y, ev)
    ensures AnswersInv(Next(y, ev))
  {
    var r := y.handing.value;
    var k :| 0 <= k < |y.log.dispatched| && y.log.dispatched[k] == r;
    var job := JobOf(r, ev.clock);
    assert Answers(job.sequence, job.generation, job.stamp, y.log.dispatched[k]);
  }

  lemma StepKeepsAnswers(y: Sys, ev: Event)
    requires OwnerInv(y) && NumbersInv(y) && AnswersInv(y) && BackendInv(y) && Enabled(y, ev)
    ensures AnswersInv(Next(y, ev))
  {
    match ev
    case Ticks(e) => hide OwnerTurn; TurnKeepsAnswers(y, e);
    case Submits(_, _, _) => hide Next; SubmissionKeepsAnswers(y, ev);
    case Solves(_, _, _, _) => hide Next; SolveKeepsAnswers(y, ev);
    case _ => hide OwnerTurn, SolvedJob, Genuine, Sent, BackendInv, OwnerInv, NumbersInv;
  }

  lemma StepKeepsNumbers(y: Sys, ev: Event)
    requires OwnerInv(y) && NumbersInv(y) && Enabled(y, ev)
    ensures NumbersInv(Next(y, ev))
  {
    match ev
    case Ticks(e) => hide OwnerTurn; TurnKeepsNumbers(y, e);
    case _ => hide OwnerTurn, SolvedJob, OwnerInv;
  }

  ghost predicate Inv(y: Sys) {
    OwnerInv(y) && NumbersInv(y) && AnswersInv(y) && BackendInv(y)
  }

  lemma {:induction false} TraceKeepsInv(ys: seq<Sys>, evs: seq<Event>, k: nat)
    requires IsTrace(ys, evs) && k < |ys|
    ensures Inv(ys[k])
  {
    hide Next, Enabled;
    if k > 0 {
      TraceKeepsInv(ys, evs, k - 1);
      hide OwnerInv, NumbersInv, AnswersInv, BackendInv;
      assert ys[k] == Next(ys[k - 1], evs[k - 1]);
      StepKeepsOwner(ys[k - 1], evs[k - 1]);
      StepKeepsNumbers(ys[k - 1], evs[k - 1]);
      StepKeepsAnswers(ys[k - 1], evs[k - 1]);
      StepKeepsBackend(ys[k - 1], evs[k - 1]);
    }
  }

  function Newest(y: Sys): Request
    requires y.log.dispatched != []
  {
    y.log.dispatched[|y.log.dispatched| - 1]
  }

  lemma CopiedIsTaken(w: Work, e: Env)
    requires BufferOk(w.sh.results) && OwnerOk(w.c.protocol, w.sh.results) && Copied(w, e).Some?
    ensures var x := Copied(w, e).value;
            && w.sh.results.latest == Some(x) && x.success && x.generation == w.c.protocol.generation
            && x.sequence == w.c.protocol.inFlight && w.c.protocol.consumed < x.sequence
            && NmpcRestart(w) == w && Taken(w) == Some(x)
            && e.now >= 0 && TimestampFresh(x.stamp, e.now, e.cfg.resultTimeout)
    ensures IsActive(w.sh.results, Copied(w, e).value.generation)
  {
  }

  /** The target a turn copies, against the requests sent and the solutions computed before it. */
  ghost predicate GenuineCopy(y: Sys, y': Sys, x: SolveResult)
  {
    && IsActive(y.sh.results, x.generation)
    && y.log.dispatched != [] && Answers(x.sequence, x.generation, x.stamp, Newest(y))
    && Solved(x, Some(x.generation)) in y.log.solved
    && x.sequence !in y.log.consumed && y'.log.consumed == y.log.consumed + [x.sequence]
    && y'.sh.attitude == x.target
    && y'.c.Some? && y'.c.value.protocol.generation == x.generation
  }

  lemma SentIsNewest(sent: seq<Request>, requests: nat, x: SolveResult)
    requires Numbered(sent, requests) && Sent(sent, x.sequence, x.generation, x.stamp)
    requires sent != [] && sent[|sent| - 1].sequence == x.sequence
    ensures Answers(x.sequence, x.generation, x.stamp, sent[|sent| - 1])
  {
  }

  lemma CopyStep(y: Sys, e: Env)
    requires Inv(y) && y.c.Some?
    ensures var x := Copied(NmpcProtocol.WorkOf(y.c.value, y.sh), e);
            if x.Some? then GenuineCopy(y, OwnerTurn(y, e), x.value)
            else OwnerTurn(y, e).sh.attitude == y.sh.attitude
  {
    hide NmpcTick, RequestsIn, TimestampFresh, RecentSuccess, NextRequestBase, Increasing, BackendOk;
    var w := NmpcProtocol.WorkOf(y.c.value, y.sh);
    TurnFacts(w, e);
    if Copied(w, e).Some? {
      CopiedIsTaken(w, e);
      hide Copied, NmpcRestart, Taken;
      SentIsNewest(y.log.dispatched, y.sh.results.requests, Copied(w, e).value);
    } else {
      hide Numbered, JobSent, Genuine;
    }
  }

  /**
   Under every interleaving: a turn changes the attitude output only by copying the target of a result,
   and that result was computed for the newest request there is, of the generation that is active, by a
   backend that was entered for that generation; its number was never consumed before.
   */
  lemma CopiesAreGenuine(ys: seq<Sys>, evs: seq<Event>, k: nat)
    requires IsTrace(ys, evs) && k < |evs| && evs[k].Ticks?
    ensures var x := Copied(NmpcProtocol.WorkOf(ys[k].c.value, ys[k].sh), evs[k].e);
            if x.Some? then GenuineCopy(ys[k], ys[k + 1], x.value)
            else ys[k + 1].sh.attitude == ys[k].sh.attitude
  {
    hide OwnerTurn, Inv, GenuineCopy, Copied;
    TraceKeepsInv(ys, evs, k);
    assert Enabled(ys[k], evs[k]);
    CopyStep(ys[k], evs[k].e);
  }

  /** Numbers are consumed in increasing order, so none is consumed twice, in one stay in the leaf or across stays. */
  lemma ConsumedAtMostOnce(ys: seq<Sys>, evs: seq<Event>, k: nat)
    requires IsTrace(ys, evs) && k < |ys|
    ensures Increasing(ys[k].log.consumed)
  {
    hide IsTrace;
    TraceKeepsInv(ys, evs, k);
  }
}
