/**
 The way of a request through outbox, hand-off and worker: requests are solved in order and once, a stop can
 always be completed, and the buffer keeps the newest result of what it is offered.
 */
module NmpcJobs {
  import opened Options
  import opened Sensors
  import opened ResultBuffer
  import opened Custom1
  import opened NmpcProtocol
  import opened NmpcTurns
  import opened NmpcSafety

  // ------------------------------------------------------------------- in order

  function NumbersOf(rs: seq<Request>): (ns: seq<nat>)
    ensures |ns| == |rs| && forall k :: 0 <= k < |rs| ==> ns[k] == rs[k].sequence
  {
    seq(|rs|, k requires 0 <= k < |rs| => rs[k].sequence)
  }

  /** The numbers of the requests on their way, the one that is solved next first. */
  function OnTheWay(y: Sys): seq<nat> {
    Inside(y.worker) + (if y.handing.Some? then [y.handing.value.sequence] else []) + NumbersOf(y.outbox)
  }

  /** The part of them that the worker has. */
  function Inside(k: Worker): seq<nat> {
    (if k.running.Some? then [k.running.value.job.sequence] else [])
    + (if k.queued.Some? then [k.queued.value.sequence] else [])
  }

  function SolvedNumbers(solved: seq<Solved>): (ns: seq<nat>)
    ensures |ns| == |solved| && forall k :: 0 <= k < |solved| ==> ns[k] == solved[k].result.sequence
  {
    seq(|solved|, k requires 0 <= k < |solved| => solved[k].result.sequence)
  }

  /** Every number is below every number of the other sequence. */
  predicate Below(a: seq<nat>, b: seq<nat>) {
    forall i, j :: 0 <= i < |a| && 0 <= j < |b| ==> a[i] < b[j]
  }

  /**
   The worker holds at most one job that it has taken, and none once it is closed. It knows of every entry of
   the backend.
   */
  predicate WorkerOk(k: Worker) {
    && !(k.running.Some? && k.done.Some?)
    && (k.backend.Some? ==> k.entered && k.backend == Some(k.enteredFor))
    && (k.phase == Closed ==> k.queued == None && k.running == None && k.done == None && k.backend == None)
  }

  predicate FlowInv(y: Sys) {
    && WorkerOk(y.worker) && Increasing(OnTheWay(y)) && Increasing(SolvedNumbers(y.log.solved))
    && Below(SolvedNumbers(y.log.solved), OnTheWay(y))
    && Below(OnTheWay(y), [y.sh.results.requests + 1])
    && Below(SolvedNumbers(y.log.solved), [y.sh.results.requests + 1])
  }

  /** What is on the way after a step: one request fewer, or one more at the end, with the newest number. */
  predicate Moves(a: seq<nat>, b: seq<nat>, requests: nat) {
    || b == a || b == a + [requests + 1]
    || exists i :: 0 <= i < |a| && b == a[..i] + a[i + 1..]
  }

  lemma MovingKeepsOrder(a: seq<nat>, b: seq<nat>, s: seq<nat>, requests: nat, requests': nat)
    requires Increasing(a) && Below(s, a) && Below(a, [requests + 1]) && Below(s, [requests + 1])
    requires Moves(a, b, requests) && requests' == (if b == a + [requests + 1] then requests + 1 else requests)
    ensures Increasing(b) && Below(s, b) && Below(b, [requests' + 1]) && Below(s, [requests' + 1])
  {
    assert forall i :: 0 <= i < |a| ==> a[i] < [requests + 1][0];
    assert forall i :: 0 <= i < |s| ==> s[i] < [requests + 1][0];
  }

  predicate FlowStep(y: Sys, y': Sys) {
    var a, b := OnTheWay(y), OnTheWay(y');
    var n := y.sh.results.requests;
    && Moves(a, b, n) && y'.sh.results.requests == (if b == a + [n + 1] then n + 1 else n)
    && y'.log.solved == y.log.solved && WorkerOk(y'.worker)
  }

  lemma TurnFlows(y: Sys, e: Env)
    requires OwnerInv(y) && WorkerOk(y.worker) && y.c.Some?
    ensures FlowStep(y, OwnerTurn(y, e))
  {
    hide NmpcTick, NmpcRestart, RequestsIn, TimestampFresh, RecentSuccess, NextRequestBase, Copied, Taken, Increasing;
    hide WorkerOk, Moves;
    var w := NmpcProtocol.WorkOf(y.c.value, y.sh);
    RestartKeepsOwner(w);
    TurnFacts(w, e);
    NoRequests();
    var y' := OwnerTurn(y, e);
    var n := y.sh.results.requests;
    if y'.outbox == y.outbox {
      SameMoves(OnTheWay(y), n);
    } else {
      assert y'.outbox == y.outbox + [Request(n + 1, y'.c.value.protocol.generation, e.now)];
      assert OnTheWay(y') == OnTheWay(y) + [n + 1];
      assert Moves(OnTheWay(y), OnTheWay(y'), n) by { MoreMoves(OnTheWay(y), n); }
    }
  }

  lemma SameMoves(a: seq<nat>, n: nat)
    ensures Moves(a, a, n) && a != a + [n + 1]
  {
    assert |a + [n + 1]| == |a| + 1;
  }

  lemma MoreMoves(a: seq<nat>, n: nat)
    ensures Moves(a, a + [n + 1], n)
  {
  }

  lemma DroppedMoves(p: seq<nat>, x: nat, q: seq<nat>, n: nat)
    ensures Moves(p + [x] + q, p + q, n) && p + q != p + [x] + q + [n + 1]
  {
    var a, b := p + [x] + q, p + q;
    assert b == a[..|p|] + a[|p| + 1..];
    assert |a + [n + 1]| == |b| + 2;
  }

  lemma Regroup(p: seq<nat>, x: nat, q: seq<nat>, r: seq<nat>)
    ensures p + [] + ([x] + q) == p + [x] + q && p + [] + q == p + q && (p + [x]) + q + r == p + [x] + (q + r)
    ensures p + q + r == p + (q + r)
  {
  }

  lemma InsideGrows(k: Worker, job: Job)
    requires k.queued == None
    ensures Inside(k.(queued := Some(job))) == Inside(k) + [job.sequence]
  {
  }

  lemma InsideShrinks(k: Worker, q: seq<nat>, r: seq<nat>)
    requires k.running.Some?
    ensures var k', x := k.(running := None), k.running.value.job.sequence;
            Inside(k) + q + r == [x] + (Inside(k') + q + r)
  {
  }

  lemma InsideReads(k: Worker, k': Worker)
    requires k.running == k'.running && k.queued == k'.queued
    ensures Inside(k) == Inside(k')
  {
  }

  lemma CheckFlows(y: Sys)
    requires WorkerOk(y.worker) && Enabled(y, Checks)
    ensures FlowStep(y, Next(y, Checks))
  {
    var y', n := Next(y, Checks), y.sh.results.requests;
    var p, x, q := Inside(y.worker), y.outbox[0].sequence, NumbersOf(y.outbox[1..]);
    assert NumbersOf(y.outbox) == [x] + q;
    Regroup(p, x, q, []);
    hide NumbersOf, Moves, Inside;
    SameMoves(p + [x] + q, n);
    DroppedMoves(p, x, q, n);
  }

  lemma SubmissionFlows(y: Sys, ev: Event)
    requires WorkerOk(y.worker) && ev.Submits? && Enabled(y, ev)
    ensures FlowStep(y, Next(y, ev))
  {
    var n := y.sh.results.requests;
    var p, x, q := Inside(y.worker), y.handing.value.sequence, NumbersOf(y.outbox);
    var y' := Next(y, ev);
    SubmissionMoves(y, ev);
    hide Next, NumbersOf, Moves, Inside, WorkerOk;
    var accepted := ev.sampled && ev.accepted;
    var b := p + (if accepted then [x] else []) + [] + q;
    assert OnTheWay(y) == p + [x] + q && OnTheWay(y') == b;
    assert b == if accepted then p + [x] + q else p + q;
    SameMoves(p + [x] + q, n);
    DroppedMoves(p, x, q, n);
  }

  lemma SubmissionMoves(y: Sys, ev: Event)
    requires WorkerOk(y.worker) && ev.Submits? && Enabled(y, ev)
    ensures var y' := Next(y, ev);
            && WorkerOk(y'.worker) && y'.outbox == y.outbox && y'.handing == None && y'.log == y.log
            && y'.sh.results.requests == y.sh.results.requests
            && Inside(y'.worker) == Inside(y.worker) +
                 if ev.sampled && ev.accepted then [y.handing.value.sequence] else []
  {
    if ev.sampled && ev.accepted {
      InsideGrows(y.worker, JobOf(y.handing.value, ev.clock));
    }
    hide Inside, Storable, Rejected;
  }

  lemma CloseFlows(y: Sys, drops: bool)
    requires WorkerOk(y.worker)
    ensures FlowStep(y, Next(y, Closes(drops)))
  {
    var n, k := y.sh.results.requests, y.worker;
    var p := if k.running.Some? then [k.running.value.job.sequence] else [];
    var q, r := if y.handing.Some? then [y.handing.value.sequence] else [], NumbersOf(y.outbox);
    var k' := Next(y, Closes(drops)).worker;
    hide NumbersOf, Moves;
    SameMoves(OnTheWay(y), n);
    if drops && k.queued.Some? {
      var x := k.queued.value.sequence;
      Regroup(p, x, q, r);
      DroppedMoves(p, x, q + r, n);
      assert Inside(k) == p + [x] && Inside(k') == p;
    } else {
      assert Inside(k') == Inside(k);
    }
    hide Inside;
  }

  lemma OthersFlow(y: Sys, ev: Event)
    requires WorkerOk(y.worker) && Enabled(y, ev)
    requires !ev.Ticks? && !ev.Checks? && !ev.Submits? && !ev.Solves? && !ev.Closes?
    ensures FlowStep(y, Next(y, ev))
  {
    SameMoves(OnTheWay(y), y.sh.results.requests);
    hide OwnerTurn, SolvedJob, Moves;
    assert OnTheWay(Next(y, ev)) == OnTheWay(y);
  }

  /** A job that is solved is the first on the way, and its number is the next to be logged, if at all. */
  lemma SolvingFlows(y: Sys, ev: Event)
    requires FlowInv(y) && BackendInv(y) && ev.Solves? && Enabled(y, ev)
    ensures FlowInv(Next(y, ev))
  {
    var y' := Next(y, ev);
    var a, b, x := OnTheWay(y), OnTheWay(y'), y.worker.running.value.job.sequence;
    SolvedFor(y, ev.canEnter, ev.success, ev.status, ev.target);
    SolvingKeepsWorker(y, ev);
    hide SolvedJob, BackendInv, Increasing, Below, WorkerOk, NumbersOf, Inside;
    InsideShrinks(y.worker, if y.handing.Some? then [y.handing.value.sequence] else [], NumbersOf(y.outbox));
    InsideReads(y.worker.(running := None), y'.worker);
    assert a == [x] + b;
    var s, s' := SolvedNumbers(y.log.solved), SolvedNumbers(y'.log.solved);
    assert s' == s || s' == s + [x];
    SolvingKeepsOrder(x, b, s, y.sh.results.requests);
  }

  lemma SolvingKeepsWorker(y: Sys, ev: Event)
    requires WorkerOk(y.worker) && ev.Solves? && Enabled(y, ev)
    ensures WorkerOk(Next(y, ev).worker)
  {
  }

  lemma SolvingKeepsOrder(x: nat, b: seq<nat>, s: seq<nat>, n: nat)
    requires var a := [x] + b;
             Increasing(a) && Increasing(s) && Below(s, a) && Below(a, [n + 1]) && Below(s, [n + 1])
    ensures var s' := s + [x];
            && Increasing(b) && Increasing(s') && Below(s, b) && Below(s', b) && Below(b, [n + 1]) && Below(s', [n + 1])
  {
    var a := [x] + b;
    assert a[0] == x && forall k :: 0 <= k < |b| ==> a[k + 1] == b[k];
    assert [n + 1][0] == n + 1;
  }

  lemma StepKeepsFlow(y: Sys, ev: Event)
    requires OwnerInv(y) && BackendInv(y) && FlowInv(y) && Enabled(y, ev)
    ensures FlowInv(Next(y, ev))
  {
    hide Next, Enabled, OwnerInv, BackendInv, OnTheWay, Increasing, Below, Moves, WorkerOk;
    if ev.Solves? {
      SolvingFlows(y, ev);
    } else {
      StepFlows(y, ev);
      var y' := Next(y, ev);
      MovingKeepsOrder(OnTheWay(y), OnTheWay(y'), SolvedNumbers(y.log.solved), y.sh.results.requests,
                       y'.sh.results.requests);
    }
  }

  lemma StepFlows(y: Sys, ev: Event)
    requires OwnerInv(y) && WorkerOk(y.worker) && Enabled(y, ev) && !ev.Solves?
    ensures FlowStep(y, Next(y, ev))
  {
    hide Next, Enabled, OwnerInv, FlowStep, WorkerOk;
    match ev
    case Ticks(e) => TurnStepFlows(y, ev);
    case Checks => CheckFlows(y);
    case Submits(_, _, _) => SubmissionFlows(y, ev);
    case Closes(drops) => CloseFlows(y, drops);
    case _ => OthersFlow(y, ev);
  }

  lemma TurnStepFlows(y: Sys, ev: Event)
    requires OwnerInv(y) && WorkerOk(y.worker) && ev.Ticks? && Enabled(y, ev)
    ensures FlowStep(y, Next(y, ev))
  {
    hide OwnerTurn, FlowStep, OwnerInv;
    TurnFlows(y, ev.e);
  }

  lemma {:induction false} TraceKeepsFlow(ys: seq<Sys>, evs: seq<Event>, k: nat)
    requires IsTrace(ys, evs) && k < |ys|
    ensures FlowInv(ys[k])
  {
    hide Next, Enabled;
    if k > 0 {
      TraceKeepsFlow(ys, evs, k - 1);
      TraceKeepsInv(ys, evs, k - 1);
      hide FlowInv, OwnerInv, NumbersInv, AnswersInv, BackendInv;
      assert ys[k] == Next(ys[k - 1], evs[k - 1]);
      StepKeepsFlow(ys[k - 1], evs[k - 1]);
    }
  }

  /**
   In every trace the successful solutions come in the order of their requests, and no request is solved
   twice: not by a worker that was stopped and started again, and not for another generation.
   */
  lemma SolvedInOrder(ys: seq<Sys>, evs: seq<Event>, k: nat)
    requires IsTrace(ys, evs) && k < |ys|
    ensures forall i, j :: 0 <= i < j < |ys[k].log.solved| ==>
              ys[k].log.solved[i].result.sequence < ys[k].log.solved[j].result.sequence
  {
    TraceKeepsFlow(ys, evs, k);
    hide IsTrace, OnTheWay, Below;
    var s := SolvedNumbers(ys[k].log.solved);
    assert forall i, j :: 0 <= i < j < |s| ==> s[i] < s[j];
  }

  /**
   In every trace a backend that is entered was entered for the generation that the worker believes, so it is never
   entered twice without an exit; a closed worker has nothing to do and its backend is exited.
   */
  lemma BackendIsKnown(ys: seq<Sys>, evs: seq<Event>, k: nat)
    requires IsTrace(ys, evs) && k < |ys|
    ensures var w := ys[k].worker;
            && (w.backend.Some? ==> w.entered && w.backend == Some(w.enteredFor))
            && (w.phase == Closed ==> w.queued == None && w.running == None && w.done == None && w.backend == None)
  {
    TraceKeepsFlow(ys, evs, k);
    hide IsTrace, OnTheWay, Below;
  }

  // ------------------------------------------------------------- a stop completes

  predicate Possible(y: Sys, evs: seq<Event>)
    decreases |evs|
  {
    evs == [] || (Enabled(y, evs[0]) && Possible(Next(y, evs[0]), evs[1..]))
  }

  function After(y: Sys, evs: seq<Event>): Sys
    requires Possible(y, evs)
    decreases |evs|
  {
    if evs == [] then y else After(Next(y, evs[0]), evs[1..])
  }

  /** A step that the worker makes by itself. */
  predicate OfWorker(ev: Event) {
    ev.Begins? || ev.Solves? || ev.Stores? || ev.Joins?
  }

  predicate Idle(k: Worker) {
    k.queued == None && k.running == None && k.done == None && k.backend == None
  }

  /** What the worker has left to do: solve and store each job it has. */
  function Left(k: Worker): nat {
    (if k.queued.Some? then 4 else 0) + (if k.running.Some? then 2 else 0) + (if k.done.Some? then 1 else 0)
  }

  lemma {:induction false} Drains(y: Sys) returns (evs: seq<Event>)
    requires y.worker.phase == Closing && WorkerOk(y.worker) && y.sh.results.active == 0
    ensures Possible(y, evs) && |evs| <= Left(y.worker) + 1 && forall ev :: ev in evs ==> OfWorker(ev)
    ensures var y' := After(y, evs); y'.worker.phase == Closed && Idle(y'.worker) && y'.sh.results.active == 0
    decreases Left(y.worker)
  {
    var ev := if y.worker.done.Some? then Stores
              else if y.worker.running.Some? then Solves(false, false, 0, Target(ZERO3, 0.0))
              else if y.worker.queued.Some? then Begins
              else Joins;
    WorksOff(y, ev);
    var rest := [];
    if !ev.Joins? {
      rest := Drains(Next(y, ev));
    }
    evs := [ev] + rest;
    assert evs[1..] == rest;
    hide Next, Enabled;
  }

  lemma WorksOff(y: Sys, ev: Event)
    requires y.worker.phase == Closing && WorkerOk(y.worker) && y.sh.results.active == 0
    requires ev.Stores? <==> y.worker.done.Some?
    requires ev.Solves? <==> y.worker.done == None && y.worker.running.Some?
    requires ev.Begins? <==> y.worker.done == None && y.worker.running == None && y.worker.queued.Some?
    requires OfWorker(ev)
    ensures Enabled(y, ev)
    ensures var y' := Next(y, ev);
            && WorkerOk(y'.worker) && y'.sh.results.active == 0
            && if ev.Joins? then y'.worker.phase == Closed && Idle(y'.worker)
               else y'.worker.phase == Closing && Left(y'.worker) < Left(y.worker)
  {
    hide Solution;
  }

  /**
   In every state of every trace a stop can be completed by the worker's own steps, at most eight of them,
   whether or not the waiting job is dropped; it can then be started again, with nothing to do, no backend
   entered and no generation active.
   */
  lemma StopCompletes(ys: seq<Sys>, evs: seq<Event>, k: nat, drops: bool) returns (own: seq<Event>)
    requires IsTrace(ys, evs) && k < |ys|
    ensures |own| <= 8 && (forall ev :: ev in own ==> OfWorker(ev))
    ensures var closed := Next(ys[k], Closes(drops));
            && Possible(closed, own) && Enabled(After(closed, own), Starts)
            && var y' := Next(After(closed, own), Starts);
               y'.worker.phase == Open && Idle(y'.worker) && y'.sh.results.active == 0
    ensures drops ==> Next(ys[k], Closes(drops)).worker.queued == None
  {
    TraceKeepsFlow(ys, evs, k);
    hide IsTrace, OnTheWay, Increasing, Below;
    var closed := Next(ys[k], Closes(drops));
    if closed.worker.phase == Closed {
      own := [];
    } else {
      own := Drains(closed);
    }
  }

  // ---------------------------------------------------------- what the buffer keeps

  function AllStored(r: Results, xs: seq<SolveResult>): Results {
    if xs == [] then r else Stored(AllStored(r, xs[..|xs| - 1]), xs[|xs| - 1])
  }

  /** A result that the buffer could take: of the active generation, for a request made, with a readable stamp. */
  predicate Fits(r: Results, x: SolveResult) {
    r.active != 0 && x.generation == r.active && x.sequence != 0 && x.sequence <= r.requests && x.stamp.canonical
  }

  /** The i-th offer fits, and no other fitting offer has a greater number, nor the same one before it. */
  predicate IsNewestOffer(r: Results, xs: seq<SolveResult>, i: nat) {
    && i < |xs| && Fits(r, xs[i])
    && (forall j :: 0 <= j < |xs| && Fits(r, xs[j]) ==> xs[j].sequence <= xs[i].sequence)
    && (forall j :: 0 <= j < i && Fits(r, xs[j]) ==> xs[j].sequence < xs[i].sequence)
  }

  /**
   Whatever results a generation is offered, and in whatever order, the buffer ends up with the first one
   offered for the newest request, and with none only if none fits.
   */
  lemma {:induction false} BufferKeepsNewest(r: Results, xs: seq<SolveResult>)
    requires r.latest == None
    ensures var r' := AllStored(r, xs);
            && r' == r.(latest := r'.latest)
            && match r'.latest
               case None => forall j :: 0 <= j < |xs| ==> !Fits(r, xs[j])
               case Some(x) => exists i :: 0 <= i < |xs| && IsNewestOffer(r, xs, i) && xs[i] == x
  {
    if xs != [] {
      var n := |xs| - 1;
      var before := xs[..n];
      BufferKeepsNewest(r, before);
      var was := AllStored(r, before).latest;
      if was.Some? {
        var i :| 0 <= i < n && IsNewestOffer(r, before, i) && before[i] == was.value;
        assert before[i] == xs[i];
        assert IsNewestOffer(r, xs, if Fits(r, xs[n]) && was.value.sequence < xs[n].sequence then n else i);
      } else if AllStored(r, xs).latest.Some? {
        assert IsNewestOffer(r, xs, n);
      }
    }
  }
}
