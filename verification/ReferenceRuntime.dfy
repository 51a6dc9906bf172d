/**
 The reference trajectory runtime: a machine with the states SelfCheck, Ready and Active, a pending
 and an active reference, and the gates that space its publications. Times are integer ticks.
 */
module ReferenceRuntime {
  import opened Options
  import opened Ticks

  const DEFAULT_PERIOD: int := 100_000_000
  const DEFAULT_TIMEOUT: int := 500_000_000
  const DEFAULT_LEAD: int := 200_000_000

  /** Periods are the inverses of the configured rates; what is not usable is replaced by a default. */
  datatype Config = Config(statusPeriod: int, activePeriod: int, timeout: int, lead: int) {
    predicate Usable() {
      statusPeriod > 0 && activePeriod > 0 && timeout >= 0 && lead >= 0
    }

    function Sanitized(): (c: Config)
      ensures c.Usable() && (Usable() ==> c == this)
    {
      Config(if statusPeriod > 0 then statusPeriod else DEFAULT_PERIOD,
             if activePeriod > 0 then activePeriod else DEFAULT_PERIOD,
             if timeout >= 0 then timeout else DEFAULT_TIMEOUT,
             if lead >= 0 then lead else DEFAULT_LEAD)
    }
  }

  datatype Kind = Analytic | Sampled

  datatype Message = Message(id: nat, revision: nat, start: int)

  /** An evaluator is known here by the duration of its trajectory; not positive means endless. */
  datatype Evaluator = Evaluator(duration: int)

  datatype Reference =
    | NoReference
    | Held(kind: Kind, message: Message, evaluator: Option<Evaluator>, flags: set<nat>)

  /** What building and validating an evaluator gives: flags, as bit numbers, and the evaluator unless refused. */
  datatype Build = Build(evaluator: Option<Evaluator>, flags: set<nat>)

  datatype Effect = Status(at: int) | ActiveAnalytic(at: int) | ActiveSampled(at: int)

  datatype Gate = Gate(last: int, initialized: bool) {
    predicate Due(now: int, period: int) {
      !initialized || now - last >= period
    }

    function Passed(now: int, period: int): Gate {
      if Due(now, period) then Gate(now, true) else this
    }

    /** One tick past the period, so that rounding cannot make the wake-up come too early. */
    function Next(now: int, period: int): int {
      if !initialized then now else last + period + 1
    }
  }

  const FRESH := Gate(0, false)

  datatype State = SelfCheck | Ready(status: Gate) | Active(status: Gate, active: Gate)

  datatype Runtime = Runtime(
    config: Config, now: int, flags: set<nat>, pending: Reference, active: Reference, state: State,
    effects: seq<Effect>)

  function ResetWith(config: Config): Runtime {
    Runtime(config, 0, {}, NoReference, NoReference, SelfCheck, [])
  }

  // ------------------------------------------------------------------- requests

  /** A start in the past, or none, is moved to the earliest one allowed. */
  function AdjustedStart(requested: int, now: int, lead: int): int {
    var minimum := now + Max(0, lead);
    if requested <= 0 then minimum else Max(requested, minimum)
  }

  function Accepted(r: Runtime, kind: Kind, m: Message, receipt: int, build: Build): Runtime {
    if build.evaluator == None then r.(flags := r.flags + build.flags)
    else
      var adjusted := m.(start := AdjustedStart(m.start, receipt, r.config.lead));
      r.(pending := Held(kind, adjusted, build.evaluator, build.flags))
  }

  // ----------------------------------------------------------------------- turns

  function ActiveEffects(active: Reference, now: int): seq<Effect> {
    match active
    case NoReference => []
    case Held(Analytic, _, _, _) => [ActiveAnalytic(now)]
    case Held(Sampled, _, _, _) => [ActiveSampled(now)]
  }

  function ActivatePending(r: Runtime): Runtime {
    if r.pending == NoReference then r
    else r.(flags := r.pending.flags, active := r.pending, pending := NoReference)
  }

  function EndOf(active: Reference): Option<int> {
    match active
    case Held(_, m, Some(e), _) => if e.duration <= 0 then None else Some(m.start + e.duration)
    case _ => None
  }

  predicate HasEvaluator(active: Reference) {
    active.Held? && active.evaluator.Some?
  }

  predicate ActiveExpired(r: Runtime, now: int) {
    !HasEvaluator(r.active) || (EndOf(r.active).Some? && now > EndOf(r.active).value + r.config.timeout)
  }

  function ActiveExpiry(r: Runtime): Option<int> {
    if !HasEvaluator(r.active) then Some(r.now)
    else if EndOf(r.active) == None then None
    else Some(EndOf(r.active).value + r.config.timeout + 1)
  }

  function EnterReady(r: Runtime): Runtime {
    r.(state := Ready(FRESH.Passed(r.now, r.config.statusPeriod)), effects := r.effects + [Status(r.now)])
  }

  function EnterActive(r: Runtime): Runtime {
    var r' := ActivatePending(r);
    r'.(state := Active(FRESH.Passed(r.now, r.config.statusPeriod), FRESH.Passed(r.now, r.config.activePeriod)),
        effects := r.effects + [Status(r.now)] + ActiveEffects(r'.active, r.now))
  }

  function StatusIfDue(r: Runtime, gate: Gate): seq<Effect> {
    if gate.Due(r.now, r.config.statusPeriod) then [Status(r.now)] else []
  }

  /** A new reference while Active starts a new publication phase; the status keeps its own. */
  function Replaced(r: Runtime, status: Gate): Runtime {
    var r' := ActivatePending(r);
    r'.(state := Active(status.Passed(r.now, r.config.statusPeriod), FRESH.Passed(r.now, r.config.activePeriod)),
        effects := r.effects + StatusIfDue(r, status) + ActiveEffects(r'.active, r.now))
  }

  function Continued(r: Runtime, status: Gate, active: Gate): Runtime {
    var fx := if active.Due(r.now, r.config.activePeriod) then ActiveEffects(r.active, r.now) else [];
    r.(state := Active(status.Passed(r.now, r.config.statusPeriod), active.Passed(r.now, r.config.activePeriod)),
       effects := r.effects + StatusIfDue(r, status) + fx)
  }

  function Dispatched(r: Runtime): Runtime {
    match r.state
    case SelfCheck => if r.pending != NoReference then EnterActive(r) else EnterReady(r)
    case Ready(status) =>
      if r.pending != NoReference then EnterActive(r)
      else
        r.(state := Ready(status.Passed(r.now, r.config.statusPeriod)), effects := r.effects + StatusIfDue(r, status))
    case Active(status, active) =>
      if r.pending != NoReference then Replaced(r, status)
      else if ActiveExpired(r, r.now) then EnterReady(r)
      else Continued(r, status, active)
  }

  function Updated(r: Runtime, now: int): Runtime {
    Dispatched(r.(now := now, effects := []))
  }

  function NextWake(r: Runtime): int {
    if r.state == SelfCheck || r.pending != NoReference then r.now
    else match r.state
      case Ready(status) => status.Next(r.now, r.config.statusPeriod)
      case Active(status, active) =>
        var a, b := status.Next(r.now, r.config.statusPeriod), active.Next(r.now, r.config.activePeriod);
        var next := if b < a then b else a;
        if ActiveExpiry(r).Some? && ActiveExpiry(r).value < next then ActiveExpiry(r).value else next
      case _ => r.now
  }

  // ------------------------------------------------------------------ properties

  /** Every held reference has an evaluator, and being Active means holding one. */
  predicate Sound(r: Runtime) {
    && r.config.Usable()
    && (r.pending.Held? ==> HasEvaluator(r.pending))
    && (r.active.Held? ==> HasEvaluator(r.active))
    && (r.state.Active? ==> r.active.Held?)
    && (r.state.Ready? ==> r.state.status.initialized && r.state.status.last <= r.now)
    && (r.state.Active? ==>
          && r.state.status.initialized && r.state.status.last <= r.now
          && r.state.active.initialized && r.state.active.last <= r.now)
  }

  /** What can happen to the runtime. Time may be anything but does not run backwards. */
  datatype Event =
    | Configures(config: Config)
    | Requests(kind: Kind, m: Message, receipt: int, build: Build)
    | Turns(now: int)

  function Step(r: Runtime, e: Event): Runtime {
    match e
    case Configures(config) => ResetWith(config.Sanitized())
    case Requests(kind, m, receipt, build) => Accepted(r, kind, m, receipt, build)
    case Turns(now) => Updated(r, now)
  }

  function Run(config: Config, es: seq<Event>): Runtime {
    if es == [] then ResetWith(config.Sanitized()) else Step(Run(config, es[..|es| - 1]), es[|es| - 1])
  }

  predicate Forwards(config: Config, es: seq<Event>) {
    forall k :: 0 <= k < |es| && es[k].Turns? ==> Run(config, es[..k]).now <= es[k].now
  }

  /** In every run, Active means that a reference with an evaluator is held. */
  lemma {:induction false} RunIsSound(config: Config, es: seq<Event>)
    requires Forwards(config, es)
    ensures Sound(Run(config, es))
  {
    if es != [] {
      var before := es[..|es| - 1];
      assert forall k :: 0 <= k < |before| ==> before[..k] == es[..k];
      RunIsSound(config, before);
      StepKeepsSound(Run(config, before), es[|es| - 1]);
    }
  }

  lemma StepKeepsSound(r: Runtime, e: Event)
    requires Sound(r) && (e.Turns? ==> r.now <= e.now)
    ensures Sound(Step(r, e))
  {
  }

  /** Each active effect carries the kind of the reference that is held after the turn, in state Active. */
  lemma ActiveEffectsMatch(r: Runtime, now: int, e: Effect)
    requires Sound(r) && e in Updated(r, now).effects && !e.Status?
    ensures var r' := Updated(r, now);
            && r'.state.Active? && r'.active.Held? && e.at == now
            && (e.ActiveAnalytic? <==> r'.active.kind == Analytic)
            && (e.ActiveSampled? <==> r'.active.kind == Sampled)
  {
  }

  /** The start of a reference received at `receipt`: the one requested, unless that is not a lead time ahead. */
  predicate StartsAt(start: int, requested: int, receipt: int, lead: int) {
    if requested > 0 && requested > receipt + lead then start == requested else start == receipt + lead
  }

  /** A refused request adds flags and changes nothing else; an accepted one waits, and leaves its lead time. */
  lemma RequestsAreContained(r: Runtime, kind: Kind, m: Message, receipt: int, build: Build)
    requires Sound(r)
    ensures var r' := Accepted(r, kind, m, receipt, build);
            if build.evaluator == None then
              r' == r.(flags := r'.flags) && r'.flags == r.flags + build.flags
            else
              && r' == r.(pending := r'.pending) && r'.pending.Held?
              && r'.pending == Held(kind, m.(start := r'.pending.message.start), build.evaluator, build.flags)
              && StartsAt(r'.pending.message.start, m.start, receipt, r.config.lead)
  {
  }

  /** The reference in use has ended, and the timeout has passed since; one without a positive duration never ends. */
  predicate Over(r: Runtime, now: int)
    requires HasEvaluator(r.active)
  {
    var duration := r.active.evaluator.value.duration;
    duration > 0 && now > r.active.message.start + duration + r.config.timeout
  }

  /**
   Active is left for Ready exactly in a turn without a new reference that comes strictly after the end
   of the reference plus the timeout, and the reference stays there for the status to report.
   */
  lemma ExpiresExactlyAfterTimeout(r: Runtime, now: int)
    requires Sound(r) && r.state.Active?
    ensures var r' := Updated(r, now);
            && (r'.state.Ready? <==> r.pending == NoReference && Over(r, now))
            && (r'.state.Ready? ==> r'.active == r.active && r'.flags == r.flags)
            && !r'.state.SelfCheck?
  {
  }

  // ------------------------------------------------- which reference is held

  predicate AcceptedAt(es: seq<Event>, j: nat) {
    j < |es| && es[j].Requests? && es[j].build.evaluator.Some?
  }

  /** The reference that the request at event j asked for. */
  predicate IsRequested(ref: Reference, es: seq<Event>, j: nat, lead: int)
    requires AcceptedAt(es, j)
  {
    && ref.Held? && StartsAt(ref.message.start, es[j].m.start, es[j].receipt, lead)
    && ref == Held(es[j].kind, es[j].m.(start := ref.message.start), es[j].build.evaluator, es[j].build.flags)
  }

  predicate TurnAfter(es: seq<Event>, j: nat) {
    exists t :: j < t < |es| && es[t].Turns?
  }

  /** No configuration has come since event j. */
  predicate Kept(es: seq<Event>, j: nat) {
    forall t :: j < t < |es| ==> !es[t].Configures?
  }

  /** The newest accepted request since the configuration. */
  predicate Newest(es: seq<Event>, j: nat) {
    AcceptedAt(es, j) && Kept(es, j) && forall i :: j < i < |es| ==> !AcceptedAt(es, i)
  }

  /** The newest accepted request, when no turn has seen it yet. */
  predicate Waits(es: seq<Event>, j: nat) {
    Newest(es, j) && !TurnAfter(es, j)
  }

  /** The newest accepted request that a turn has seen. */
  predicate InUse(es: seq<Event>, j: nat) {
    AcceptedAt(es, j) && Kept(es, j) && TurnAfter(es, j) &&
    forall i :: j < i < |es| && AcceptedAt(es, i) ==> !TurnAfter(es, i)
  }

  /** How the newest requests move on with one more event. */
  lemma RequestsMove(es: seq<Event>, j: nat)
    requires es != [] && j < |es| - 1
    ensures var before, e := es[..|es| - 1], es[|es| - 1];
            && (Newest(es, j) <==> Newest(before, j) && !e.Configures? && !AcceptedAt(es, |es| - 1))
            && (Waits(es, j) <==> Newest(es, j) && Waits(before, j) && !e.Turns?)
            && (InUse(es, j) <==> !e.Configures? && if e.Turns? then Newest(before, j) else InUse(before, j))
  {
    var before, n := es[..|es| - 1], |es| - 1;
    forall i | 0 <= i < n ensures AcceptedAt(es, i) == AcceptedAt(before, i) {
    }
    forall i | 0 <= i < n ensures TurnAfter(es, i) <==> TurnAfter(before, i) || es[n].Turns? {
      if TurnAfter(before, i) {
        var t :| i < t < n && before[t].Turns?;
        assert es[t].Turns?;
      }
    }
    assert Kept(es, j) <==> Kept(before, j) && !es[n].Configures?;
  }

  /** Among accepted requests since the configuration there is a newest one. */
  lemma {:induction false} SomeNewest(es: seq<Event>, i: nat) returns (j: nat)
    requires AcceptedAt(es, i) && Kept(es, i)
    ensures i <= j && Newest(es, j)
    decreases |es| - i
  {
    if k :| i < k < |es| && AcceptedAt(es, k) {
      j := SomeNewest(es, k);
    } else {
      j := i;
    }
  }

  /** The two slots hold what the two requests asked for, and nothing when there is none. */
  ghost predicate HoldsRequests(r: Runtime, es: seq<Event>) {
    && (forall j :: 0 <= j < |es| && Waits(es, j) ==> IsRequested(r.pending, es, j, r.config.lead))
    && (r.pending.Held? ==> exists j :: 0 <= j < |es| && Waits(es, j))
    && (forall j :: 0 <= j < |es| && InUse(es, j) ==> IsRequested(r.active, es, j, r.config.lead))
    && (r.active.Held? ==> exists j :: 0 <= j < |es| && InUse(es, j))
  }

  /**
   In every run the reference that waits is the newest accepted request that no turn has seen, the one in
   use is the newest that a turn has seen, and both have the start that the rule about lead times gives.
   */
  lemma {:induction false} ReferencesAreRequested(config: Config, es: seq<Event>)
    ensures HoldsRequests(Run(config, es), es) && Run(config, es).config.Usable()
  {
    if es != [] {
      var n := |es| - 1;
      var before := es[..n];
      ReferencesAreRequested(config, before);
      RequestsStep(Run(config, before), es);
    }
  }

  /** What an event does to the slots. */
  lemma SlotsStep(r: Runtime, e: Event)
    ensures var r' := Step(r, e);
            match e
            case Configures(_) => r'.pending == NoReference && r'.active == NoReference
            case Turns(_) =>
              && r'.pending == NoReference && r'.active == (if r.pending.Held? then r.pending else r.active)
              && r'.config == r.config
            case Requests(kind, m, receipt, build) =>
              && r'.active == r.active && r'.config == r.config
              && (if build.evaluator == None then r'.pending == r.pending else
                    r'.pending.Held? && r'.pending == Held(kind, m.(start := r'.pending.message.start), build.evaluator,
                                                           build.flags))
  {
  }

  lemma RequestsStep(r: Runtime, es: seq<Event>)
    requires es != [] && HoldsRequests(r, es[..|es| - 1]) && r.config.Usable()
    ensures HoldsRequests(Step(r, es[|es| - 1]), es)
  {
    var n := |es| - 1;
    var before, e := es[..n], es[n];
    forall j | 0 <= j < n
      ensures var c := !e.Configures?;
              && (Waits(es, j) <==> c && Waits(before, j) && !e.Turns? && !AcceptedAt(es, n))
              && (InUse(es, j) <==> c && if e.Turns? then Newest(before, j) else InUse(before, j))
    {
      RequestsMove(es, j);
    }
    assert AcceptedAt(es, n) ==> Waits(es, n);
    assert !InUse(es, n);
    hide Newest, InUse, Waits;
    match e
    case Configures(_) => hide IsRequested;
    case Requests(_, _, _, _) => RequestStep(r, es);
    case Turns(_) => TurnStep(r, es);
  }

  lemma SameRequest(ref: Reference, es: seq<Event>, j: nat, lead: int)
    requires j < |es| - 1 && AcceptedAt(es, j)
    ensures AcceptedAt(es[..|es| - 1], j)
    ensures IsRequested(ref, es[..|es| - 1], j, lead) <==> IsRequested(ref, es, j, lead)
  {
  }

  lemma RequestStep(r: Runtime, es: seq<Event>)
    requires es != [] && HoldsRequests(r, es[..|es| - 1]) && r.config.Usable() && es[|es| - 1].Requests?
    requires var before, n := es[..|es| - 1], |es| - 1;
             && (forall j :: 0 <= j < n ==> (Waits(es, j) <==> Waits(before, j) && !AcceptedAt(es, n)))
             && (forall j :: 0 <= j < n ==> (InUse(es, j) <==> InUse(before, j)))
             && (AcceptedAt(es, n) ==> Waits(es, n)) && !InUse(es, n)
    ensures HoldsRequests(Step(r, es[|es| - 1]), es)
  {
    var before, n, e := es[..|es| - 1], |es| - 1, es[|es| - 1];
    var r' := Step(r, e);
    forall j | 0 <= j < |es| && Waits(es, j) ensures IsRequested(r'.pending, es, j, r'.config.lead) {
      if j < n {
        SameRequest(r.pending, es, j, r.config.lead);
      }
    }
    forall j | 0 <= j < |es| && InUse(es, j) ensures IsRequested(r'.active, es, j, r'.config.lead) {
      SameRequest(r.active, es, j, r.config.lead);
    }
  }

  lemma TurnStep(r: Runtime, es: seq<Event>)
    requires es != [] && HoldsRequests(r, es[..|es| - 1]) && r.config.Usable() && es[|es| - 1].Turns?
    requires var before, n := es[..|es| - 1], |es| - 1;
             && (forall j :: 0 <= j < n ==> !Waits(es, j))
             && (forall j :: 0 <= j < n ==> (InUse(es, j) <==> Newest(before, j))) && !InUse(es, n)
    ensures HoldsRequests(Step(r, es[|es| - 1]), es)
  {
    var before, n, e := es[..|es| - 1], |es| - 1, es[|es| - 1];
    SlotsStep(r, e);
    var r' := Step(r, e);
    hide Step;
    forall j | 0 <= j < n && Newest(before, j) ensures IsRequested(r'.active, es, j, r'.config.lead) {
      SameRequest(r'.active, es, j, r.config.lead);
      if r.pending.Held? {
        var i :| 0 <= i < n && Waits(before, i);
        assert i == j;
      } else {
        assert r.pending == NoReference && !Waits(before, j);
        assert InUse(before, j);
      }
    }
    if r.pending.Held? {
      var i :| 0 <= i < n && Waits(before, i);
      assert InUse(es, i);
    } else if r.active.Held? {
      var i :| 0 <= i < n && InUse(before, i);
      var j := SomeNewest(before, i);
      assert InUse(es, j);
    }
  }

  // ------------------------------------------------- flags and configuration

  /** The last configuration of a run, before that the first one. */
  function Configured(config: Config, es: seq<Event>): Config {
    if es == [] then config
    else match es[|es| - 1] case Configures(c) => c case _ => Configured(config, es[..|es| - 1])
  }

  /** In every run the configuration in force is the last one, with 10 Hz, 0.5 s and 0.2 s for what is not usable. */
  lemma {:induction false} ConfigurationIsTheLast(config: Config, es: seq<Event>)
    ensures var c, c' := Configured(config, es), Run(config, es).config;
            && c'.statusPeriod == (if c.statusPeriod > 0 then c.statusPeriod else 100_000_000)
            && c'.activePeriod == (if c.activePeriod > 0 then c.activePeriod else 100_000_000)
            && c'.timeout == (if c.timeout >= 0 then c.timeout else 500_000_000)
            && c'.lead == (if c.lead >= 0 then c.lead else 200_000_000)
  {
    if es != [] {
      ConfigurationIsTheLast(config, es[..|es| - 1]);
    }
  }

  /** The turn at event t takes up a reference that waits. */
  predicate TakesUp(es: seq<Event>, t: nat) {
    t < |es| && es[t].Turns? && exists i :: 0 <= i < t && Waits(es[..t], i)
  }

  /** The request at event j was refused, and neither a configuration nor a new reference has come since. */
  predicate RefusedSince(es: seq<Event>, j: nat) {
    && j < |es| && es[j].Requests? && es[j].build.evaluator == None
    && Kept(es, j) && forall t :: j < t < |es| ==> !TakesUp(es, t)
  }

  ghost predicate FlagSeen(es: seq<Event>, x: nat) {
    || (exists j :: 0 <= j < |es| && RefusedSince(es, j) && x in es[j].build.flags)
    || (exists j :: 0 <= j < |es| && InUse(es, j) && x in es[j].build.flags)
  }

  /**
   In every run the flags are those of the reference in use and of the requests refused since it was taken
   up, no more and no less.
   */
  lemma {:induction false} FlagsAreCollected(config: Config, es: seq<Event>, x: nat)
    ensures x in Run(config, es).flags <==> FlagSeen(es, x)
  {
    if es != [] {
      var before := es[..|es| - 1];
      FlagsAreCollected(config, before, x);
      ReferencesAreRequested(config, before);
      FlagsStep(Run(config, before), es, x);
    }
  }

  lemma FlagsStep(r: Runtime, es: seq<Event>, x: nat)
    requires es != [] && HoldsRequests(r, es[..|es| - 1]) && (x in r.flags <==> FlagSeen(es[..|es| - 1], x))
    ensures x in Step(r, es[|es| - 1]).flags <==> FlagSeen(es, x)
  {
    var n := |es| - 1;
    var before, e := es[..n], es[n];
    forall j | 0 <= j < n
      ensures InUse(es, j) <==> !e.Configures? && if e.Turns? then Newest(before, j) else InUse(before, j)
    {
      RequestsMove(es, j);
    }
    assert !InUse(es, n);
    RefusalsMove(es);
    FlagsAfter(r, e);
    if e.Turns? && r.pending.Held? {
      FlagsTakenUp(r, es, x);
    } else if e.Turns? {
      forall j | 0 <= j < n ensures Newest(before, j) <==> InUse(before, j) {
        StaysInUse(before, j);
      }
    }
    hide Newest, InUse, Waits, Step, RefusedSince, TakesUp, Kept, IsRequested;
  }

  /** When no request waits, the newest one is in use. */
  lemma StaysInUse(es: seq<Event>, j: nat)
    requires j < |es| && forall i :: 0 <= i < |es| ==> !Waits(es, i)
    ensures Newest(es, j) <==> InUse(es, j)
  {
    if InUse(es, j) {
      var i := SomeNewest(es, j);
      assert !Waits(es, i);
    }
    assert !Waits(es, j);
  }

  lemma FlagsTakenUp(r: Runtime, es: seq<Event>, x: nat)
    requires es != [] && HoldsRequests(r, es[..|es| - 1]) && es[|es| - 1].Turns? && r.pending.Held?
    requires forall j :: 0 <= j < |es| - 1 ==> (InUse(es, j) <==> Newest(es[..|es| - 1], j))
    ensures TakesUp(es, |es| - 1)
    ensures x in r.pending.flags <==> exists j :: 0 <= j < |es| - 1 && InUse(es, j) && x in es[j].build.flags
  {
    var n := |es| - 1;
    var before := es[..n];
    var i :| 0 <= i < n && Waits(before, i);
    assert es[..n] == before;
    assert InUse(es, i) && r.pending.flags == es[i].build.flags;
    forall j | 0 <= j < n && InUse(es, j) ensures j == i {
    }
    hide InUse, IsRequested, Kept;
  }

  /** Refusals stay since, until a configuration or a new reference. */
  lemma RefusalsMove(es: seq<Event>)
    requires es != []
    ensures var n := |es| - 1;
            && (forall j :: 0 <= j < n ==>
                  (RefusedSince(es, j) <==> RefusedSince(es[..n], j) && !es[n].Configures? && !TakesUp(es, n)))
            && (RefusedSince(es, n) <==> es[n].Requests? && es[n].build.evaluator == None)
            && (TakesUp(es, n) <==> es[n].Turns? && exists i :: 0 <= i < n && Waits(es[..n], i))
  {
    var n := |es| - 1;
    var before := es[..n];
    hide Waits;
    forall t | 0 <= t < n ensures TakesUp(es, t) == TakesUp(before, t) {
      assert es[..t] == before[..t];
    }
    forall j | 0 <= j < n ensures Kept(es, j) <==> Kept(before, j) && !es[n].Configures? {
    }
    hide TakesUp, Kept;
  }

  lemma FlagsAfter(r: Runtime, e: Event)
    ensures Step(r, e).flags ==
            match e
            case Configures(_) => {}
            case Turns(_) => if r.pending.Held? then r.pending.flags else r.flags
            case Requests(_, _, _, build) => if build.evaluator == None then r.flags + build.flags else r.flags
  {
  }

  // ------------------------------------------------------ what a turn publishes

  predicate PublishesActive(r: Runtime) {
    ActiveAnalytic(r.now) in r.effects || ActiveSampled(r.now) in r.effects
  }

  /** Which turns publish the active reference and the status, at most once each, and where they lead. */
  lemma PublishesExactly(r: Runtime, now: int)
    requires Sound(r)
    ensures StatesMove(r, Updated(r, now)) && ActivePublished(r, Updated(r, now)) && StatusPublished(r, Updated(r, now))
  {
    OverIsExpired(r, now);
    hide Over, EndOf, ActiveExpired, HasEvaluator;
    var q := r.(now := now, effects := []);
    assert ActiveExpired(q, now) == ActiveExpired(r, now) by { ExpiryReads(r, q, now); }
    DispatchPublishes(q);
  }

  lemma ExpiryReads(r: Runtime, q: Runtime, now: int)
    requires q.active == r.active && q.config == r.config
    ensures ActiveExpired(q, now) == ActiveExpired(r, now) && (HasEvaluator(r.active) ==> Over(q, now) == Over(r, now))
  {
  }

  /** Active is where a new reference leads, and where one that is not over stays. */
  predicate StatesMove(r: Runtime, r': Runtime) {
    && !r'.state.SelfCheck?
    && (r'.state.Active? <==> r.pending.Held? || (r.state.Active? && HasEvaluator(r.active) && !Over(r, r'.now)))
  }

  /** An active reference is published when it is new, and then a period after its last publication. */
  predicate ActivePublished(r: Runtime, r': Runtime) {
    && (PublishesActive(r') <==>
          r'.state.Active? &&
          (r.state.Active? && r.pending == NoReference ==> r'.now - r.state.active.last >= r.config.activePeriod))
    && (r'.state.Active? && !PublishesActive(r') ==> r.state.Active? && r'.state.active == r.state.active)
    && (PublishesActive(r') ==> r'.state.active.last == r'.now)
  }

  /** The status is published in every change of state but the replacement of a reference, and a period after. */
  predicate StatusPublished(r: Runtime, r': Runtime) {
    && (Status(r'.now) in r'.effects <==>
          || r.state.SelfCheck? || (r.state.Ready? <==> r'.state.Active?)
          || r'.now - StatusGate(r).last >= r.config.statusPeriod)
    && StatusGate(r').last == if Status(r'.now) in r'.effects then r'.now else StatusGate(r).last
  }

  /** The same for the dispatch that the turn consists of. */
  lemma DispatchPublishes(q: Runtime)
    requires q.effects == [] && q.config.Usable()
    requires q.state.Ready? ==> q.state.status.initialized
    requires q.state.Active? ==> q.state.status.initialized && q.state.active.initialized && HasEvaluator(q.active)
    ensures StatesMove(q, Dispatched(q)) && ActivePublished(q, Dispatched(q)) && StatusPublished(q, Dispatched(q))
  {
  }

  lemma OverIsExpired(r: Runtime, now: int)
    requires Sound(r)
    ensures ActiveExpired(r, now) <==> (r.active.Held? ==> Over(r, now))
  {
  }

  function StatusGate(r: Runtime): Gate {
    match r.state
    case SelfCheck => FRESH
    case Ready(status) => status
    case Active(status, _) => status
  }

  /** The turn at event t of a run published the active reference, or the status. */
  predicate PublishedAt(config: Config, es: seq<Event>, t: nat, status: bool) {
    t < |es| && es[t].Turns? &&
    var r := Run(config, es[..t + 1]);
    if status then Status(es[t].now) in r.effects else PublishesActive(r)
  }

  predicate LastPublished(config: Config, es: seq<Event>, t: nat, status: bool) {
    PublishedAt(config, es, t, status) && forall i :: t < i < |es| ==> !PublishedAt(config, es, i, status)
  }

  /** There was a publication, and the last one was at this time. */
  ghost predicate LastAt(config: Config, es: seq<Event>, status: bool, time: int) {
    exists t :: 0 <= t < |es| && es[t] == Turns(time) && LastPublished(config, es, t, status)
  }

  lemma PublishedBefore(config: Config, es: seq<Event>, i: nat, status: bool)
    requires i < |es| - 1
    ensures PublishedAt(config, es, i, status) == PublishedAt(config, es[..|es| - 1], i, status)
  {
    assert es[..|es| - 1][..i + 1] == es[..i + 1];
  }

  lemma LastAtMoves(config: Config, es: seq<Event>, status: bool, time: int)
    requires es != []
    ensures PublishedAt(config, es, |es| - 1, status) && es[|es| - 1] == Turns(time) ==>
              LastAt(config, es, status, time)
    ensures LastAt(config, es[..|es| - 1], status, time) && !PublishedAt(config, es, |es| - 1, status) ==>
              LastAt(config, es, status, time)
  {
    hide PublishedAt;
    var n := |es| - 1;
    var before := es[..n];
    forall i | 0 <= i < n ensures PublishedAt(config, es, i, status) == PublishedAt(config, before, i, status) {
      PublishedBefore(config, es, i, status);
    }
    if PublishedAt(config, es, n, status) {
      assert LastPublished(config, es, n, status);
    } else if LastAt(config, before, status, time) {
      var t :| 0 <= t < n && before[t] == Turns(time) && LastPublished(config, before, t, status);
      forall i | t < i < |es| ensures !PublishedAt(config, es, i, status) {
        if i < n {
          assert !PublishedAt(config, before, i, status);
        }
      }
      assert LastPublished(config, es, t, status);
    }
  }

  /** What the gates remember: when the active reference and the status were last published. */
  ghost predicate GatesRemember(config: Config, es: seq<Event>, r: Runtime) {
    && (r.state.Active? ==> LastAt(config, es, false, r.state.active.last))
    && (!r.state.SelfCheck? ==> LastAt(config, es, true, StatusGate(r).last))
  }

  /** In every run: so the spacing that decides about a publication is the time since the one before. */
  lemma {:induction false} GatesRememberPublications(config: Config, es: seq<Event>)
    requires Forwards(config, es)
    ensures GatesRemember(config, es, Run(config, es))
  {
    if es != [] {
      var before := es[..|es| - 1];
      forall k | 0 <= k < |before| ensures before[..k] == es[..k] {
      }
      GatesRememberPublications(config, before);
      RunIsSound(config, before);
      hide LastAt, LastPublished;
      GatesStep(config, es, Run(config, before));
    }
  }

  lemma GatesStep(config: Config, es: seq<Event>, r: Runtime)
    requires es != [] && r == Run(config, es[..|es| - 1]) && Sound(r)
    requires GatesRemember(config, es[..|es| - 1], r)
    ensures GatesRemember(config, es, Run(config, es))
  {
    var n, e := |es| - 1, es[|es| - 1];
    assert es[..n + 1] == es;
    var r' := Step(r, e);
    assert Run(config, es) == r';
    if e.Turns? {
      PublishesExactly(r, e.now);
      assert PublishedAt(config, es, n, true) <==> Status(e.now) in r'.effects;
      assert PublishedAt(config, es, n, false) <==> PublishesActive(r');
    } else {
      assert !PublishedAt(config, es, n, true) && !PublishedAt(config, es, n, false);
    }
    hide Updated, LastAt, PublishedAt, Run, Sound, PublishesActive;
    LastAtMoves(config, es, true, StatusGate(r').last);
    LastAtMoves(config, es, false, if r'.state.Active? then r'.state.active.last else 0);
  }

  /** A turn that emits nothing and moves no gate and no reference. */
  predicate Idle(r: Runtime, now: int) {
    Updated(r, now) == r.(now := now, effects := [])
  }

  /** A turn at the wake-up has something to emit. */
  lemma WakeHasWork(r: Runtime)
    requires Sound(r)
    ensures Updated(r, NextWake(r)).effects != []
  {
  }

  /** A turn more than one tick before the wake-up has nothing to do: no publication is later than one tick. */
  lemma NothingBeforeWake(r: Runtime, t: int)
    requires Sound(r) && r.now <= t < NextWake(r) - 1
    ensures Idle(r, t)
  {
  }

  /** After a turn the wake-up lies ahead, exactly unless the turn activated a reference that had expired by then. */
  lemma WakeMovesOn(r: Runtime, now: int)
    requires Sound(r) && r.now <= now
    ensures NextWake(Updated(r, now)) > now <==>
            !(Updated(r, now).state.Active? && ActiveExpired(Updated(r, now), now))
  {
  }

  // ---------------------------------------------------------------- the runtime

  class ReferenceTrajectoryRuntime {
    var config: Config
    var now: int
    var flags: set<nat>
    var pending: Reference
    var active: Reference
    var state: State
    var effects: seq<Effect>

    ghost function View(): Runtime
      reads this
    {
      Runtime(config, now, flags, pending, active, state, effects)
    }

    constructor (config: Config)
      ensures View() == ResetWith(config.Sanitized())
    {
      this.config := config.Sanitized();
      now, flags, pending, active, state, effects := 0, {}, NoReference, NoReference, SelfCheck, [];
    }

    method SetConfig(config: Config)
      modifies this
      ensures View() == ResetWith(config.Sanitized())
    {
      this.config := config.Sanitized();
      Reset();
    }

    method Reset()
      modifies this
      ensures View() == ResetWith(old(config))
    {
      now, flags, pending, active, effects := 0, {}, NoReference, NoReference, [];
      state := SelfCheck;
    }

    method Emit(e: Effect)
      modifies this`effects
      ensures effects == old(effects) + [e]
    {
      effects := effects + [e];
    }

    method EmitActive()
      modifies this`effects
      ensures effects == old(effects) + ActiveEffects(active, now)
    {
      if active.Held? && active.kind == Analytic {
        Emit(ActiveAnalytic(now));
      } else if active.Held? && active.kind == Sampled {
        Emit(ActiveSampled(now));
      }
    }

    method Accept(kind: Kind, m: Message, receipt: int, build: Build) returns (accepted: bool)
      modifies this`flags, this`pending
      ensures accepted == build.evaluator.Some?
      ensures View() == Accepted(old(View()), kind, m, receipt, build)
    {
      if build.evaluator == None {
        flags := flags + build.flags;
        return false;
      }
      var adjusted := m.(start := AdjustedStart(m.start, receipt, config.lead));
      pending := Held(kind, adjusted, build.evaluator, build.flags);
      return true;
    }

    method Activate()
      modifies this`flags, this`pending, this`active
      ensures View() == ActivatePending(old(View()))
    {
      if pending != NoReference {
        flags := pending.flags;
        active := pending;
        pending := NoReference;
      }
    }

    method GoReady()
      modifies this`state, this`effects
      ensures View() == EnterReady(old(View()))
    {
      var gate := FRESH.Passed(now, config.statusPeriod);
      Emit(Status(now));
      state := Ready(gate);
    }

    method GoActive()
      modifies this
      ensures View() == EnterActive(old(View()))
    {
      Activate();
      Emit(Status(now));
      EmitActive();
      state := Active(FRESH.Passed(now, config.statusPeriod), FRESH.Passed(now, config.activePeriod));
    }

    method EmitStatusIfDue(gate: Gate) returns (gate': Gate)
      modifies this`effects
      ensures gate' == gate.Passed(now, config.statusPeriod)
      ensures effects == old(effects) + StatusIfDue(old(View()), gate)
    {
      gate' := gate.Passed(now, config.statusPeriod);
      if gate.Due(now, config.statusPeriod) {
        Emit(Status(now));
      }
    }

    method TickActive(status: Gate, gate: Gate)
      requires state == Active(status, gate)
      modifies this
      ensures View() == Dispatched(old(View()))
    {
      if pending != NoReference {
        Activate();
        var status' := EmitStatusIfDue(status);
        EmitActive();
        state := Active(status', FRESH.Passed(now, config.activePeriod));
        return;
      }
      if ActiveExpired(Runtime(config, now, flags, pending, active, state, effects), now) {
        GoReady();
        return;
      }
      var status' := EmitStatusIfDue(status);
      if gate.Due(now, config.activePeriod) {
        EmitActive();
      }
      state := Active(status', gate.Passed(now, config.activePeriod));
    }

    method Update(now: int)
      modifies this
      ensures View() == Updated(old(View()), now)
    {
      this.now := now;
      effects := [];
      match state
      case SelfCheck =>
        if pending != NoReference { GoActive(); } else { GoReady(); }
      case Ready(status) =>
        if pending != NoReference {
          GoActive();
        } else {
          var status' := EmitStatusIfDue(status);
          state := Ready(status');
        }
      case Active(status, gate) => TickActive(status, gate);
    }
  }
}
