/** A turn may ask for another one at once; when nothing new arrives, that comes to an end quickly. */
module FlightContinuation {
  import opened Sensors
  import opened FlightTypes
  import opened HealthMonitor
  import opened DebugMonitor
  import opened Flight
  import opened FlightRuns

  const MOST_MOVES: nat := 3

  /** How many transitions can still follow without a command or anything new from the sensors. */
  function Rank(kind: Kind, requested: bool, ready: bool): nat {
    match kind
    case Landed => 0
    case SelfCheck => if ready then 2 else 0
    case Ready => 1
    case TakeoffInit => 3
    case TakeoffOffboard => 2
    case TakeoffArm => 1
    case TakeoffAscending => 3
    case Hovering => if requested then 3 else 1
    case Tracking => if requested then 4 else 2
  }

  function RankOf(st: State, s: Sensors, b: Backend): nat {
    Rank(KindOf(st.leaf), st.requested, SensorsReady(s, b))
  }

  /** Once the reference is being tracked, no Track command is latched any more. */
  predicate LatchClear(st: State) {
    st.leaf.AtCustom1? ==> !st.requested
  }

  lemma LatchAfter(st: State, i: Input, cfg: Config, beat: Beat, choice: Choice)
    requires KindOf(beat.leaf) == KindOf(st.leaf)
    ensures var post := Concluded(st, i, cfg, beat, choice).post;
            && Concluded(st, i, cfg, beat, choice).choice == choice
            && (LatchClear(st) ==> LatchClear(post))
            && (choice == Stay && Batch(st) == [] ==> post.requested == st.requested)
            && (choice.Enter? ==>
                  KindOf(post.leaf) == choice.kind &&
                  post.requested == (st.requested && choice.kind != Tracking && choice.kind != Landed))
  {
    hide HealthAfter, Heard, Unconsumed, DebugTicked, DebugEffects, Diagnostics, ExitLeaf;
  }

  /** The completions that cannot be posted without a fresh frame or pose. */
  predicate NeedsNews(x: Signal) {
    x == OffboardReady || x == ArmReady || x == AltitudeReached || x == Touchdown
  }

  lemma StaleTick(st: State, i: Input, cfg: Config)
    requires LeafSound(st.leaf) && i.s == Stale(i.s)
    ensures forall x :: x in LeafTick(st, i, cfg).signals ==> !NeedsNews(x)
  {
    BeatShape(st, i, cfg);
    assert !PoseNew(i.s, cfg.backend);
    if st.leaf.AtCustom1? {
      hide LeafTick;
    }
  }

  /** Without commands and without news, every transition lowers the rank. */
  lemma ChoiceLowersRank(kind: Kind, v: View)
    requires v.commands == [] && (kind == Tracking ==> !v.requested)
    requires forall x :: x in v.signals && Owns(kind, x) ==> !NeedsNews(x)
    ensures var c, ready := Choose(kind, v), SensorsReady(v.s, v.backend);
            c.Enter? ==>
              Rank(c.kind, v.requested && c.kind != Tracking && c.kind != Landed, ready) <
              Rank(kind, v.requested, ready)
  {
  }

  lemma QuietTurn(st: State, i: Input, cfg: Config)
    requires Sound(st) && LatchClear(st) && st.pending == [] && i.s == Stale(i.s)
    ensures var out := Turn(st, i, cfg);
            && out.post.pending == [] && LatchClear(out.post)
            && (out.again ==> RankOf(out.post, i.s, cfg.backend) < RankOf(st, i.s, cfg.backend))
  {
    hide LeafTick, LeafSound, Heard, HealthAfter, Stale, SensorsReady, ReferenceReady, Concluded, Choose, Rank;
    var beat := LeafTick(st, i, cfg);
    var v := ViewOf(st, i, cfg, beat);
    var choice := Choose(KindOf(st.leaf), v);
    BeatShape(st, i, cfg);
    StaleTick(st, i, cfg);
    HeardIsForeign(st, i, cfg);
    ChoiceLowersRank(KindOf(st.leaf), v);
    TurnKeepsSound(st, i, cfg);
    LatchAfter(st, i, cfg, beat, choice);
    if choice == Stay {
      StayEnds(st, i, cfg, beat);
    }
    ConcludedLeaf(st, i, cfg, beat, choice);
  }

  /** A turn that stays in its leaf asks for another only while commands are waiting. */
  lemma StayEnds(st: State, i: Input, cfg: Config, beat: Beat)
    requires st.pending == [] && beat.signals == []
    ensures !Concluded(st, i, cfg, beat, Stay).again
  {
  }

  /** Consecutive turns that each asked for the next: no commands are posted and the sensors say nothing new. */
  ghost predicate Continues(recs: seq<Rec>, cfg: Config, s: Sensors) {
    && s == Stale(s)
    && (forall k :: 0 <= k < |recs| ==>
          recs[k].out == Turn(recs[k].pre, recs[k].i, cfg) && recs[k].i.s == s && recs[k].out.again)
    && (forall k :: 0 < k < |recs| ==> recs[k].pre == recs[k - 1].out.post.(sh := recs[k].pre.sh))
    && (recs != [] ==> Sound(recs[0].pre) && LatchClear(recs[0].pre))
  }

  function Batches(n: nat): nat {
    (n + BATCH - 1) / BATCH
  }

  lemma {:induction false} ContinuationIsSound(recs: seq<Rec>, cfg: Config, s: Sensors, k: nat)
    requires Continues(recs, cfg, s) && k < |recs|
    ensures Sound(recs[k].pre) && LatchClear(recs[k].pre)
  {
    hide Turn, LeafSound, Stale;
    if k > 0 {
      ContinuationIsSound(recs, cfg, s, k - 1);
      LatchTurn(recs[k - 1].pre, recs[k - 1].i, cfg);
      TurnKeepsSound(recs[k - 1].pre, recs[k - 1].i, cfg);
    }
  }

  lemma LatchTurn(st: State, i: Input, cfg: Config)
    requires Sound(st) && LatchClear(st)
    ensures LatchClear(Turn(st, i, cfg).post)
  {
    hide LeafTick, LeafSound, Heard, Concluded, Choose;
    var beat := LeafTick(st, i, cfg);
    BeatShape(st, i, cfg);
    LatchAfter(st, i, cfg, beat, Choose(KindOf(st.leaf), ViewOf(st, i, cfg, beat)));
  }

  /** What is left to do after k turns: batches first, then at most `rank` transitions. */
  lemma {:induction false} ContinuationProgress(recs: seq<Rec>, cfg: Config, s: Sensors, k: nat)
    requires Continues(recs, cfg, s) && k < |recs|
    ensures var waiting, n := |recs[k].pre.pending|, Batches(|recs[0].pre.pending|);
            if k < n then waiting == |recs[0].pre.pending| - BATCH * k
            else waiting == 0 && k + RankOf(recs[k].pre, s, cfg.backend) <= n + MOST_MOVES
  {
    hide Turn, LeafSound, Stale, SensorsReady;
    ContinuationIsSound(recs, cfg, s, k);
    if k > 0 {
      ContinuationProgress(recs, cfg, s, k - 1);
      ContinuationIsSound(recs, cfg, s, k - 1);
      TakesBatch(recs[k - 1].pre, recs[k - 1].i, cfg);
      if recs[k - 1].pre.pending == [] {
        QuietTurn(recs[k - 1].pre, recs[k - 1].i, cfg);
      }
    }
  }

  lemma TakesBatch(st: State, i: Input, cfg: Config)
    ensures |Turn(st, i, cfg).post.pending| == if |st.pending| < BATCH then 0 else |st.pending| - BATCH
  {
    hide LeafTick, Heard, HealthAfter, Choose;
    var beat := LeafTick(st, i, cfg);
    ConcludedLeaf(st, i, cfg, beat, Choose(KindOf(st.leaf), ViewOf(st, i, cfg, beat)));
  }

  /**
   As long as no command is posted and the sensors bring nothing new, at most one turn for every 64
   waiting commands and three more ask for another turn. Time need not stand still for this.
   */
  lemma ContinuationEnds(recs: seq<Rec>, cfg: Config, s: Sensors)
    requires Continues(recs, cfg, s)
    ensures recs != [] ==> |recs| <= Batches(|recs[0].pre.pending|) + MOST_MOVES
  {
    hide Turn, LeafSound, Stale, SensorsReady;
    if recs != [] {
      var k := |recs| - 1;
      ContinuationProgress(recs, cfg, s, k);
      ContinuationIsSound(recs, cfg, s, k);
      if recs[k].pre.pending == [] {
        QuietTurn(recs[k].pre, recs[k].i, cfg);
      }
    }
  }

  /** Every state of a run may be continued in this way. */
  lemma {:induction false} LatchClearInRuns(recs: seq<Rec>, cfg: Config, k: nat)
    requires IsRun(recs, cfg) && k < |recs|
    ensures Sound(recs[k].pre) && LatchClear(recs[k].pre)
  {
    hide Turn, LeafSound;
    RunIsSound(recs, cfg, k);
    if k > 0 {
      LatchClearInRuns(recs, cfg, k - 1);
      LatchTurn(recs[k - 1].pre, recs[k - 1].i, cfg);
      assert Between(recs[k - 1].out.post, recs[k].pre);
    }
  }
}
