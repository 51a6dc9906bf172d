/** Commands are delivered exactly once and in order, and a Land command is never late or ignored. */
module FlightCommands {
  import opened Sensors
  import opened FlightTypes
  import opened HealthMonitor
  import opened Flight
  import opened FlightRuns

  // --------------------------------------------------------------- accepting

  function PostedAll(st: State, cs: seq<Command>): State
    decreases |cs|
  {
    if cs == [] then st else PostedAll(Posted(st, cs[0]), cs[1..])
  }

  /** Posting accepts commands in order until there is no room for more, and changes nothing else. */
  lemma {:induction false} PostingAccepts(st: State, cs: seq<Command>)
    requires |st.pending| <= 4096
    ensures var n := if |cs| <= 4096 - |st.pending| then |cs| else 4096 - |st.pending|;
            PostedAll(st, cs) == st.(pending := st.pending + cs[..n]) && Between(st, PostedAll(st, cs))
    decreases |cs|
  {
    if cs != [] {
      PostingAccepts(Posted(st, cs[0]), cs[1..]);
      if |st.pending| < CAPACITY {
        var n := if |cs| <= CAPACITY - |st.pending| then |cs| else CAPACITY - |st.pending|;
        assert st.pending + [cs[0]] + cs[1..][..n - 1] == st.pending + cs[..n];
      }
    }
  }

  // -------------------------------------------------------------- delivering

  lemma TurnTakesBatch(st: State, i: Input, cfg: Config)
    ensures st.pending == Batch(st) + Turn(st, i, cfg).post.pending
    ensures |Batch(st)| <= BATCH && (|Batch(st)| < BATCH ==> Turn(st, i, cfg).post.pending == [])
  {
    hide LeafTick, Heard, HealthAfter, Choose, Concluded, Unconsumed;
    var beat := LeafTick(st, i, cfg);
    ConcludedLeaf(st, i, cfg, beat, Choose(KindOf(st.leaf), ViewOf(st, i, cfg, beat)));
  }

  /** The commands that turns 0..k were given, in order. */
  function Delivered(recs: seq<Rec>, k: nat): seq<Command>
    requires k <= |recs|
  {
    if k == 0 then [] else Delivered(recs, k - 1) + Batch(recs[k - 1].pre)
  }

  /** The commands that had been accepted when turn k - 1 began, in order. */
  function Accepted(recs: seq<Rec>, k: nat): seq<Command>
    requires k <= |recs|
    requires forall j :: 0 < j < |recs| ==> Between(recs[j - 1].out.post, recs[j].pre)
  {
    if k == 0 then []
    else if k == 1 then recs[0].pre.pending
    else Accepted(recs, k - 1) + recs[k - 1].pre.pending[|recs[k - 2].out.post.pending|..]
  }

  /** Nothing is lost, repeated or reordered: what was accepted is what was delivered and what still waits. */
  lemma {:induction false} DeliveredExactlyOnce(recs: seq<Rec>, cfg: Config, k: nat)
    requires IsRun(recs, cfg) && 0 < k <= |recs|
    ensures Accepted(recs, k) == Delivered(recs, k) + recs[k - 1].out.post.pending
    ensures |Batch(recs[k - 1].pre)| <= BATCH
  {
    hide Turn, Batch, Starts;
    TurnTakesBatch(recs[k - 1].pre, recs[k - 1].i, cfg);
    if k > 1 {
      DeliveredExactlyOnce(recs, cfg, k - 1);
      var before, waiting := recs[k - 2].out.post.pending, recs[k - 1].pre.pending;
      assert Between(recs[k - 2].out.post, recs[k - 1].pre);
      assert waiting == before + waiting[|before|..];
    }
  }

  /** The command with n others ahead of it is delivered n / 64 turns later. */
  lemma {:induction false} DeliveredInTurn(recs: seq<Rec>, cfg: Config, k: nat, n: nat)
    requires IsRun(recs, cfg) && k + n / BATCH < |recs| && n < |recs[k].pre.pending|
    ensures var batch := Batch(recs[k + n / BATCH].pre);
            n % BATCH < |batch| && batch[n % BATCH] == recs[k].pre.pending[n]
    decreases n
  {
    hide Turn;
    if n >= BATCH {
      TurnTakesBatch(recs[k].pre, recs[k].i, cfg);
      assert Between(recs[k].out.post, recs[k + 1].pre);
      DeliveredInTurn(recs, cfg, k + 1, n - BATCH);
    }
  }

  // -------------------------------------------------------------------- Land

  /** Whatever else a turn hears, a Land command takes every leaf but SelfCheck to Landing. */
  lemma LandAlwaysLands(kind: Kind, v: View)
    requires Land in v.commands && kind != SelfCheck && kind != Landed
    ensures Choose(kind, v).Enter? && Choose(kind, v).kind == Landed
  {
  }

  lemma LandTurn(st: State, i: Input, cfg: Config)
    requires Land in Batch(st) && !st.leaf.AtSelfCheck? && !st.leaf.AtLanding?
    ensures Turn(st, i, cfg).post.leaf.AtLanding?
  {
    hide LeafTick, Heard, HealthAfter, ReferenceReady;
    var beat := LeafTick(st, i, cfg);
    var v := ViewOf(st, i, cfg, beat);
    LandAlwaysLands(KindOf(st.leaf), v);
    ConcludedLeaf(st, i, cfg, beat, Choose(KindOf(st.leaf), v));
  }

  /**
   A Land command that is pending at turn k with n commands ahead of it is delivered n / 64 turns
   later, and after that turn the vehicle is landing, unless that turn began in SelfCheck or Landing.
   */
  lemma LandIsNeverIgnored(recs: seq<Rec>, cfg: Config, k: nat, n: nat)
    requires IsRun(recs, cfg) && k + n / BATCH < |recs|
    requires n < |recs[k].pre.pending| && recs[k].pre.pending[n] == Land
    ensures var r := recs[k + n / BATCH];
            Land in Batch(r.pre) && (r.out.post.leaf.AtLanding? || r.pre.leaf.AtSelfCheck? || r.pre.leaf.AtLanding?)
  {
    hide Turn;
    DeliveredInTurn(recs, cfg, k, n);
    var r := recs[k + n / BATCH];
    if !r.pre.leaf.AtSelfCheck? && !r.pre.leaf.AtLanding? {
      LandTurn(r.pre, r.i, cfg);
    }
  }
}
