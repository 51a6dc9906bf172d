/**
 Planner segments: admission, the pending and active slots, and the lift of a
 segment to the current time.
 */
module Trajectory {
  import opened Sensors

  const IGNORE_PX: bv16 := 1
  const IGNORE_PY: bv16 := 2
  const IGNORE_PZ: bv16 := 4
  const IGNORE_VX: bv16 := 8
  const IGNORE_VY: bv16 := 16
  const IGNORE_VZ: bv16 := 32
  const IGNORE_AX: bv16 := 64
  const IGNORE_AY: bv16 := 128
  const IGNORE_AZ: bv16 := 256
  const FORCE: bv16 := 512
  const IGNORE_YAW: bv16 := 1024
  const IGNORE_YAW_RATE: bv16 := 2048
  const IGNORE_PVA: bv16 := 511
  const ALL_BITS: bv16 := 0xFFFF

  predicate Ignored(mask: bv16, bit: bv16) {
    mask & bit != 0
  }

  /** A planned segment. Time 0 means "no time", as the original's zero Time does. */
  datatype Segment = Segment(pos: Vec3, vel: Vec3, acc: Vec3, time: nat, mask: bv16, frame: nat, valid: bool)

  const NO_SEGMENT := Segment(ZERO3, ZERO3, ZERO3, 0, 0, 1, false)

  datatype Buffer = Buffer(active: Segment, pending: Segment)

  const EMPTY := Buffer(NO_SEGMENT, NO_SEGMENT)

  predicate EffectiveTime(b: Backend, zeroOrderHold: bool) {
    b == Smc || b == Dfbc || ((b == Px4Local || b == PvaSmc) && zeroOrderHold)
  }

  predicate WorldPva(mask: bv16, frame: nat) {
    frame == 1 && !Ignored(mask, FORCE) && !Ignored(mask, IGNORE_PVA)
  }

  predicate PlanMatchesHover(g: Segment, hover: Vec3, xyTol: real, zTol: real) {
    g.valid &&
    (var useX, useY := !Ignored(g.mask, IGNORE_PX), !Ignored(g.mask, IGNORE_PY);
     var dx, dy := g.pos.x - hover.x, g.pos.y - hover.y;
     && (useX && useY ==> dx * dx + dy * dy <= xyTol * xyTol)
     && (useX && !useY ==> Abs(dx) <= xyTol)
     && (useY && !useX ==> Abs(dy) <= xyTol)
     && (!Ignored(g.mask, IGNORE_PZ) ==> Abs(g.pos.z - hover.z) <= zTol))
  }

  predicate MayTakeSetpoint(g: Segment, hover: Vec3, cfg: Config, armed: bool) {
    g.valid && (armed || PlanMatchesHover(g, hover, cfg.hoverXyTol, cfg.hoverZTol))
  }

  /** True on [time, time + period]. */
  predicate StageWindowOpen(g: Segment, now: int, periodNs: int) {
    g.valid && g.time != 0 && now != 0 && g.time <= now && periodNs >= 0 && now - g.time <= periodNs
  }

  /** The last tick of the window plus one, when the period is usable. */
  function Expiry(g: Segment, periodNs: int): int {
    g.time + periodNs + 1
  }

  // ---------------------------------------------------------------- admission

  /** A planner message as received; `finite` says that every number in it is. */
  datatype Ingress = Ingress(
    pos: Vec3, vel: Vec3, acc: Vec3, mask: bv16, frame: nat, header: nat, receipt: nat, finite: bool)

  function SegmentOf(m: Ingress, b: Backend, zeroOrderHold: bool): Segment {
    var frame := if b == Smc || b == Dfbc || m.frame != 0 then m.frame else 1;
    if EffectiveTime(b, zeroOrderHold) then
      var usable := m.finite && m.header != 0;
      Segment(m.pos, m.vel, m.acc, m.header, m.mask, frame,
              usable && (b == Smc || b == Dfbc ==> WorldPva(m.mask, m.frame)))
    else
      Segment(m.pos, m.vel, m.acc, m.receipt, m.mask, frame, true)
  }

  datatype Admission = NotUsed | RejectedEffectiveTime | RejectedSmcFrame | Cached

  predicate TakesPlannerSetpoint(cfg: Config) {
    cfg.backend == Px4Local || cfg.backend == Smc || cfg.backend == PvaSmc ||
    (cfg.backend == Dfbc && cfg.plannerStream)
  }

  function Admit(m: Ingress, cfg: Config): Admission {
    if !TakesPlannerSetpoint(cfg) then NotUsed
    else if EffectiveTime(cfg.backend, cfg.zeroOrderHold) && !SegmentOf(m, cfg.backend, cfg.zeroOrderHold).valid then
      if cfg.backend == Smc && !WorldPva(m.mask, m.frame) then RejectedSmcFrame else RejectedEffectiveTime
    else Cached
  }

  // ------------------------------------------------------- pending and active

  /** Whether a tick at `now` moves the pending segment to the active slot. */
  predicate Due(buf: Buffer, now: int, b: Backend, zeroOrderHold: bool) {
    buf.pending.valid &&
    (EffectiveTime(b, zeroOrderHold) ==> buf.pending.time != 0 && buf.pending.time <= now)
  }

  function Promoted(buf: Buffer, now: int, b: Backend, zeroOrderHold: bool): Buffer {
    if Due(buf, now, b, zeroOrderHold) then Buffer(buf.pending, NO_SEGMENT) else buf
  }

  /** A new segment arrives: a due one is promoted before its slot is taken over. */
  function CachedSample(buf: Buffer, g: Segment, receipt: int, cfg: Config): Buffer {
    var buf' := if EffectiveTime(cfg.backend, cfg.zeroOrderHold)
                then Promoted(buf, receipt, cfg.backend, cfg.zeroOrderHold) else buf;
    buf'.(pending := g.(valid := true))
  }

  function Ingested(buf: Buffer, m: Ingress, cfg: Config): Buffer {
    if Admit(m, cfg) == Cached
    then CachedSample(buf, SegmentOf(m, cfg.backend, cfg.zeroOrderHold), m.receipt, cfg)
    else buf
  }

  class MpcTrajectoryBuffer {
    var active: Segment
    var pending: Segment

    ghost function View(): Buffer
      reads this
    {
      Buffer(active, pending)
    }

    constructor ()
      ensures View() == EMPTY
    {
      active, pending := NO_SEGMENT, NO_SEGMENT;
    }

    method Clear()
      modifies this
      ensures View() == EMPTY
    {
      active, pending := NO_SEGMENT, NO_SEGMENT;
    }

    method CachePending(g: Segment)
      modifies this
      ensures View() == old(View()).(pending := g.(valid := true))
    {
      pending := g;
      pending := pending.(valid := true);
    }

    method PromotePending(activation: nat) returns (promoted: bool)
      modifies this
      ensures promoted == old(pending).valid
      ensures View() == if promoted then Buffer(old(pending).(time := activation), NO_SEGMENT) else old(View())
    {
      if !pending.valid {
        return false;
      }
      active := pending;
      active := active.(time := activation);
      pending := NO_SEGMENT;
      return true;
    }

    method Promote(now: int, b: Backend, zeroOrderHold: bool) returns (promoted: bool)
      modifies this
      ensures promoted == Due(old(View()), now, b, zeroOrderHold)
      ensures View() == Promoted(old(View()), now, b, zeroOrderHold)
    {
      if !pending.valid {
        return false;
      }
      if EffectiveTime(b, zeroOrderHold) {
        if !pending.valid || pending.time == 0 || now < pending.time {
          return false;
        }
      }
      promoted := PromotePending(pending.time);
    }

    method CacheSample(g: Segment, receipt: int, cfg: Config)
      modifies this
      ensures View() == CachedSample(old(View()), g, receipt, cfg)
    {
      if EffectiveTime(cfg.backend, cfg.zeroOrderHold) {
        var _ := Promote(receipt, cfg.backend, cfg.zeroOrderHold);
      }
      CachePending(g);
    }

    method Ingest(m: Ingress, cfg: Config) returns (r: Admission)
      modifies this
      ensures r == Admit(m, cfg)
      ensures View() == Ingested(old(View()), m, cfg)
    {
      if !TakesPlannerSetpoint(cfg) {
        return NotUsed;
      }
      var g := SegmentOf(m, cfg.backend, cfg.zeroOrderHold);
      if EffectiveTime(cfg.backend, cfg.zeroOrderHold) && !g.valid {
        r := if cfg.backend == Smc && !WorldPva(m.mask, m.frame) then RejectedSmcFrame else RejectedEffectiveTime;
        return;
      }
      CacheSample(g, m.receipt, cfg);
      return Cached;
    }
  }
}
