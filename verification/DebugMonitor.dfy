/** The debug monitor, which runs last in every turn and publishes on its own two periods. */
module DebugMonitor {
  import opened Options
  import opened Ticks
  import opened FlightTypes

  const STATUS_INTERVAL: int := 200_000_000
  const PRINT_INTERVAL: int := SECOND

  /** The last publication times, once there has been one. */
  datatype Debug = Debug(status: Option<int>, print_: Option<int>)

  predicate DebugDue(last: Option<int>, now: int, interval: int) {
    last == None || now - last.value >= interval
  }

  function DebugTicked(d: Debug, now: int): Debug {
    Debug(if DebugDue(d.status, now, STATUS_INTERVAL) then Some(now) else d.status,
          if DebugDue(d.print_, now, PRINT_INTERVAL) then Some(now) else d.print_)
  }

  function DebugEffects(d: Debug, now: int, diagnostics: bool): seq<Effect> {
    (if diagnostics then [EventsOut(now)] else []) +
    (if DebugDue(d.status, now, STATUS_INTERVAL)
     then [StatusOut(now), SensorStatsOut(now), TrackingErrorOut(now)] else []) +
    (if DebugDue(d.print_, now, PRINT_INTERVAL) then [SensorDebugOut(now)] else [])
  }

  function DebugWake(d: Debug, now: int): int {
    var status := if d.status == None then now else DueAt(d.status.value, STATUS_INTERVAL);
    var print_ := if d.print_ == None then now else DueAt(d.print_.value, PRINT_INTERVAL);
    if status < print_ then status else print_
  }

  class DebugMonitorState {
    var lastStatus: Option<int>
    var lastPrint: Option<int>

    ghost function View(): Debug
      reads this
    {
      Debug(lastStatus, lastPrint)
    }

    constructor ()
      ensures View() == Debug(None, None)
    {
      lastStatus, lastPrint := None, None;
    }

    method OnTick(ctl: Controller)
      modifies this, ctl`effects
      ensures View() == DebugTicked(old(View()), ctl.now)
      ensures ctl.effects == old(ctl.effects) + DebugEffects(old(View()), ctl.now, ctl.diagnostics != [])
    {
      if ctl.diagnostics != [] {
        ctl.EmitEffect(EventsOut(ctl.now));
      }
      if lastStatus == None || ctl.now - lastStatus.value >= STATUS_INTERVAL {
        ctl.EmitEffect(StatusOut(ctl.now));
        ctl.EmitEffect(SensorStatsOut(ctl.now));
        ctl.EmitEffect(TrackingErrorOut(ctl.now));
        lastStatus := Some(ctl.now);
      }
      if lastPrint == None || ctl.now - lastPrint.value >= PRINT_INTERVAL {
        ctl.EmitEffect(SensorDebugOut(ctl.now));
        lastPrint := Some(ctl.now);
      }
    }
  }
}
