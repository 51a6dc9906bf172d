/** What goes into and comes out of one owner turn, and the controller object the states share. */
module FlightTypes {
  import opened Ticks
  import opened Sensors

  datatype Command = Takeoff | Land | Hover | Track

  datatype Signal =
    | AltctlReady | OffboardReady | ArmReady | AltitudeReached | TakeoffTimeout | ReferenceFinished | Touchdown
    | Geofence | VelocityXY | VelocityZ | SaturationXY | SaturationZ | EstimateUnusable
    | TimeoutEstimate | TimeoutLocalPosition | TimeoutLocalVelocity | TimeoutImu | TimeoutFcuState

  /** The signals that only the active flight leaf emits, as opposed to the health monitor's. */
  predicate Completion(s: Signal) {
    s.AltctlReady? || s.OffboardReady? || s.ArmReady? || s.AltitudeReached? ||
    s.TakeoffTimeout? || s.ReferenceFinished? || s.Touchdown?
  }

  datatype Effect =
    | SetpointOut(at: int) | AttitudeOut(at: int) | ArmRequest(at: int, arm: bool)
    | ModeRequest(at: int, mode: FcuMode) | NmpcRequest(at: int, sequence: nat, generation: nat)
    | ReferenceActivation(at: int) | StatusOut(at: int) | SensorStatsOut(at: int) | EventsOut(at: int)
    | TrackingErrorOut(at: int) | SensorDebugOut(at: int)

  /** An entry of the turn's diagnostic list. */
  datatype Diagnostic = OfCommand(c: Command) | OfSignal(s: Signal) | Unnamed

  function Signalled(ss: seq<Signal>): (ds: seq<Diagnostic>)
    ensures |ds| == |ss|
  {
    seq(|ss|, i requires 0 <= i < |ss| => OfSignal(ss[i]))
  }

  function Commanded(cs: seq<Command>): (ds: seq<Diagnostic>)
    ensures |ds| == |cs|
  {
    seq(|cs|, i requires 0 <= i < |cs| => OfCommand(cs[i]))
  }

  lemma Assoc<T>(a: seq<T>, b: seq<T>, c: seq<T>)
    ensures a + b + c == a + (b + c)
  {
  }

  /** A setpoint goes out when the publish timer is due. */
  function Publishing(t: Timer, now: int): seq<Effect> {
    if t.Runs(now, SETPOINT_INTERVAL) then [SetpointOut(now)] else []
  }

  /** What a leaf's tick leaves behind: its data, and what it emitted. */
  datatype Ticked<L> = Ticked(leaf: L, effects: seq<Effect>, signals: seq<Signal>)

  /** What the states read from and write to: time, inputs, the shared setpoint and the turn's output. */
  class Controller {
    const cfg: Config
    var now: int
    var enteredAt: int
    var sensors: Sensors
    var setpoint: Setpoint
    var effects: seq<Effect>
    var signals: seq<Signal>
    var diagnostics: seq<Diagnostic>
    var custom1Requested: bool

    constructor (cfg: Config, sensors: Sensors, now: int)
      ensures this.cfg == cfg && this.sensors == sensors && this.now == now && enteredAt == now
      ensures setpoint == NO_SETPOINT && effects == [] && signals == [] && diagnostics == []
      ensures !custom1Requested
    {
      this.cfg, this.sensors, this.now, enteredAt := cfg, sensors, now, now;
      setpoint, effects, signals, diagnostics, custom1Requested := NO_SETPOINT, [], [], [], false;
    }

    method EmitEffect(e: Effect)
      modifies this`effects
      ensures effects == old(effects) + [e]
    {
      effects := effects + [e];
    }

    method EmitSignal(s: Signal)
      modifies this`signals, this`diagnostics
      ensures signals == old(signals) + [s] && diagnostics == old(diagnostics) + [OfSignal(s)]
    {
      signals := signals + [s];
      diagnostics := diagnostics + [OfSignal(s)];
    }

    method PublishIfDue(t: Timer) returns (t': Timer)
      modifies this`effects
      ensures t' == t.Ran(now, SETPOINT_INTERVAL)
      ensures effects == old(effects) + Publishing(t, now)
    {
      t' := t;
      if !t.started {
        t' := t.Start(now);
        EmitEffect(SetpointOut(now));
      } else if t.Elapsed(now) >= SETPOINT_INTERVAL {
        t' := t.Reset(now);
        EmitEffect(SetpointOut(now));
      }
    }
  }
}
