/**
 * The signal controller of the intersection: a four-phase cycle
 * ew_green -> ew_yellow -> ns_green -> ns_yellow -> ew_green with a phase timer,
 * and a green duration that is either fixed or stretched by the waiting queue.
 *
 * `Signals` holds the phase values and the pure parts (the colour query and the
 * transition rule); `TrafficLights` holds the controller object and the queue count,
 * which reads the vehicles.
 */
module Signals {

  datatype LightState = EwGreen | EwYellow | NsGreen | NsYellow

  datatype Color = Green | Yellow | Red

  /** The phase that follows `s` in the cycle. */
  function Next(s: LightState): LightState {
    match s
    case EwGreen => EwYellow
    case EwYellow => NsGreen
    case NsGreen => NsYellow
    case NsYellow => EwGreen
  }

  /** Position of a phase in the cycle, starting at ew_green. */
  function Index(s: LightState): nat {
    match s
    case EwGreen => 0
    case EwYellow => 1
    case NsGreen => 2
    case NsYellow => 3
  }

  predicate IsGreen(s: LightState) {
    s == EwGreen || s == NsGreen
  }

  /** True for the two phases of the east-west axis. */
  predicate IsEastWest(s: LightState) {
    s == EwGreen || s == EwYellow
  }

  /** How long phase `s` lasts: the green time for the green phases, the yellow time otherwise. */
  function Duration(s: LightState, green: real, yellow: real): real {
    if IsGreen(s) then green else yellow
  }

  /**
   * The colour a vehicle sees. The direction argument is not consulted: the colour
   * follows the east-west phase for every direction.
   */
  function GetLightState(s: LightState, direction: int): (c: Color)
    ensures c == Green <==> s == EwGreen
    ensures c == Yellow <==> s == EwYellow
    ensures c == Red <==> !IsEastWest(s)
  {
    if s == EwGreen then Green
    else if s == EwYellow then Yellow
    else Red
  }

  /**
   * The state machine of one update, applied once the phase timer already holds the
   * elapsed time: a phase whose duration has been reached hands over to the next one
   * with a fresh timer.
   */
  function Advance(s: LightState, timer: real, green: real, yellow: real): (r: (LightState, real))
    ensures r.0 == s || r.0 == Next(s)
    ensures r.0 == Next(s) <==> timer >= Duration(s, green, yellow)
    ensures r.0 == Next(s) ==> r.1 == 0.0
    ensures r.0 == s ==> r.1 == timer
  {
    match s
    case EwGreen => if timer >= green then (EwYellow, 0.0) else (s, timer)
    case EwYellow => if timer >= yellow then (NsGreen, 0.0) else (s, timer)
    case NsGreen => if timer >= green then (NsYellow, 0.0) else (s, timer)
    case NsYellow => if timer >= yellow then (EwGreen, 0.0) else (s, timer)
  }

  /** Four successive transitions return to the starting phase, through every other phase. */
  lemma CycleOfFour(s: LightState)
    ensures Next(Next(Next(Next(s)))) == s
    ensures Index(Next(s)) == (Index(s) + 1) % 4
  {
  }
}

module TrafficLights {
  import opened Settings
  import opened Signals
  import opened Vehicles

  /** A vehicle counted as waiting by the adaptive controller: slow and near the intersection. */
  predicate QueuedAtLight(v: Vehicle, cfg: Config) {
    && v.speed < 10.0
    && (v.direction == 1 || v.direction == -1)
    && Abs(FrontX(v) - cfg.intersectionX) < 200.0
  }

  /** Lanes 0 and 1 belong to the east-west queue, every other lane to the north-south queue. */
  predicate OnEastWestLanes(v: Vehicle) {
    v.lane == 0 || v.lane == 1
  }

  /** The number of waiting vehicles of one axis (`eastWest` selects which). */
  function AxisQueue(vs: seq<Vehicle>, eastWest: bool, cfg: Config): (n: nat)
    ensures n <= |vs|
  {
    if vs == [] then 0
    else
      var v := vs[|vs| - 1];
      AxisQueue(vs[..|vs| - 1], eastWest, cfg)
        + (if QueuedAtLight(v, cfg) && OnEastWestLanes(v) == eastWest then 1 else 0)
  }

  /** Every waiting vehicle is in exactly one of the two queues. */
  lemma {:induction false} QueuesPartitionWaiting(vs: seq<Vehicle>, cfg: Config)
    ensures AxisQueue(vs, true, cfg) + AxisQueue(vs, false, cfg) == |WaitingOnes(vs, cfg)|
  {
    if vs != [] {
      QueuesPartitionWaiting(vs[..|vs| - 1], cfg);
    }
  }

  /** An axis queue is empty exactly when no vehicle waits on that axis, and full exactly when every vehicle does. */
  lemma {:induction false} AxisQueueExtremes(vs: seq<Vehicle>, eastWest: bool, cfg: Config)
    ensures AxisQueue(vs, eastWest, cfg) == 0 <==>
              forall j :: 0 <= j < |vs| ==> !(QueuedAtLight(vs[j], cfg) && OnEastWestLanes(vs[j]) == eastWest)
    ensures AxisQueue(vs, eastWest, cfg) == |vs| <==>
              forall j :: 0 <= j < |vs| ==> QueuedAtLight(vs[j], cfg) && OnEastWestLanes(vs[j]) == eastWest
  {
    if vs != [] {
      var n := |vs| - 1;
      AxisQueueExtremes(vs[..n], eastWest, cfg);
      assert forall j :: 0 <= j < n ==> vs[..n][j] == vs[j];
    }
  }

  function WaitingOnes(vs: seq<Vehicle>, cfg: Config): seq<Vehicle> {
    if vs == [] then []
    else
      var v := vs[|vs| - 1];
      WaitingOnes(vs[..|vs| - 1], cfg) + (if QueuedAtLight(v, cfg) then [v] else [])
  }

  /**
   * The adaptive green duration: one and a half times the base green time when the
   * queue of the axis that currently has the right of way exceeds the threshold,
   * the base green time otherwise.
   */
  function AdaptiveGreen(s: LightState, vs: seq<Vehicle>, cfg: Config): (g: real)
    ensures g == cfg.lightGreenTime || g == cfg.lightGreenTime * 1.5
    ensures AxisQueue(vs, IsEastWest(s), cfg) > cfg.adaptiveLightThreshold ==> g == cfg.lightGreenTime * 1.5
    ensures AxisQueue(vs, IsEastWest(s), cfg) <= cfg.adaptiveLightThreshold ==> g == cfg.lightGreenTime
  {
    if AxisQueue(vs, IsEastWest(s), cfg) > cfg.adaptiveLightThreshold then cfg.lightGreenTime * 1.5
    else cfg.lightGreenTime
  }

  /** The green duration used by one update: adaptive or fixed, by mode. */
  function GreenTime(s: LightState, adaptive: bool, vs: seq<Vehicle>, cfg: Config): (g: real)
    ensures !adaptive ==> g == cfg.lightGreenTime
    ensures g == cfg.lightGreenTime || g == cfg.lightGreenTime * 1.5
  {
    if adaptive then AdaptiveGreen(s, vs, cfg) else cfg.lightGreenTime
  }

  /**
   * The phase and its timer after one update of `dt` at time scale `scale`: at most one
   * step along the cycle; yellow phases end at the yellow time, green phases at the
   * green time of the mode (the fixed one outside adaptive mode).
   */
  function PhaseAfter(s: LightState, timer: real, adaptive: bool, vs: seq<Vehicle>, dt: real, scale: real, cfg: Config): (r: (LightState, real))
    ensures r.0 == s || r.0 == Next(s)
    ensures r.0 == Next(s) ==> r.1 == 0.0
    ensures r.0 == s ==> r.1 == timer + dt * scale
    ensures !IsGreen(s) ==> (r.0 == Next(s) <==> timer + dt * scale >= cfg.lightYellowTime)
    ensures IsGreen(s) && !adaptive ==> (r.0 == Next(s) <==> timer + dt * scale >= cfg.lightGreenTime)
    ensures IsGreen(s) && adaptive ==> (r.0 == Next(s) <==> timer + dt * scale >= AdaptiveGreen(s, vs, cfg))
  {
    Advance(s, timer + Scaled(dt, scale), GreenTime(s, adaptive, vs, cfg), cfg.lightYellowTime)
  }

  class TrafficLight {
    var state: LightState
    var timer: real
    var adaptiveMode: bool

    /** A fresh controller: east-west green, timer at zero, fixed timing. */
    constructor ()
      ensures state == EwGreen && timer == 0.0 && !adaptiveMode
    {
      state := EwGreen;
      timer := 0.0;
      adaptiveMode := false;
    }

    /** Counts the waiting vehicles of both axes and picks the green duration for the current phase. */
    method CalculateAdaptiveTime(vehicles: seq<Vehicle>, cfg: Config) returns (g: real)
      ensures g == AdaptiveGreen(state, vehicles, cfg)
    {
      var ewQueue := 0;
      var nsQueue := 0;
      var k := 0;
      while k < |vehicles|
        invariant 0 <= k <= |vehicles|
        invariant ewQueue == AxisQueue(vehicles[..k], true, cfg)
        invariant nsQueue == AxisQueue(vehicles[..k], false, cfg)
      {
        var v := vehicles[k];
        if v.speed < 10.0 {
          if v.direction == 1 || v.direction == -1 {
            if Abs(FrontX(v) - cfg.intersectionX) < 200.0 {
              if v.lane == 0 || v.lane == 1 {
                ewQueue := ewQueue + 1;
              } else {
                nsQueue := nsQueue + 1;
              }
            }
          }
        }
        assert vehicles[..k + 1][..k] == vehicles[..k];
        k := k + 1;
      }
      assert vehicles[..k] == vehicles;
      var baseTime := cfg.lightGreenTime;
      if state == EwGreen || state == EwYellow {
        if ewQueue > cfg.adaptiveLightThreshold {
          return baseTime * 1.5;
        }
      } else if state == NsGreen || state == NsYellow {
        if nsQueue > cfg.adaptiveLightThreshold {
          return baseTime * 1.5;
        }
      }
      return baseTime;
    }

    /**
     * Adds the scaled elapsed time to the phase timer and moves to the next phase once
     * the phase's duration is reached. The mode flag is left alone.
     */
    method Update(dt: real, vehicles: seq<Vehicle>, timeScale: real, cfg: Config)
      modifies this
      ensures adaptiveMode == old(adaptiveMode)
      ensures (state, timer) == PhaseAfter(old(state), old(timer), old(adaptiveMode), vehicles, dt, timeScale, cfg)
    {
      var h := Scaled(dt, timeScale);
      timer := timer + h;
      var greenTime;
      if adaptiveMode {
        greenTime := CalculateAdaptiveTime(vehicles, cfg);
      } else {
        greenTime := cfg.lightGreenTime;
      }
      if state == EwGreen {
        if timer >= greenTime {
          state := EwYellow;
          timer := 0.0;
        }
      } else if state == EwYellow {
        if timer >= cfg.lightYellowTime {
          state := NsGreen;
          timer := 0.0;
        }
      } else if state == NsGreen {
        if timer >= greenTime {
          state := NsYellow;
          timer := 0.0;
        }
      } else if state == NsYellow {
        if timer >= cfg.lightYellowTime {
          state := EwGreen;
          timer := 0.0;
        }
      }
    }

    /** Flips between fixed and adaptive timing; the phase and its timer are kept. */
    method ToggleAdaptive()
      modifies this`adaptiveMode
      ensures adaptiveMode == !old(adaptiveMode)
    {
      adaptiveMode := !adaptiveMode;
    }
  }
}
