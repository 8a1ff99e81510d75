/**
 * Pedestrians at the crosswalk: wait, cross when the north-south phase is on, and
 * finish once the far kerb is reached. The states only ever advance
 * waiting -> crossing -> done.
 */
module Pedestrians {
  import opened Settings
  import opened Signals

  /** The side of the road a pedestrian starts from. */
  datatype Side = Top | Bottom

  datatype PedState = Waiting | Crossing | Done

  /** Position of a state along waiting -> crossing -> done. */
  function Rank(s: PedState): nat {
    match s
    case Waiting => 0
    case Crossing => 1
    case Done => 2
  }

  /** The part of a pedestrian that an update changes. */
  datatype Progress = Progress(state: PedState, waitTimer: real, y: real)

  /** Start and target y: 30 units outside the road on the starting side and on the opposite side. */
  function StartY(side: Side, cfg: Config): real {
    if side == Top then cfg.roadYStart as real - 30.0 else (cfg.roadYStart + cfg.roadWidth) as real + 30.0
  }

  function TargetY(side: Side, cfg: Config): real {
    if side == Top then (cfg.roadYStart + cfg.roadWidth) as real + 30.0 else cfg.roadYStart as real - 30.0
  }

  /** The x of a pedestrian depends only on its direction: 50 units before or after the intersection. */
  function StartX(direction: int, cfg: Config): real {
    if direction == 1 then cfg.intersectionX - 50.0 else cfg.intersectionX + cfg.intersectionWidth + 50.0
  }

  /** The top side starts above the road and heads below it; the bottom side the reverse. */
  lemma SidesAreMirrored(cfg: Config)
    requires cfg.roadWidth >= 0
    ensures StartY(Top, cfg) < TargetY(Top, cfg) && StartY(Bottom, cfg) > TargetY(Bottom, cfg)
    ensures StartY(Top, cfg) == TargetY(Bottom, cfg) && StartY(Bottom, cfg) == TargetY(Top, cfg)
  {
  }

  /**
   * One update with elapsed time `h` (already scaled): a waiting pedestrian counts up
   * its timer and starts crossing once the timer exceeds the wait threshold during a
   * north-south phase; a crossing pedestrian moves towards the target and is done once
   * it reaches or passes it; a finished pedestrian stays as it is.
   */
  function Step(side: Side, targetY: real, p: Progress, phase: LightState, h: real, cfg: Config): (r: Progress)
    // the state never goes back and never skips a state
    ensures Rank(r.state) == Rank(p.state) || Rank(r.state) == Rank(p.state) + 1
    ensures p.state == Done ==> r == p
    // waiting: only the timer moves; crossing starts exactly when waited long enough under a north-south phase
    ensures p.state == Waiting ==> r.y == p.y && r.waitTimer == p.waitTimer + h
    ensures p.state == Waiting ==>
              (r.state == Crossing <==> p.waitTimer + h > cfg.crosswalkWaitTime && !IsEastWest(phase))
    // crossing: moves by speed*h towards the target, done exactly when the target is reached or passed
    ensures p.state == Crossing ==> r.waitTimer == p.waitTimer
    ensures p.state == Crossing && side == Top ==>
              r.y == p.y + cfg.pedestrianSpeed * h && (r.state == Done <==> r.y >= targetY)
    ensures p.state == Crossing && side == Bottom ==>
              r.y == p.y - cfg.pedestrianSpeed * h && (r.state == Done <==> r.y <= targetY)
  {
    match p.state
    case Waiting =>
      var timer := p.waitTimer + h;
      if timer > cfg.crosswalkWaitTime && (phase == NsGreen || phase == NsYellow)
      then Progress(Crossing, timer, p.y)
      else Progress(Waiting, timer, p.y)
    case Crossing =>
      if side == Top then
        var y := p.y + cfg.pedestrianSpeed * h;
        Progress(if y >= targetY then Done else Crossing, p.waitTimer, y)
      else
        var y := p.y - cfg.pedestrianSpeed * h;
        Progress(if y <= targetY then Done else Crossing, p.waitTimer, y)
    case Done => p
  }

  /** One frame as an update sees it: the light's phase and the elapsed time, already scaled by the time scale. */
  datatype Frame = Frame(phase: LightState, h: real)

  /** The simulated time a run of frames covers. */
  function Elapsed(frames: seq<Frame>): real
    decreases |frames|
  {
    if frames == [] then 0.0 else frames[0].h + Elapsed(frames[1..])
  }

  /** The states reached from a pedestrian by any run of updates, each with its own phase and step: the rank never decreases. */
  function Run(side: Side, targetY: real, p: Progress, frames: seq<Frame>, cfg: Config): (r: Progress)
    ensures Rank(r.state) >= Rank(p.state)
    ensures Rank(r.state) <= Rank(p.state) + |frames|
    decreases |frames|
  {
    if frames == [] then p
    else Run(side, targetY, Step(side, targetY, p, frames[0].phase, frames[0].h, cfg), frames[1..], cfg)
  }

  /** A run extended by one frame is that frame's update applied to the run so far. */
  lemma {:induction false} RunSnoc(side: Side, targetY: real, p: Progress, frames: seq<Frame>, f: Frame, cfg: Config)
    ensures Run(side, targetY, p, frames + [f], cfg) == Step(side, targetY, Run(side, targetY, p, frames, cfg), f.phase, f.h, cfg)
    decreases |frames|
  {
    if frames != [] {
      assert (frames + [f])[1..] == frames[1..] + [f];
      RunSnoc(side, targetY, Step(side, targetY, p, frames[0].phase, frames[0].h, cfg), frames[1..], f, cfg);
    }
  }

  /** Along any run, each single update keeps the state or advances it by exactly one. */
  lemma RunRankPerUpdate(side: Side, targetY: real, p: Progress, frames: seq<Frame>, cfg: Config)
    ensures forall k :: 0 <= k < |frames| ==>
              var before := Rank(Run(side, targetY, p, frames[..k], cfg).state);
              var after := Rank(Run(side, targetY, p, frames[..k + 1], cfg).state);
              after == before || after == before + 1
  {
    forall k | 0 <= k < |frames|
      ensures var before := Rank(Run(side, targetY, p, frames[..k], cfg).state);
              var after := Rank(Run(side, targetY, p, frames[..k + 1], cfg).state);
              after == before || after == before + 1
    {
      assert frames[..k + 1] == frames[..k] + [frames[k]];
      RunSnoc(side, targetY, p, frames[..k], frames[k], cfg);
    }
  }

  /** Once done, no number of further updates changes anything. */
  lemma {:induction false} DoneIsFinal(side: Side, targetY: real, p: Progress, frames: seq<Frame>, cfg: Config)
    requires p.state == Done
    ensures Run(side, targetY, p, frames, cfg) == p
    decreases |frames|
  {
    if frames != [] {
      DoneIsFinal(side, targetY, p, frames[1..], cfg);
    }
  }

  /**
   * A top-side pedestrian crossing with positive steps only moves down the screen; while
   * still crossing it has moved by its speed times the elapsed time and not yet reached the target.
   */
  lemma {:induction false} TopCrossingMonotone(targetY: real, p: Progress, frames: seq<Frame>, cfg: Config)
    requires p.state == Crossing && p.y < targetY && cfg.pedestrianSpeed > 0.0
    requires forall k :: 0 <= k < |frames| ==> frames[k].h > 0.0
    ensures var r := Run(Top, targetY, p, frames, cfg);
            r.y >= p.y && (r.state == Crossing ==> r.y < targetY && r.y == p.y + cfg.pedestrianSpeed * Elapsed(frames))
    decreases |frames|
  {
    if frames != [] {
      var f := frames[0];
      var q := Step(Top, targetY, p, f.phase, f.h, cfg);
      assert cfg.pedestrianSpeed * f.h > 0.0;
      assert cfg.pedestrianSpeed * Elapsed(frames) == cfg.pedestrianSpeed * f.h + cfg.pedestrianSpeed * Elapsed(frames[1..]);
      if q.state == Done {
        DoneIsFinal(Top, targetY, q, frames[1..], cfg);
      } else {
        assert forall k :: 0 <= k < |frames[1..]| ==> frames[1..][k].h > 0.0 by {
          forall k | 0 <= k < |frames[1..]| ensures frames[1..][k].h > 0.0 {
            assert frames[1..][k] == frames[k + 1];
          }
        }
        TopCrossingMonotone(targetY, q, frames[1..], cfg);
      }
    }
  }

  /** A pedestrian as a value: where it walks, which never changes, and how far it has got. */
  datatype Walker = Walker(side: Side, direction: int, x: real, targetY: real, progress: Progress)

  /** The pedestrian a spawn creates: waiting at the kerb of its side, its timer at zero. */
  function NewWalker(side: Side, direction: int, cfg: Config): Walker {
    Walker(side, direction, StartX(direction, cfg), TargetY(side, cfg), Progress(Waiting, 0.0, StartY(side, cfg)))
  }

  /** One update of a pedestrian value: only the progress moves, by `Step`. */
  function Walk(w: Walker, phase: LightState, h: real, cfg: Config): Walker {
    w.(progress := Step(w.side, w.targetY, w.progress, phase, h, cfg))
  }

  class Pedestrian {
    const side: Side
    const direction: int
    const x: real
    const targetY: real
    var state: PedState
    var waitTimer: real
    var y: real

    /** A new pedestrian waits at the kerb of its side, with its timer at zero. */
    constructor (side: Side, direction: int, cfg: Config)
      ensures this.side == side && this.direction == direction
      ensures state == Waiting && waitTimer == 0.0
      ensures y == StartY(side, cfg) && targetY == TargetY(side, cfg) && x == StartX(direction, cfg)
      ensures Value() == NewWalker(side, direction, cfg)
    {
      this.side := side;
      this.direction := direction;
      state := Waiting;
      waitTimer := 0.0;
      if side == Top {
        y := cfg.roadYStart as real - 30.0;
        targetY := (cfg.roadYStart + cfg.roadWidth) as real + 30.0;
      } else {
        y := (cfg.roadYStart + cfg.roadWidth) as real + 30.0;
        targetY := cfg.roadYStart as real - 30.0;
      }
      if direction == 1 {
        x := cfg.intersectionX - 50.0;
      } else {
        x := cfg.intersectionX + cfg.intersectionWidth + 50.0;
      }
    }

    function Current(): Progress
      reads this
    {
      Progress(state, waitTimer, y)
    }

    /** The pedestrian's value: its constants and its current progress. */
    function Value(): Walker
      reads this
    {
      Walker(side, direction, x, targetY, Current())
    }

    /** Advances the state machine by one update; side, direction, x and target are constants. */
    method Update(dt: real, phase: LightState, timeScale: real, cfg: Config)
      modifies this
      ensures Value() == Walk(old(Value()), phase, Scaled(dt, timeScale), cfg)
    {
      var h := Scaled(dt, timeScale);
      if state == Waiting {
        waitTimer := waitTimer + h;
        if waitTimer > cfg.crosswalkWaitTime {
          if phase == NsGreen || phase == NsYellow {
            state := Crossing;
          }
        }
      } else if state == Crossing {
        if side == Top {
          y := y + cfg.pedestrianSpeed * h;
          if y >= targetY {
            state := Done;
          }
        } else {
          y := y - cfg.pedestrianSpeed * h;
          if y <= targetY {
            state := Done;
          }
        }
      }
    }

    predicate IsDone()
      reads this
      ensures IsDone() <==> Value().progress.state == Done && Rank(state) == 2
    {
      state == Done
    }
  }
}
