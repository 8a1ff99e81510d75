/**
 * Vehicle agents: kinematic state, the nearest-leader scan, the target-speed policy,
 * the asymmetric speed response, lane-change eligibility and execution, and the
 * ambulance variant that forces vehicles ahead of it to try a lane change.
 *
 * A vehicle is a record; the simulation keeps them in a sequence and replaces the
 * record at an index when the program would update that object's fields. The object
 * identity test of the program (`v == self`) is index equality here.
 */
module Vehicles {
  import opened Settings
  import opened Signals

  datatype VehicleKind = Car | Truck | Sports | Ambulance

  datatype Vehicle = Vehicle(
    x: real,
    y: int,
    lane: int,
    direction: int,           // 1 moves right (towards larger x), -1 moves left
    length: real,
    width: int,
    maxSpeed: real,
    acceleration: real,
    kind: VehicleKind,
    speed: real,
    targetSpeed: real,
    laneChangeCooldown: real,
    passedIntersection: bool,
    stoppedAtLight: bool)

  /** The parameter table of a vehicle class. */
  function Params(kind: VehicleKind, cfg: Config): ClassParams {
    match kind
    case Car => cfg.normal
    case Truck => cfg.truck
    case Sports => cfg.sports
    case Ambulance => cfg.ambulance
  }

  /**
   * A new vehicle of class `kind`: dimensions and dynamics from the class table,
   * starting at 80% of its top speed, with no cooldown and no flags set.
   */
  function Create(x: real, y: int, lane: int, direction: int, kind: VehicleKind, cfg: Config): (v: Vehicle)
    ensures v.x == x && v.y == y && v.lane == lane && v.direction == direction && v.kind == kind
    ensures Params(kind, cfg) == ClassParams(v.length, v.width, v.maxSpeed, v.acceleration)
    ensures v.speed == v.maxSpeed * 0.8 && v.targetSpeed == v.maxSpeed
    ensures Params(kind, cfg).Valid() ==> 0.0 <= v.speed <= v.maxSpeed
    ensures v.laneChangeCooldown == 0.0 && !v.passedIntersection && !v.stoppedAtLight
  {
    var p := Params(kind, cfg);
    Vehicle(x, y, lane, direction, p.length, p.width, p.maxSpeed, p.acceleration, kind,
            p.maxSpeed * 0.8, p.maxSpeed, 0.0, false, false)
  }

  /** Lanes 0 and 1 carry rightbound traffic, lanes 2 and 3 leftbound traffic. */
  predicate InGroup(v: Vehicle) {
    || (v.direction == 1 && (v.lane == 0 || v.lane == 1))
    || (v.direction == -1 && (v.lane == 2 || v.lane == 3))
  }

  /** What every vehicle of the simulation satisfies: its lane group, a non-negative speed and acceleration. */
  predicate Sane(v: Vehicle) {
    InGroup(v) && v.speed >= 0.0 && v.acceleration >= 0.0
  }

  /** Every vehicle of a list is `Sane`. */
  predicate AllSane(vs: seq<Vehicle>) {
    forall j :: 0 <= j < |vs| ==> Sane(vs[j])
  }

  /** The left and right ends of the rectangle the vehicle occupies on the road. */
  function Left(v: Vehicle): real {
    if v.direction == 1 then v.x else v.x - v.length
  }

  function Right(v: Vehicle): real {
    if v.direction == 1 then v.x + v.length else v.x
  }

  /** The x the program calls the front of the vehicle. */
  function FrontX(v: Vehicle): (f: real)
    ensures f == Left(v)
  {
    if v.direction == 1 then v.x else v.x - v.length
  }

  /**
   * Front-to-rear gap to `other`: from this vehicle's leading edge to the trailing
   * edge of `other`, both taken from the occupied rectangles.
   */
  function DistanceToVehicle(v: Vehicle, other: Vehicle): (d: real)
    requires other.direction == v.direction
    ensures v.direction == 1 ==> d == Left(other) - Right(v)
    ensures v.direction != 1 ==> d == Left(v) - Right(other)
  {
    if v.direction == 1 then other.x - (v.x + v.length)
    else (v.x - v.length) - other.x
  }

  /** Distance from the leading edge to the stop line on the vehicle's own approach. */
  function DistanceToLight(v: Vehicle, cfg: Config): (d: real)
    ensures v.direction == 1 ==> d == cfg.intersectionX - Right(v)
    ensures v.direction != 1 ==> d == Left(v) - (cfg.intersectionX + cfg.intersectionWidth)
  {
    if v.direction == 1 then cfg.intersectionX - (v.x + v.length)
    else (v.x - v.length) - (cfg.intersectionX + cfg.intersectionWidth)
  }

  /** For a rightbound vehicle the program's "front" is its trailing edge; only leftbound it is the leading one. */
  lemma FrontIsLeadingOnlyLeftbound(v: Vehicle, cfg: Config)
    requires v.length > 0.0
    ensures v.direction == 1 ==> FrontX(v) == Right(v) - v.length && FrontX(v) < Right(v)
    ensures v.direction != 1 ==> FrontX(v) == cfg.intersectionX + cfg.intersectionWidth + DistanceToLight(v, cfg)
  {
  }

  // ---------------------------------------------------------------------------
  // Nearest leader

  /** `vs[j]` is a candidate leader of `vs[i]`: another vehicle, same lane and direction, strictly ahead. */
  predicate IsAhead(vs: seq<Vehicle>, i: nat, j: nat)
    requires i < |vs| && j < |vs|
  {
    && j != i
    && vs[j].lane == vs[i].lane
    && vs[j].direction == vs[i].direction
    && DistanceToVehicle(vs[i], vs[j]) > 0.0
  }

  function Gap(vs: seq<Vehicle>, i: nat, j: nat): real
    requires i < |vs| && j < |vs| && vs[j].direction == vs[i].direction
  {
    DistanceToVehicle(vs[i], vs[j])
  }

  /** The scan of the first `n` vehicles: a later candidate replaces the best only when strictly closer. */
  function NearestAmong(vs: seq<Vehicle>, i: nat, n: nat): (r: Option<nat>)
    requires i < |vs| && n <= |vs|
    ensures r.Some? ==> r.value < n && IsAhead(vs, i, r.value)
    decreases n
  {
    if n == 0 then None
    else
      var best := NearestAmong(vs, i, n - 1);
      if IsAhead(vs, i, n - 1) && (best.None? || Gap(vs, i, n - 1) < Gap(vs, i, best.value))
      then Some(n - 1)
      else best
  }

  /** The index of the nearest vehicle ahead of `vs[i]`, if any. */
  function NearestAhead(vs: seq<Vehicle>, i: nat): (r: Option<nat>)
    requires i < |vs|
    ensures r.Some? ==> r.value < |vs| && IsAhead(vs, i, r.value)
  {
    NearestAmong(vs, i, |vs|)
  }

  /**
   * The scan finds nothing exactly when there is no candidate; otherwise it finds a
   * candidate with the smallest gap, and the earliest one among equally close candidates.
   */
  lemma {:induction false} NearestAmongIsNearest(vs: seq<Vehicle>, i: nat, n: nat)
    requires i < |vs| && n <= |vs|
    ensures NearestAmong(vs, i, n).None? <==> forall j :: 0 <= j < n ==> !IsAhead(vs, i, j)
    ensures NearestAmong(vs, i, n).Some? ==>
      var r := NearestAmong(vs, i, n).value;
      && (forall j :: 0 <= j < n && IsAhead(vs, i, j) ==> Gap(vs, i, r) <= Gap(vs, i, j))
      && (forall j :: 0 <= j < r && IsAhead(vs, i, j) ==> Gap(vs, i, r) < Gap(vs, i, j))
    decreases n
  {
    if n > 0 {
      NearestAmongIsNearest(vs, i, n - 1);
    }
  }

  /** Scans the vehicles once, keeping the closest candidate seen so far; nothing is changed. */
  method FindVehicleAhead(vs: seq<Vehicle>, i: nat) returns (nearest: Option<nat>)
    requires i < |vs|
    ensures nearest == NearestAhead(vs, i)
    ensures nearest.None? <==> forall j :: 0 <= j < |vs| ==> !IsAhead(vs, i, j)
    ensures nearest.Some? ==>
      && nearest.value < |vs| && IsAhead(vs, i, nearest.value)
      && (forall j :: 0 <= j < |vs| && IsAhead(vs, i, j) ==> Gap(vs, i, nearest.value) <= Gap(vs, i, j))
      && (forall j :: 0 <= j < nearest.value && IsAhead(vs, i, j) ==> Gap(vs, i, nearest.value) < Gap(vs, i, j))
  {
    nearest := None;
    var minDistance := 0.0;  // meaningful only once `nearest` holds a vehicle (the program starts at infinity)
    var k := 0;
    while k < |vs|
      invariant 0 <= k <= |vs|
      invariant nearest == NearestAmong(vs, i, k)
      invariant nearest.Some? ==> nearest.value < |vs| && vs[nearest.value].direction == vs[i].direction
      invariant nearest.Some? ==> minDistance == Gap(vs, i, nearest.value)
    {
      var v := vs[k];
      if k != i && v.lane == vs[i].lane && v.direction == vs[i].direction {
        var distance := DistanceToVehicle(vs[i], v);
        if distance > 0.0 && (nearest.None? || distance < minDistance) {
          minDistance := distance;
          nearest := Some(k);
        }
      }
      k := k + 1;
    }
    NearestAmongIsNearest(vs, i, |vs|);
  }

  // ---------------------------------------------------------------------------
  // Target speed and kinematics

  /** The cooldown counts down by the elapsed time while positive; it is not clamped at zero. */
  function CooledDown(v: Vehicle, h: real): (r: Vehicle)
    ensures v.laneChangeCooldown > 0.0 ==> r.laneChangeCooldown == v.laneChangeCooldown - h
    ensures v.laneChangeCooldown <= 0.0 ==> r == v
    ensures r == v.(laneChangeCooldown := r.laneChangeCooldown)
  {
    if v.laneChangeCooldown > 0.0 then v.(laneChangeCooldown := v.laneChangeCooldown - h) else v
  }

  /**
   * The target speed of an ordinary vehicle. `braking` says the stop line is within
   * 150 units and the light is red or yellow; `ld` is the distance to the stop line.
   * Light braking below 100 units comes first, then car following, then free flow.
   */
  function TargetSpeed(v: Vehicle, ld: real, braking: bool, leader: Option<Vehicle>, cfg: Config): (t: real)
    requires leader.Some? ==> leader.value.direction == v.direction
    // hard stop in the last 60 units before the line, a taper between 60 and 100
    ensures braking && ld < 60.0 ==> t == 0.0
    ensures braking && 60.0 <= ld < 100.0 ==> t == v.maxSpeed * ((ld - 10.0) / 100.0)
    // otherwise car following: 90% of the leader's speed inside the safe distance, the leader's
    // speed inside twice the safe distance, the top speed beyond it or without a leader
    ensures !(braking && ld < 100.0) && leader.Some? ==>
      var gap := DistanceToVehicle(v, leader.value);
      && (gap < cfg.safeDistance ==> t == leader.value.speed * 0.9)
      && (cfg.safeDistance <= gap < cfg.safeDistance * 2.0 ==> t == leader.value.speed)
      && (gap >= cfg.safeDistance * 2.0 && gap >= cfg.safeDistance ==> t == v.maxSpeed)
    ensures !(braking && ld < 100.0) && leader.None? ==> t == v.maxSpeed
    // so a close leader is never overtaken in intent, and one inside the safe distance is undercut
    ensures !(braking && ld < 100.0) && leader.Some? && leader.value.speed > 0.0 ==>
      var gap := DistanceToVehicle(v, leader.value);
      && (gap < cfg.safeDistance * 2.0 ==> t <= leader.value.speed)
      && (gap < cfg.safeDistance ==> t < leader.value.speed)
    // never negative; above the top speed only when following a faster leader
    ensures v.maxSpeed >= 0.0 && (leader.Some? ==> leader.value.speed >= 0.0) ==> t >= 0.0
    ensures v.maxSpeed >= 0.0 ==> t <= v.maxSpeed || (leader.Some? && t <= leader.value.speed)
  {
    if braking && ld < 100.0 then
      var stopDistance := Max(ld - 10.0, 0.0);
      if stopDistance < 50.0 then 0.0 else v.maxSpeed * (stopDistance / 100.0)
    else if leader.Some? then
      var gap := DistanceToVehicle(v, leader.value);
      if gap < cfg.safeDistance then leader.value.speed * 0.9
      else if gap < cfg.safeDistance * 2.0 then leader.value.speed
      else v.maxSpeed
    else v.maxSpeed
  }

  /** Light braking takes precedence: within 100 units of a red or yellow light the leader is not consulted. */
  lemma LightBeforeLeader(v: Vehicle, ld: real, leader: Vehicle, cfg: Config)
    requires leader.direction == v.direction
    requires ld < 100.0
    ensures TargetSpeed(v, ld, true, Some(leader), cfg) == TargetSpeed(v, ld, true, None, cfg)
  {
  }

  /** A leader at twice the safe distance or more is treated like no leader at all. */
  lemma FarLeaderIgnored(v: Vehicle, ld: real, braking: bool, leader: Vehicle, cfg: Config)
    requires leader.direction == v.direction
    requires DistanceToVehicle(v, leader) >= cfg.safeDistance * 2.0 && cfg.safeDistance > 0.0
    ensures TargetSpeed(v, ld, braking, Some(leader), cfg) == TargetSpeed(v, ld, braking, None, cfg)
  {
  }

  /**
   * First-order response towards the target: up by at most `accel*h`, down by at most
   * `1.5*accel*h`, never past the target and never below zero when braking.
   */
  function SpeedStep(speed: real, target: real, accel: real, h: real): (r: real)
    ensures speed == target ==> r == speed
    ensures speed < target && accel * h >= 0.0 ==> speed <= r <= target
    ensures speed > target ==> Max(target, 0.0) <= r
    ensures speed > target && speed >= 0.0 && accel * h >= 0.0 ==> r <= speed
    ensures speed >= 0.0 && accel * h >= 0.0 ==> r >= 0.0
    ensures speed >= 0.0 && accel * h >= 0.0 ==> r - speed <= accel * h && speed - r <= accel * 1.5 * h
    // a full step is taken unless it would pass the target (or zero, when braking); then the step stops there
    ensures speed < target ==> r == (if speed + accel * h < target then speed + accel * h else target)
    ensures speed > target ==>
              r == (if speed - accel * 1.5 * h > Max(target, 0.0) then speed - accel * 1.5 * h else Max(target, 0.0))
  {
    if speed < target then Min(speed + accel * h, target)
    else if speed > target then
      var decel := accel * 1.5;
      Max(Max(speed - decel * h, target), 0.0)
    else speed
  }

  /** The far edge of the intersection for the vehicle's direction has been passed by `x`. */
  predicate PastFarEdge(direction: int, x: real, cfg: Config) {
    || (direction == 1 && x > cfg.intersectionX + cfg.intersectionWidth)
    || (direction == -1 && x < cfg.intersectionX)
  }

  /**
   * Takes the new speed, moves by `speed*h*direction` and sets the pass flag once the
   * far edge is crossed; the flag is never cleared.
   */
  function Moved(v: Vehicle, speed: real, h: real, cfg: Config): (r: Vehicle)
    ensures r.x == v.x + speed * h * (v.direction as real)
    ensures r.passedIntersection <==> v.passedIntersection || PastFarEdge(v.direction, r.x, cfg)
    ensures r == v.(speed := speed, x := r.x, passedIntersection := r.passedIntersection)
  {
    var x := v.x + speed * h * (v.direction as real);
    var passed :=
      if v.direction == 1 && x > cfg.intersectionX + cfg.intersectionWidth then true
      else if v.direction == -1 && x < cfg.intersectionX then true
      else v.passedIntersection;
    v.(speed := speed, x := x, passedIntersection := passed)
  }

  /** Identity, dimensions, class and lane: what one update of a vehicle's own motion leaves alone. */
  predicate SameBody(a: Vehicle, b: Vehicle) {
    && a.y == b.y && a.lane == b.lane && a.direction == b.direction
    && a.length == b.length && a.width == b.width && a.maxSpeed == b.maxSpeed
    && a.acceleration == b.acceleration && a.kind == b.kind
  }

  /** The leader record for a found index, if any. */
  function LeaderOf(vs: seq<Vehicle>, ahead: Option<nat>): (r: Option<Vehicle>)
    requires ahead.Some? ==> ahead.value < |vs|
  {
    if ahead.Some? then Some(vs[ahead.value]) else None
  }

  /** The motion part shared by both kinds of update: record the target, respond to it, move, mark the pass. */
  function Drive(v: Vehicle, target: real, h: real, cfg: Config): (r: Vehicle)
    ensures SameBody(r, v)
    ensures r.laneChangeCooldown == v.laneChangeCooldown && r.stoppedAtLight == v.stoppedAtLight
    ensures r.targetSpeed == target
    ensures r.speed == SpeedStep(v.speed, target, v.acceleration, h)
    ensures r.x == v.x + r.speed * h * (v.direction as real)
    ensures r.passedIntersection <==> v.passedIntersection || PastFarEdge(v.direction, r.x, cfg)
    ensures Sane(v) && h >= 0.0 ==> Sane(r)
  {
    assert Sane(v) && h >= 0.0 ==> v.acceleration * h >= 0.0;
    Moved(v.(targetSpeed := target), SpeedStep(v.speed, target, v.acceleration, h), h, cfg)
  }

  /** The stop line is less than 150 units ahead and the light shows red or yellow to the vehicle. */
  predicate ShouldStop(v: Vehicle, phase: LightState, cfg: Config) {
    var ld := DistanceToLight(v, cfg);
    var color := GetLightState(phase, v.direction);
    0.0 < ld < 150.0 && (color == Red || color == Yellow)
  }

  /**
   * The decision part of an ordinary vehicle's update, after its cooldown has been
   * counted down: leader scan, light check, stop flag and target speed. `vs[i]` is
   * the vehicle with its new cooldown.
   */
  function Decide(vs: seq<Vehicle>, i: nat, phase: LightState, cfg: Config): (r: Vehicle)
    requires i < |vs|
    ensures r == vs[i].(targetSpeed := r.targetSpeed, stoppedAtLight := r.stoppedAtLight)
    // the target follows the precedence of `TargetSpeed`, with the nearest leader of the scan
    ensures r.targetSpeed == TargetSpeed(vs[i], DistanceToLight(vs[i], cfg), ShouldStop(vs[i], phase, cfg),
                                         LeaderOf(vs, NearestAhead(vs, i)), cfg)
    // the stop flag is raised in the braking zone, and only there
    ensures ShouldStop(vs[i], phase, cfg) && DistanceToLight(vs[i], cfg) < 100.0 ==> r.stoppedAtLight
    ensures r.stoppedAtLight ==> vs[i].stoppedAtLight || ShouldStop(vs[i], phase, cfg)
    ensures NearestAhead(vs, i).Some? ==> (r.stoppedAtLight <==> vs[i].stoppedAtLight || ShouldStop(vs[i], phase, cfg))
    // with no leader and outside the hard braking zone it is cleared beyond 50 units, even when just raised
    ensures NearestAhead(vs, i).None? && !(ShouldStop(vs[i], phase, cfg) && DistanceToLight(vs[i], cfg) < 100.0) ==>
              (r.stoppedAtLight <==> (vs[i].stoppedAtLight || ShouldStop(vs[i], phase, cfg)) && DistanceToLight(vs[i], cfg) <= 50.0)
  {
    var v := vs[i];
    var ahead := NearestAhead(vs, i);
    var ld := DistanceToLight(v, cfg);
    var braking := ShouldStop(v, phase, cfg);
    var stopped := braking || v.stoppedAtLight;
    var target := TargetSpeed(v, ld, braking, LeaderOf(vs, ahead), cfg);
    // without a leader and outside the braking zone the flag clears once more than 50 units out
    var stopped' := if !(braking && ld < 100.0) && ahead.None? && stopped && ld > 50.0 then false else stopped;
    v.(targetSpeed := target, stoppedAtLight := stopped')
  }

  /**
   * One update of an ordinary (non-ambulance) vehicle `vs[i]`: cooldown, leader scan,
   * light check, target speed, speed response, move and pass marking.
   */
  function StepVehicle(vs: seq<Vehicle>, i: nat, phase: LightState, h: real, cfg: Config): (r: Vehicle)
    requires i < |vs|
    ensures SameBody(r, vs[i])
    ensures r.laneChangeCooldown == CooledDown(vs[i], h).laneChangeCooldown
    ensures r.x == vs[i].x + r.speed * h * (vs[i].direction as real)
    ensures r.passedIntersection <==> vs[i].passedIntersection || PastFarEdge(r.direction, r.x, cfg)
    ensures r.speed == SpeedStep(vs[i].speed, r.targetSpeed, vs[i].acceleration, h)
    ensures Sane(vs[i]) && h >= 0.0 ==> Sane(r)
    // the target is chosen by `TargetSpeed` from the light and the nearest leader, the cooldown already counted down
    ensures var v1 := CooledDown(vs[i], h);
            var vc := vs[i := v1];
            && r.targetSpeed == TargetSpeed(v1, DistanceToLight(v1, cfg), ShouldStop(v1, phase, cfg),
                                            LeaderOf(vc, NearestAhead(vc, i)), cfg)
            // the stop flag is the one `Decide` sets on the cooled-down list
            && r.stoppedAtLight == Decide(vc, i, phase, cfg).stoppedAtLight
  {
    var v1 := CooledDown(vs[i], h);
    var vc := vs[i := v1];
    var d := Decide(vc, i, phase, cfg);
    // `Decide` changes only the target and the stop flag
    Drive(v1.(targetSpeed := d.targetSpeed, stoppedAtLight := d.stoppedAtLight), d.targetSpeed, h, cfg)
  }

  // ---------------------------------------------------------------------------
  // Lane changes

  /** The lane tried by a lane change: the other lane of the vehicle's own pair, if it is in one. */
  function LaneToTry(direction: int, lane: int): (r: Option<int>)
    ensures r.Some? <==> (direction == 1 && (lane == 0 || lane == 1)) || (direction != 1 && (lane == 2 || lane == 3))
    ensures r.Some? ==> r.value != lane && (r.value == 0 || r.value == 1 <==> lane == 0 || lane == 1)
    ensures r.Some? ==> r.value / 2 == lane / 2
  {
    if direction == 1 then
      if lane == 0 then Some(1) else if lane == 1 then Some(0) else None
    else
      if lane == 2 then Some(3) else if lane == 3 then Some(2) else None
  }

  /** Centre line y of a lane for a vehicle of the given width (floor division by two). */
  function LaneY(lane: int, width: int, cfg: Config): int {
    cfg.roadYStart + lane * cfg.laneWidth + (cfg.laneWidth - width) / 2
  }

  /** Gaps ahead of and behind `me` to `other`, as if `other` were in my lane. */
  function LaneGaps(me: Vehicle, other: Vehicle): (real, real) {
    if me.direction == 1 then
      (other.x - (me.x + me.length), me.x - (other.x + other.length))
    else
      ((me.x - me.length) - other.x, other.x - other.length - me.x)
  }

  /** `other` overlaps `me` lengthwise and is closer than the minimum lane-change gap at one end. */
  predicate Blocks(me: Vehicle, other: Vehicle, cfg: Config) {
    var (front, rear) := LaneGaps(me, other);
    && front > -me.length && rear > -me.length
    && (Abs(front) < cfg.laneChangeMinGap || Abs(rear) < cfg.laneChangeMinGap)
  }

  /** Lane-change eligibility: cooldown over, lane index in range, and no blocking same-direction vehicle in the lane. */
  predicate LaneChangeAllowed(vs: seq<Vehicle>, i: nat, target: int, cfg: Config)
    requires i < |vs|
  {
    && vs[i].laneChangeCooldown <= 0.0
    && 0 <= target < cfg.numLanes
    && forall j :: 0 <= j < |vs| && j != i && vs[j].lane == target && vs[j].direction == vs[i].direction
         ==> !Blocks(vs[i], vs[j], cfg)
  }

  /** Checks eligibility with an early exit at the first blocking vehicle; nothing is changed. */
  method CanChangeLane(vs: seq<Vehicle>, i: nat, targetLane: int, cfg: Config) returns (ok: bool)
    requires i < |vs|
    ensures ok == LaneChangeAllowed(vs, i, targetLane, cfg)
    ensures vs[i].laneChangeCooldown > 0.0 ==> !ok
    ensures !(0 <= targetLane < cfg.numLanes) ==> !ok
  {
    var me := vs[i];
    if me.laneChangeCooldown > 0.0 {
      return false;
    }
    if targetLane < 0 || targetLane >= cfg.numLanes {
      return false;
    }
    var k := 0;
    while k < |vs|
      invariant 0 <= k <= |vs|
      invariant forall j :: 0 <= j < k && j != i && vs[j].lane == targetLane && vs[j].direction == me.direction
                  ==> !Blocks(me, vs[j], cfg)
    {
      var v := vs[k];
      if k != i && v.lane == targetLane && v.direction == me.direction {
        var gapFront, gapRear;
        if me.direction == 1 {
          gapFront := v.x - (me.x + me.length);
          gapRear := me.x - (v.x + v.length);
        } else {
          gapFront := (me.x - me.length) - v.x;
          gapRear := v.x - v.length - me.x;
        }
        if gapFront > -me.length && gapRear > -me.length {
          if Abs(gapFront) < cfg.laneChangeMinGap || Abs(gapRear) < cfg.laneChangeMinGap {
            return false;
          }
        }
      }
      k := k + 1;
    }
    return true;
  }

  /** `w` is `u` unchanged, or `u` moved to its paired lane, re-centred, with a fresh cooldown. */
  predicate Relaned(u: Vehicle, w: Vehicle, cfg: Config) {
    || w == u
    || (&& LaneToTry(u.direction, u.lane) == Some(w.lane)
        && w == u.(lane := w.lane, y := LaneY(w.lane, u.width, cfg), laneChangeCooldown := cfg.laneChangeCooldown))
  }

  /** A lane move keeps everything `Sane` asks for, the lane group included. */
  lemma RelanedKeepsSane(u: Vehicle, w: Vehicle, cfg: Config)
    requires Relaned(u, w, cfg) && Sane(u)
    ensures Sane(w) && w.kind == u.kind && w.direction == u.direction
  {
  }

  /**
   * One lane-change attempt of `vs[i]`: only with a leader no farther than twice the
   * safe distance, and only into the paired lane when that lane is eligible.
   */
  function LaneChangeStep(vs: seq<Vehicle>, i: nat, cfg: Config): (r: Vehicle)
    requires i < |vs|
    ensures Relaned(vs[i], r, cfg)
    ensures r != vs[i] ==>
      && NearestAhead(vs, i).Some?
      && Gap(vs, i, NearestAhead(vs, i).value) <= cfg.safeDistance * 2.0
      && LaneToTry(vs[i].direction, vs[i].lane) == Some(r.lane)
      && LaneChangeAllowed(vs, i, r.lane, cfg)
    ensures (&& NearestAhead(vs, i).Some?
             && Gap(vs, i, NearestAhead(vs, i).value) <= cfg.safeDistance * 2.0
             && LaneToTry(vs[i].direction, vs[i].lane).Some?
             && LaneChangeAllowed(vs, i, LaneToTry(vs[i].direction, vs[i].lane).value, cfg))
            ==> r.lane != vs[i].lane && r.laneChangeCooldown == cfg.laneChangeCooldown
  {
    var me := vs[i];
    var ahead := NearestAhead(vs, i);
    if ahead.None? then me
    else if DistanceToVehicle(me, vs[ahead.value]) > cfg.safeDistance * 2.0 then me
    else
      match LaneToTry(me.direction, me.lane)
      case None => me
      case Some(t) =>
        if LaneChangeAllowed(vs, i, t, cfg)
        then me.(lane := t, y := LaneY(t, me.width, cfg), laneChangeCooldown := cfg.laneChangeCooldown)
        else me
  }

  // ---------------------------------------------------------------------------
  // Ambulance

  /** `vs[j]` is a vehicle the ambulance `vs[a]` asks to move: not an ambulance, same lane and direction, 0 < gap < 150. */
  predicate ToClear(vs: seq<Vehicle>, a: nat, j: nat)
    requires a < |vs| && j < |vs|
  {
    && j != a
    && vs[j].kind != Ambulance
    && vs[j].lane == vs[a].lane
    && vs[j].direction == vs[a].direction
    && 0.0 < DistanceToVehicle(vs[a], vs[j]) < 150.0
  }

  /**
   * The clearing pass of ambulance `vs[a]` over the vehicles from index `k` on, in
   * order; each attempt sees the lane changes made before it.
   */
  function ClearPathFrom(vs: seq<Vehicle>, a: nat, k: nat, cfg: Config): (r: seq<Vehicle>)
    requires a < |vs| && k <= |vs|
    ensures |r| == |vs|
    ensures r[a] == vs[a]
    ensures forall j :: 0 <= j < |vs| ==> Relaned(vs[j], r[j], cfg)
    ensures forall j :: 0 <= j < |vs| && !(k <= j && ToClear(vs, a, j)) ==> r[j] == vs[j]
    decreases |vs| - k
  {
    if k == |vs| then vs
    else ClearPathFrom(ClearStep(vs, a, k, cfg), a, k + 1, cfg)
  }

  /** One step of the clearing pass: vehicle `k`, if selected, attempts a lane change; nothing else moves. */
  function ClearStep(vs: seq<Vehicle>, a: nat, k: nat, cfg: Config): (r: seq<Vehicle>)
    requires a < |vs| && k < |vs|
    ensures |r| == |vs| && r[a] == vs[a]
    ensures forall j :: 0 <= j < |vs| && j != k ==> r[j] == vs[j]
    ensures ToClear(vs, a, k) ==> r[k] == LaneChangeStep(vs, k, cfg)
    ensures Relaned(vs[k], r[k], cfg)
    ensures !ToClear(vs, a, k) ==> r == vs
    ensures forall j :: k < j < |vs| ==> (ToClear(r, a, j) <==> ToClear(vs, a, j))
  {
    if ToClear(vs, a, k) then vs[k := LaneChangeStep(vs, k, cfg)] else vs
  }

  /** `r[j]` is what vehicle `j`'s lane-change attempt makes of it on `r` up to `j` followed by `vs` from `j` on. */
  predicate AttemptedOn(r: seq<Vehicle>, vs: seq<Vehicle>, j: nat, cfg: Config)
    requires |r| == |vs| && j < |vs|
  {
    r[j] == LaneChangeStep(r[..j] + vs[j..], j, cfg)
  }

  /** Each vehicle the pass selects makes its lane-change attempt on the list as the earlier attempts left it. */
  lemma {:induction false} ClearPathAttempts(vs: seq<Vehicle>, a: nat, k: nat, cfg: Config)
    requires a < |vs| && k <= |vs|
    ensures forall j :: k <= j < |vs| && ToClear(vs, a, j) ==> AttemptedOn(ClearPathFrom(vs, a, k, cfg), vs, j, cfg)
    decreases |vs| - k
  {
    if k < |vs| {
      var vs' := ClearStep(vs, a, k, cfg);
      ClearPathAttempts(vs', a, k + 1, cfg);
      var r := ClearPathFrom(vs', a, k + 1, cfg);
      AttemptsExtend(vs, vs', r, a, k, cfg);
    }
  }

  /** One step of the induction behind `ClearPathAttempts`: the attempt at `k` followed by those after it. */
  lemma AttemptsExtend(vs: seq<Vehicle>, vs': seq<Vehicle>, r: seq<Vehicle>, a: nat, k: nat, cfg: Config)
    requires |vs'| == |vs| && |r| == |vs| && a < |vs| && k < |vs|
    requires forall j :: 0 <= j < |vs| && j != k ==> vs'[j] == vs[j]
    requires ToClear(vs, a, k) ==> vs'[k] == LaneChangeStep(vs, k, cfg)
    requires forall j :: 0 <= j <= k ==> r[j] == vs'[j]
    requires forall j :: k < j < |vs| ==> (ToClear(vs', a, j) <==> ToClear(vs, a, j))
    requires forall j :: k + 1 <= j < |vs| && ToClear(vs', a, j) ==> AttemptedOn(r, vs', j, cfg)
    ensures forall j :: k <= j < |vs| && ToClear(vs, a, j) ==> AttemptedOn(r, vs, j, cfg)
  {
    TailsAgree(vs, vs', k);
    forall j | k <= j < |vs| && ToClear(vs, a, j)
      ensures AttemptedOn(r, vs, j, cfg)
    {
      if j == k {
        SpliceOfAgreeingPrefix(r, vs, k);
      } else {
        assert AttemptedOn(r, vs', j, cfg);
        assert vs'[j..] == vs[j..];
      }
    }
  }

  /** Two lists that differ at most at index `k` have the same suffixes after `k`. */
  lemma TailsAgree(vs: seq<Vehicle>, vs': seq<Vehicle>, k: nat)
    requires |vs'| == |vs| && k < |vs|
    requires forall j :: 0 <= j < |vs| && j != k ==> vs'[j] == vs[j]
    ensures forall j :: k < j < |vs| ==> vs'[j..] == vs[j..]
  {
    forall j | k < j < |vs| ensures vs'[j..] == vs[j..] {
      assert forall m :: 0 <= m < |vs| - j ==> vs'[j..][m] == vs'[j + m];
    }
  }

  /** Splicing a list that agrees with `vs` below `k` onto the rest of `vs` gives `vs` back. */
  lemma SpliceOfAgreeingPrefix(r: seq<Vehicle>, vs: seq<Vehicle>, k: nat)
    requires |r| == |vs| && k <= |vs|
    requires forall j :: 0 <= j < k ==> r[j] == vs[j]
    ensures r[..k] + vs[k..] == vs
  {
    assert r[..k] == vs[..k];
  }

  /**
   * The ambulance's target: half speed within 60 units of a red light (yellow does not
   * count), else 95% of a leader's speed when it is closer than half the safe distance,
   * else the top speed.
   */
  function AmbulanceTarget(v: Vehicle, ld: real, color: Color, leader: Option<Vehicle>, cfg: Config): (t: real)
    requires leader.Some? ==> leader.value.direction == v.direction
    ensures color == Red && 0.0 < ld < 60.0 ==> t == v.maxSpeed * 0.5
    ensures !(color == Red && 0.0 < ld < 60.0) && leader.Some? && DistanceToVehicle(v, leader.value) < cfg.safeDistance * 0.5 ==>
              t == leader.value.speed * 0.95
    ensures !(color == Red && 0.0 < ld < 60.0) && !(leader.Some? && DistanceToVehicle(v, leader.value) < cfg.safeDistance * 0.5) ==>
              t == v.maxSpeed
    // without a leader the light never makes an ambulance aim below half its top speed
    ensures leader.None? && v.maxSpeed >= 0.0 ==> t >= v.maxSpeed * 0.5
  {
    var slow := 0.0 < ld < 80.0 && color == Red;
    if slow && ld < 60.0 then v.maxSpeed * 0.5
    else if leader.Some? then
      if DistanceToVehicle(v, leader.value) < cfg.safeDistance * 0.5 then leader.value.speed * 0.95
      else v.maxSpeed
    else v.maxSpeed
  }

  /**
   * One update of ambulance `vs[a]`: its cooldown, then the clearing pass over the
   * others, then its own target, speed, move and pass marking on the cleared list.
   */
  function AmbulanceStep(vs: seq<Vehicle>, a: nat, phase: LightState, h: real, cfg: Config): (r: seq<Vehicle>)
    requires a < |vs|
    ensures |r| == |vs|
    ensures SameBody(r[a], vs[a])
    ensures r[a].stoppedAtLight == vs[a].stoppedAtLight
    ensures r[a].laneChangeCooldown == CooledDown(vs[a], h).laneChangeCooldown
    ensures r[a].x == vs[a].x + r[a].speed * h * (vs[a].direction as real)
    ensures r[a].passedIntersection <==> vs[a].passedIntersection || PastFarEdge(vs[a].direction, r[a].x, cfg)
    ensures r[a].speed == SpeedStep(vs[a].speed, r[a].targetSpeed, vs[a].acceleration, h)
    ensures forall j :: 0 <= j < |vs| && j != a ==> Relaned(vs[j], r[j], cfg)
    ensures forall j :: 0 <= j < |vs| && j != a && !ToClear(vs, a, j) ==> r[j] == vs[j]
    ensures Sane(vs[a]) && h >= 0.0 ==> Sane(r[a])
    // the others are as the clearing pass left them, and the ambulance's target is taken on that cleared list
    ensures var v1 := CooledDown(vs[a], h);
            var cleared := ClearPathFrom(vs[a := v1], a, 0, cfg);
            && (forall j :: 0 <= j < |vs| && j != a ==> r[j] == cleared[j])
            && r[a].targetSpeed == AmbulanceTarget(v1, DistanceToLight(v1, cfg), GetLightState(phase, v1.direction),
                                                   LeaderOf(cleared, NearestAhead(cleared, a)), cfg)
  {
    var v1 := CooledDown(vs[a], h);
    var vs0 := vs[a := v1];
    assert forall j :: 0 <= j < |vs| && j != a ==> (ToClear(vs0, a, j) <==> ToClear(vs, a, j));
    var vs1 := ClearPathFrom(vs0, a, 0, cfg);
    var ld := DistanceToLight(v1, cfg);
    var ahead := NearestAhead(vs1, a);
    var target := AmbulanceTarget(v1, ld, GetLightState(phase, v1.direction), LeaderOf(vs1, ahead), cfg);
    assert v1.passedIntersection == vs[a].passedIntersection && v1.direction == vs[a].direction;
    vs1[a := Drive(v1, target, h, cfg)]
  }

  /** One update of `vs[i]`, dispatched on its class; it changes no vehicle's lane group, class or direction. */
  function TickVehicle(vs: seq<Vehicle>, i: nat, phase: LightState, h: real, cfg: Config): (r: seq<Vehicle>)
    requires i < |vs|
    ensures |r| == |vs|
    ensures vs[i].kind != Ambulance ==> r == vs[i := StepVehicle(vs, i, phase, h, cfg)]
    ensures vs[i].kind == Ambulance ==> r == AmbulanceStep(vs, i, phase, h, cfg)
    ensures forall j :: 0 <= j < |vs| ==> r[j].kind == vs[j].kind && r[j].direction == vs[j].direction
    ensures forall j :: 0 <= j < |vs| && vs[j].passedIntersection ==> r[j].passedIntersection
    ensures AllSane(vs) && h >= 0.0 ==> AllSane(r)
  {
    if vs[i].kind == Ambulance then
      var r := AmbulanceStep(vs, i, phase, h, cfg);
      assert forall j :: 0 <= j < |vs| && j != i && Sane(vs[j]) ==> Sane(r[j]) by {
        forall j | 0 <= j < |vs| && j != i && Sane(vs[j]) ensures Sane(r[j]) {
          RelanedKeepsSane(vs[j], r[j], cfg);
        }
      }
      assert forall j :: 0 <= j < |vs| && j != i ==>
               r[j].kind == vs[j].kind && r[j].direction == vs[j].direction
               && (vs[j].passedIntersection ==> r[j].passedIntersection) by {
        forall j | 0 <= j < |vs| && j != i
          ensures r[j].kind == vs[j].kind && r[j].direction == vs[j].direction
          ensures vs[j].passedIntersection ==> r[j].passedIntersection
        {
          assert Relaned(vs[j], r[j], cfg);
        }
      }
      r
    else
      vs[i := StepVehicle(vs, i, phase, h, cfg)]
  }

  // ---------------------------------------------------------------------------
  // Vehicle steps as the program runs them

  /** Responds to the target speed already recorded in `v`, moves it and marks the pass. */
  method Accelerate(v: Vehicle, h: real, cfg: Config) returns (w: Vehicle)
    ensures w == Drive(v, v.targetSpeed, h, cfg)
  {
    var speed := AdjustSpeed(v.speed, v.targetSpeed, v.acceleration, h);
    w := MoveAt(v, speed, h, cfg);
    assert v.(targetSpeed := v.targetSpeed) == v;
  }

  /** Speeds up towards a higher target, never past it; brakes at 1.5 times the acceleration towards a lower one, never below it or below zero. */
  method AdjustSpeed(speed: real, target: real, accel: real, h: real) returns (r: real)
    ensures r == SpeedStep(speed, target, accel, h)
  {
    r := speed;
    if r < target {
      r := Min(r + accel * h, target);
    } else if r > target {
      var decel := accel * 1.5;
      r := Max(Max(r - decel * h, target), 0.0);
    }
  }

  /** Moves `v` at `speed` for `h` seconds along its direction and sets its pass flag once the far edge is crossed. */
  method MoveAt(v: Vehicle, speed: real, h: real, cfg: Config) returns (w: Vehicle)
    ensures w == Moved(v, speed, h, cfg)
  {
    var x := v.x + speed * h * (v.direction as real);
    var passed := v.passedIntersection;
    if v.direction == 1 && x > cfg.intersectionX + cfg.intersectionWidth {
      passed := true;
    } else if v.direction == -1 && x < cfg.intersectionX {
      passed := true;
    }
    w := v.(speed := speed, x := x, passedIntersection := passed);
  }

  /**
   * The decision part of an ordinary vehicle's update as the program runs it: leader
   * scan, light check with the stop flag, then the target by precedence.
   */
  method ChooseTarget(vs: seq<Vehicle>, i: nat, phase: LightState, cfg: Config) returns (v: Vehicle)
    requires i < |vs|
    ensures v == Decide(vs, i, phase, cfg)
  {
    v := vs[i];
    var ahead := FindVehicleAhead(vs, i);
    var lightDistance := DistanceToLight(v, cfg);
    var shouldStop := false;
    var stopped := v.stoppedAtLight;
    if 0.0 < lightDistance < 150.0 {
      var color := GetLightState(phase, v.direction);
      if color == Red || color == Yellow {
        shouldStop := true;
        stopped := true;
      }
    }
    var target;
    if shouldStop && lightDistance < 100.0 {
      var stopDistance := Max(lightDistance - 10.0, 0.0);
      if stopDistance < 50.0 {
        target := 0.0;
      } else {
        target := v.maxSpeed * (stopDistance / 100.0);
      }
    } else if ahead.Some? {
      var leader := vs[ahead.value];
      var gap := DistanceToVehicle(v, leader);
      if gap < cfg.safeDistance {
        target := leader.speed * 0.9;
      } else if gap < cfg.safeDistance * 2.0 {
        target := leader.speed;
      } else {
        target := v.maxSpeed;
      }
    } else {
      target := v.maxSpeed;
      if stopped && lightDistance != 0.0 && lightDistance > 50.0 {
        stopped := false;
      }
    }
    assert target == TargetSpeed(v, lightDistance, shouldStop, LeaderOf(vs, ahead), cfg);
    v := v.(targetSpeed := target, stoppedAtLight := stopped);
  }

  /** The ambulance's target as the program computes it, once the path has been cleared; `v` is the ambulance after its cooldown. */
  method ChooseAmbulanceTarget(vs: seq<Vehicle>, a: nat, v: Vehicle, phase: LightState, cfg: Config) returns (target: real)
    requires a < |vs| && vs[a] == v
    ensures target == AmbulanceTarget(v, DistanceToLight(v, cfg), GetLightState(phase, v.direction),
                                      LeaderOf(vs, NearestAhead(vs, a)), cfg)
  {
    var lightDistance := DistanceToLight(v, cfg);
    var shouldSlow := false;
    if 0.0 < lightDistance < 80.0 {
      if GetLightState(phase, v.direction) == Red {
        shouldSlow := true;
      }
    }
    var ahead := FindVehicleAhead(vs, a);
    if shouldSlow && lightDistance < 60.0 {
      target := v.maxSpeed * 0.5;
    } else if ahead.Some? {
      var gap := DistanceToVehicle(v, vs[ahead.value]);
      if gap < cfg.safeDistance * 0.5 {
        target := vs[ahead.value].speed * 0.95;
      } else {
        target := v.maxSpeed;
      }
    } else {
      target := v.maxSpeed;
    }
  }

  /**
   * Car following in practice: a leader 30 units ahead, inside a safe distance of 80, lowers the target to 90% of its speed.
   * B's x is placed 30 units past A's front edge, which for rightbound traffic is A's x + length.
   */
  lemma CloseLeaderScenario(a: Vehicle, b: Vehicle, cfg: Config)
    requires a.direction == 1 && b.direction == 1 && a.lane == 0 && b.lane == 0
    requires a.x == 100.0 && b.x == 130.0 + a.length && cfg.safeDistance == 80.0
    requires a.speed == 50.0 && a.acceleration >= 0.0 && b.speed * 0.9 < 50.0
    ensures DistanceToVehicle(a, b) == 30.0
    ensures TargetSpeed(a, 200.0, false, Some(b), cfg) == b.speed * 0.9
    ensures forall h: real {:trigger SpeedStep(a.speed, b.speed * 0.9, a.acceleration, h)} :: h > 0.0 && a.acceleration > 0.0 ==> SpeedStep(a.speed, b.speed * 0.9, a.acceleration, h) < a.speed
  {
  }
}
