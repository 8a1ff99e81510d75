/**
 * The orchestrator: owns the vehicles, the pedestrians and the traffic light, runs
 * one tick in a fixed order (light, then each vehicle followed by its optional lane
 * change, then pedestrians, then pruning, then spawning), and keeps the counters,
 * timers and the time scale.
 *
 * Every random choice of the program is an explicit draw passed in by the caller.
 */
module Simulation {
  import opened Settings
  import opened Signals
  import opened Vehicles
  import opened TrafficLights
  import opened Pedestrians

  // ---------------------------------------------------------------------------
  // Draws

  /** The draws behind one spawned vehicle: the lane choice (second lane of the pair?) and the class roll in [0, 1). */
  datatype FleetDraw = FleetDraw(second: bool, classRoll: real)

  /** The draws behind one spawn attempt at a road entrance: direction roll, lane choice and class roll. */
  datatype EntryDraw = EntryDraw(directionRoll: real, second: bool, classRoll: real)

  /** The draws behind one tick: one lane-change roll per vehicle, the spawn attempt and the pedestrian draws. */
  datatype TickDraws = TickDraws(
    laneRolls: seq<real>,
    entry: EntryDraw,
    pedestrianRoll: real,
    pedestrianSide: Side,
    pedestrianRight: bool)

  /** Key presses the simulation reacts to; every other key is ignored. */
  datatype Key = Space | Up | Down | KeyA | KeyR | OtherKey

  // ---------------------------------------------------------------------------
  // Vehicle creation

  /**
   * The class picked by a roll: ambulance below the ambulance chance, then truck below
   * 0.15, sports car below 0.25, normal car otherwise.
   */
  function ClassOf(roll: real, cfg: Config): (k: VehicleKind)
    ensures k == Ambulance <==> roll < cfg.ambulanceSpawnChance
    ensures k == Truck <==> cfg.ambulanceSpawnChance <= roll < 0.15
    ensures k == Sports <==> cfg.ambulanceSpawnChance <= roll && 0.15 <= roll < 0.25
    ensures k == Car <==> cfg.ambulanceSpawnChance <= roll && 0.25 <= roll
  {
    if roll < cfg.ambulanceSpawnChance then Ambulance
    else if roll < 0.15 then Truck
    else if roll < 0.25 then Sports
    else Car
  }

  /** The y of a spawned vehicle: centred in its lane as if it had a normal car's width, whatever its class. */
  function SpawnY(lane: int, cfg: Config): int {
    LaneY(lane, cfg.normal.width, cfg)
  }

  /** Every freshly created vehicle in its lane group satisfies the simulation's invariant. */
  lemma {:induction false} CreatedIsSane(x: real, lane: int, direction: int, roll: real, cfg: Config)
    requires (direction == 1 && (lane == 0 || lane == 1)) || (direction == -1 && (lane == 2 || lane == 3))
    ensures cfg.Valid() ==> Sane(Create(x, SpawnY(lane, cfg), lane, direction, ClassOf(roll, cfg), cfg))
  {
    if cfg.Valid() {
      var k := ClassOf(roll, cfg);
      assert Params(k, cfg).Valid();
    }
  }

  /** The initial rightbound vehicles: the i-th at x = 200*i - 300 in lane 0 or 1. */
  function RightFleet(ds: seq<FleetDraw>, cfg: Config): (r: seq<Vehicle>)
    ensures |r| == |ds|
    ensures forall j :: 0 <= j < |r| ==>
              r[j].direction == 1 && (r[j].lane == 0 || r[j].lane == 1) && r[j].x == (j * 200 - 300) as real
    ensures cfg.Valid() ==> AllSane(r)
  {
    if ds == [] then []
    else
      var n := |ds| - 1;
      var lane := if ds[n].second then 1 else 0;
      CreatedIsSane((n * 200 - 300) as real, lane, 1, ds[n].classRoll, cfg);
      RightFleet(ds[..n], cfg)
        + [Create((n * 200 - 300) as real, SpawnY(lane, cfg), lane, 1, ClassOf(ds[n].classRoll, cfg), cfg)]
  }

  /** The initial leftbound vehicles: the i-th at x = screen width - 200*i + 300 in lane 2 or 3. */
  function LeftFleet(ds: seq<FleetDraw>, cfg: Config): (r: seq<Vehicle>)
    ensures |r| == |ds|
    ensures forall j :: 0 <= j < |r| ==>
              r[j].direction == -1 && (r[j].lane == 2 || r[j].lane == 3)
              && r[j].x == cfg.screenWidth - (j * 200) as real + 300.0
    ensures cfg.Valid() ==> AllSane(r)
  {
    if ds == [] then []
    else
      var n := |ds| - 1;
      var lane := if ds[n].second then 3 else 2;
      var x := cfg.screenWidth - (n * 200) as real + 300.0;
      CreatedIsSane(x, lane, -1, ds[n].classRoll, cfg);
      LeftFleet(ds[..n], cfg) + [Create(x, SpawnY(lane, cfg), lane, -1, ClassOf(ds[n].classRoll, cfg), cfg)]
  }

  /** The i-th initial rightbound vehicle takes its lane and class from the i-th draw, and has not passed yet. */
  lemma {:induction false} RightFleetFollowsDraws(ds: seq<FleetDraw>, cfg: Config)
    ensures forall j :: 0 <= j < |ds| ==>
              var v := RightFleet(ds, cfg)[j];
              (v.lane == 1 <==> ds[j].second) && v.kind == ClassOf(ds[j].classRoll, cfg) && !v.passedIntersection
  {
    if ds != [] {
      var n := |ds| - 1;
      RightFleetFollowsDraws(ds[..n], cfg);
    }
  }

  /** The i-th initial leftbound vehicle takes its lane and class from the i-th draw, and has not passed yet. */
  lemma {:induction false} LeftFleetFollowsDraws(ds: seq<FleetDraw>, cfg: Config)
    ensures forall j :: 0 <= j < |ds| ==>
              var v := LeftFleet(ds, cfg)[j];
              (v.lane == 3 <==> ds[j].second) && v.kind == ClassOf(ds[j].classRoll, cfg) && !v.passedIntersection
  {
    if ds != [] {
      var n := |ds| - 1;
      LeftFleetFollowsDraws(ds[..n], cfg);
    }
  }

  /** The whole initial fleet: the rightbound vehicles, then the leftbound ones; every one of them `Sane`. */
  function InitialFleet(right: seq<FleetDraw>, left: seq<FleetDraw>, cfg: Config): (r: seq<Vehicle>)
    ensures |r| == |right| + |left|
    ensures r[..|right|] == RightFleet(right, cfg) && r[|right|..] == LeftFleet(left, cfg)
    ensures cfg.Valid() ==> AllSane(r)
  {
    RightFleet(right, cfg) + LeftFleet(left, cfg)
  }

  /** Direction, lane and entry x of a spawn attempt: rightbound enters at -100 in lane 0 or 1, leftbound past the right edge in lane 2 or 3. */
  function EntryPlan(d: EntryDraw, cfg: Config): (p: (int, int, real))
    ensures p.0 == 1 ==> (p.1 == 0 || p.1 == 1) && p.2 == -100.0
    ensures p.0 != 1 ==> p.0 == -1 && (p.1 == 2 || p.1 == 3) && p.2 == cfg.screenWidth + 100.0
    ensures p.0 == 1 <==> d.directionRoll < 0.5
    ensures d.second <==> p.1 == 1 || p.1 == 3
  {
    if d.directionRoll < 0.5 then (1, if d.second then 1 else 0, -100.0)
    else (-1, if d.second then 3 else 2, cfg.screenWidth + 100.0)
  }

  /** `v` keeps the entrance of `lane` in `direction` occupied: same lane and direction, within 200 units of its edge. */
  predicate BlocksEntry(v: Vehicle, lane: int, direction: int, cfg: Config) {
    && v.lane == lane && v.direction == direction
    && ((direction == 1 && v.x < 200.0) || (direction == -1 && v.x > cfg.screenWidth - 200.0))
  }

  predicate EntryClear(vs: seq<Vehicle>, lane: int, direction: int, cfg: Config) {
    forall j :: 0 <= j < |vs| ==> !BlocksEntry(vs[j], lane, direction, cfg)
  }

  /** The vehicles after one spawn attempt: at most one vehicle is appended, and only when the entrance is clear. */
  function Spawned(vs: seq<Vehicle>, d: EntryDraw, cfg: Config): (r: seq<Vehicle>)
    ensures |vs| <= |r| <= |vs| + 1 && r[..|vs|] == vs
    ensures |r| == |vs| + 1 <==> EntryClear(vs, EntryPlan(d, cfg).1, EntryPlan(d, cfg).0, cfg)
    ensures |r| == |vs| + 1 ==>
              var v := r[|vs|];
              && v.direction == EntryPlan(d, cfg).0 && v.lane == EntryPlan(d, cfg).1 && v.x == EntryPlan(d, cfg).2
              && InGroup(v) && v.kind == ClassOf(d.classRoll, cfg) && !v.passedIntersection
    ensures cfg.Valid() && AllSane(vs) ==> AllSane(r)
  {
    var (direction, lane, x) := EntryPlan(d, cfg);
    if EntryClear(vs, lane, direction, cfg) then
      CreatedIsSane(x, lane, direction, d.classRoll, cfg);
      vs + [Create(x, SpawnY(lane, cfg), lane, direction, ClassOf(d.classRoll, cfg), cfg)]
    else vs
  }

  // ---------------------------------------------------------------------------
  // One tick over the vehicles

  /**
   * The vehicle pass of a tick from index `k` on: update vehicle `k` (which for an
   * ambulance may move others aside), then, if its roll is below 0.01 and it is not an
   * ambulance, let it attempt a lane change; the next vehicle sees both changes.
   */
  function TickFrom(vs: seq<Vehicle>, rolls: seq<real>, phase: LightState, h: real, k: nat, cfg: Config): (r: seq<Vehicle>)
    requires |rolls| == |vs| && k <= |vs|
    ensures |r| == |vs|
    ensures forall j :: 0 <= j < |vs| ==> r[j].kind == vs[j].kind && r[j].direction == vs[j].direction
    ensures forall j :: 0 <= j < |vs| && vs[j].passedIntersection ==> r[j].passedIntersection
    ensures AllSane(vs) && h >= 0.0 ==> AllSane(r)
    decreases |vs| - k
  {
    if k == |vs| then vs
    else
      var vs1 := TickVehicle(vs, k, phase, h, cfg);
      var vs2 := if rolls[k] < 0.01 && vs1[k].kind != Ambulance then vs1[k := LaneChangeStep(vs1, k, cfg)] else vs1;
      RelanedKeepsSaneAt(vs1, k, cfg);
      TickFrom(vs2, rolls, phase, h, k + 1, cfg)
  }

  /** A lane-change step keeps the class, and keeps the invariant of the vehicle that makes it. */
  lemma RelanedKeepsSaneAt(vs: seq<Vehicle>, k: nat, cfg: Config)
    requires k < |vs|
    ensures LaneChangeStep(vs, k, cfg).kind == vs[k].kind && LaneChangeStep(vs, k, cfg).direction == vs[k].direction
    ensures LaneChangeStep(vs, k, cfg).passedIntersection == vs[k].passedIntersection
    ensures Sane(vs[k]) ==> Sane(LaneChangeStep(vs, k, cfg))
  {
    if Sane(vs[k]) {
      RelanedKeepsSane(vs[k], LaneChangeStep(vs, k, cfg), cfg);
    }
  }

  // ---------------------------------------------------------------------------
  // Pruning and pass counting

  /** A vehicle is off screen once more than 100 units past the edge it drives towards. */
  predicate Offscreen(v: Vehicle, cfg: Config) {
    (v.direction == 1 && v.x > cfg.screenWidth + 100.0) || (v.direction == -1 && v.x < -100.0)
  }

  /** The vehicles kept by pruning, in their original order. */
  function Kept(vs: seq<Vehicle>, cfg: Config): (r: seq<Vehicle>)
    ensures |r| <= |vs|
  {
    if vs == [] then []
    else
      var v := vs[|vs| - 1];
      Kept(vs[..|vs| - 1], cfg) + (if Offscreen(v, cfg) then [] else [v])
  }

  /** The number of removed vehicles that had passed the intersection. */
  function PassedCount(vs: seq<Vehicle>, cfg: Config): (n: nat)
    ensures n <= |vs|
  {
    if vs == [] then 0
    else
      var v := vs[|vs| - 1];
      PassedCount(vs[..|vs| - 1], cfg) + (if Offscreen(v, cfg) && v.passedIntersection then 1 else 0)
  }

  /**
   * The vehicle spawn timer of one tick, from the vehicles `vs` and the timer `timer`:
   * once the timer reaches its interval, one spawn attempt is made and it restarts at zero.
   */
  function SpawnTimerAfter(vs: seq<Vehicle>, timer: real, entry: EntryDraw, h: real, cfg: Config): (r: (seq<Vehicle>, real))
    ensures |vs| <= |r.0| <= |vs| + 1 && r.0[..|vs|] == vs
    ensures cfg.spawnInterval > 0.0 ==> r.1 < cfg.spawnInterval
    ensures cfg.Valid() && AllSane(vs) ==> AllSane(r.0)
    // below the interval the timer only runs; at the interval it restarts and one spawn attempt is made
    ensures timer + h < cfg.spawnInterval ==> r == (vs, timer + h)
    ensures timer + h >= cfg.spawnInterval ==>
              && r.1 == 0.0
              && (|r.0| == |vs| + 1 <==> EntryClear(vs, EntryPlan(entry, cfg).1, EntryPlan(entry, cfg).0, cfg))
              && r.0 == Spawned(vs, entry, cfg)
  {
    if timer + h >= cfg.spawnInterval then (Spawned(vs, entry, cfg), 0.0) else (vs, timer + h)
  }

  /**
   * The vehicle half of one tick, from the vehicles `vs`, the pass counter `passed0` and
   * the spawn timer `timer0` before it to `vs'`, `passed'` and `timer'` after it: every
   * vehicle updates in list order, the off-screen ones are dropped and those among them
   * that had passed the intersection are counted, then the spawn timer runs.
   */
  predicate VehiclesStepped(vs: seq<Vehicle>, passed0: nat, timer0: real, vs': seq<Vehicle>, passed': nat, timer': real,
                            rolls: seq<real>, entry: EntryDraw, phase: LightState, h: real, cfg: Config)
    requires |rolls| == |vs|
  {
    var ticked := TickFrom(vs, rolls, phase, h, 0, cfg);
    && passed' == passed0 + PassedCount(ticked, cfg)
    && (vs', timer') == SpawnTimerAfter(Kept(ticked, cfg), timer0, entry, h, cfg)
  }

  /** Pruning keeps exactly the vehicles that are not off screen. */
  lemma {:induction false} KeptMembers(vs: seq<Vehicle>, cfg: Config)
    ensures forall v :: v in Kept(vs, cfg) <==> v in vs && !Offscreen(v, cfg)
  {
    if vs != [] {
      var n := |vs| - 1;
      KeptMembers(vs[..n], cfg);
      assert vs == vs[..n] + [vs[n]];
    }
  }

  /** Pruning preserves order: pruning a concatenation is the concatenation of the pruned parts. */
  lemma {:induction false} KeptAppend(a: seq<Vehicle>, b: seq<Vehicle>, cfg: Config)
    ensures Kept(a + b, cfg) == Kept(a, cfg) + Kept(b, cfg)
    decreases |b|
  {
    if b == [] {
      assert a + b == a;
    } else {
      var n := |b| - 1;
      assert (a + b)[..|a + b| - 1] == a + b[..n];
      KeptAppend(a, b[..n], cfg);
    }
  }

  /** The count adds up over the parts of a list, so each vehicle contributes on its own. */
  lemma {:induction false} PassedCountAppend(a: seq<Vehicle>, b: seq<Vehicle>, cfg: Config)
    ensures PassedCount(a + b, cfg) == PassedCount(a, cfg) + PassedCount(b, cfg)
    decreases |b|
  {
    if b == [] {
      assert a + b == a;
    } else {
      var n := |b| - 1;
      assert (a + b)[..|a + b| - 1] == a + b[..n];
      PassedCountAppend(a, b[..n], cfg);
    }
  }

  /** A vehicle is counted exactly when it is removed and had passed; nothing is counted exactly when no such vehicle exists. */
  lemma {:induction false} PassedCountExtremes(vs: seq<Vehicle>, cfg: Config)
    ensures PassedCount(vs, cfg) == 0 <==> forall j :: 0 <= j < |vs| ==> !(Offscreen(vs[j], cfg) && vs[j].passedIntersection)
    ensures PassedCount(vs, cfg) == |vs| <==> forall j :: 0 <= j < |vs| ==> Offscreen(vs[j], cfg) && vs[j].passedIntersection
  {
    if vs != [] {
      var n := |vs| - 1;
      PassedCountExtremes(vs[..n], cfg);
      assert forall j :: 0 <= j < n ==> vs[..n][j] == vs[j];
    }
  }

  /** Only removed vehicles are counted, so the count never exceeds the number removed. */
  lemma {:induction false} PassedAmongRemoved(vs: seq<Vehicle>, cfg: Config)
    ensures PassedCount(vs, cfg) + |Kept(vs, cfg)| <= |vs|
  {
    if vs != [] {
      PassedAmongRemoved(vs[..|vs| - 1], cfg);
    }
  }

  /** Every kept vehicle was in the list, so pruning keeps the invariant of all vehicles. */
  lemma KeptSane(vs: seq<Vehicle>, cfg: Config)
    requires AllSane(vs)
    ensures AllSane(Kept(vs, cfg))
  {
    KeptMembers(vs, cfg);
    forall j | 0 <= j < |Kept(vs, cfg)| ensures Sane(Kept(vs, cfg)[j]) {
      assert Kept(vs, cfg)[j] in Kept(vs, cfg);
    }
  }

  // ---------------------------------------------------------------------------
  // Metrics

  function SumSpeeds(vs: seq<Vehicle>): real {
    if vs == [] then 0.0 else SumSpeeds(vs[..|vs| - 1]) + vs[|vs| - 1].speed
  }

  /** The average speed, 0 for an empty list. */
  function AvgSpeed(vs: seq<Vehicle>): (r: real)
    ensures vs == [] ==> r == 0.0
    ensures vs != [] ==> r * (|vs| as real) == SumSpeeds(vs)
  {
    if vs == [] then 0.0
    else SumSpeeds(vs) / (|vs| as real)
  }

  /** The sum of speeds each in [0, top] lies in [0, n * top]. */
  lemma {:induction false} SumSpeedsBounds(vs: seq<Vehicle>, top: real)
    requires forall j :: 0 <= j < |vs| ==> 0.0 <= vs[j].speed <= top
    ensures 0.0 <= SumSpeeds(vs) <= (|vs| as real) * top
  {
    if vs != [] {
      var n := |vs| - 1;
      SumSpeedsBounds(vs[..n], top);
      assert (n as real) * top + top == (|vs| as real) * top;
    }
  }

  /** The average lies between the slowest possible and the fastest speed bound. */
  lemma AvgSpeedBounds(vs: seq<Vehicle>, top: real)
    requires forall j :: 0 <= j < |vs| ==> 0.0 <= vs[j].speed <= top
    ensures 0.0 <= AvgSpeed(vs)
    ensures vs != [] ==> AvgSpeed(vs) <= top
  {
    SumSpeedsBounds(vs, top);
    if vs != [] {
      var n := |vs| as real;
      assert SumSpeeds(vs) <= n * top;
      assert SumSpeeds(vs) / n <= top by {
        assert SumSpeeds(vs) / n * n == SumSpeeds(vs);
      }
    }
  }

  /** A vehicle counted in the displayed queue: below 20 and within 150 units of the intersection. */
  predicate Queued(v: Vehicle, cfg: Config) {
    v.speed < 20.0 && Abs(FrontX(v) - cfg.intersectionX) < 150.0
  }

  function QueueCount(vs: seq<Vehicle>, cfg: Config): (n: nat)
    ensures n <= |vs|
  {
    if vs == [] then 0
    else QueueCount(vs[..|vs| - 1], cfg) + (if Queued(vs[|vs| - 1], cfg) then 1 else 0)
  }

  /** The queue is empty exactly when no vehicle is queued, and full exactly when every vehicle is. */
  lemma {:induction false} QueueCountExtremes(vs: seq<Vehicle>, cfg: Config)
    ensures QueueCount(vs, cfg) == 0 <==> forall j :: 0 <= j < |vs| ==> !Queued(vs[j], cfg)
    ensures QueueCount(vs, cfg) == |vs| <==> forall j :: 0 <= j < |vs| ==> Queued(vs[j], cfg)
  {
    if vs != [] {
      var n := |vs| - 1;
      QueueCountExtremes(vs[..n], cfg);
      assert forall j :: 0 <= j < n ==> vs[..n][j] == vs[j];
    }
  }

  /** Counts the queued vehicles in one pass; nothing is changed. */
  method CalculateQueueLength(vs: seq<Vehicle>, cfg: Config) returns (queue: nat)
    ensures queue == QueueCount(vs, cfg)
    ensures queue <= |vs|
  {
    queue := 0;
    var k := 0;
    while k < |vs|
      invariant 0 <= k <= |vs|
      invariant queue == QueueCount(vs[..k], cfg)
    {
      var v := vs[k];
      if v.speed < 20.0 {
        var distance := Abs(FrontX(v) - cfg.intersectionX);
        if distance < 150.0 {
          queue := queue + 1;
        }
      }
      assert vs[..k + 1][..k] == vs[..k];
      k := k + 1;
    }
    assert vs[..k] == vs;
  }

  // ---------------------------------------------------------------------------
  // Time scale

  /** UP: one step faster, clamped at the maximum. */
  function Faster(scale: real, cfg: Config): (r: real)
    ensures cfg.timeScaleStep > 0.0 && cfg.timeScaleMin <= scale <= cfg.timeScaleMax ==>
              cfg.timeScaleMin <= r <= cfg.timeScaleMax
    ensures cfg.timeScaleStep > 0.0 && scale <= cfg.timeScaleMax ==> scale <= r
    ensures r <= scale + cfg.timeScaleStep && r <= cfg.timeScaleMax
    ensures r < scale + cfg.timeScaleStep ==> r == cfg.timeScaleMax
  {
    Min(scale + cfg.timeScaleStep, cfg.timeScaleMax)
  }

  /** DOWN: one step slower, clamped at the minimum. */
  function Slower(scale: real, cfg: Config): (r: real)
    ensures cfg.timeScaleStep > 0.0 && cfg.timeScaleMin <= scale <= cfg.timeScaleMax ==>
              cfg.timeScaleMin <= r <= cfg.timeScaleMax
    ensures cfg.timeScaleStep > 0.0 && cfg.timeScaleMin <= scale ==> r <= scale
    ensures r >= scale - cfg.timeScaleStep && r >= cfg.timeScaleMin
    ensures r > scale - cfg.timeScaleStep ==> r == cfg.timeScaleMin
  {
    Max(scale - cfg.timeScaleStep, cfg.timeScaleMin)
  }

  /** Any sequence of UP and DOWN presses keeps a time scale that starts in range inside the range. */
  lemma {:induction false} ScaleStaysInRange(scale: real, presses: seq<bool>, cfg: Config)
    requires cfg.timeScaleStep > 0.0 && cfg.timeScaleMin <= scale <= cfg.timeScaleMax
    ensures cfg.timeScaleMin <= ScaleAfter(scale, presses, cfg) <= cfg.timeScaleMax
    decreases |presses|
  {
    if presses != [] {
      var next := if presses[0] then Faster(scale, cfg) else Slower(scale, cfg);
      ScaleStaysInRange(next, presses[1..], cfg);
    }
  }

  /** The time scale after a run of presses, `true` for UP and `false` for DOWN. */
  function ScaleAfter(scale: real, presses: seq<bool>, cfg: Config): real
    decreases |presses|
  {
    if presses == [] then scale
    else ScaleAfter(if presses[0] then Faster(scale, cfg) else Slower(scale, cfg), presses[1..], cfg)
  }

  // ---------------------------------------------------------------------------
  // Pedestrian list

  /** What one update makes of each pedestrian, in list order. */
  function Stepped(ws: seq<Walker>, phase: LightState, h: real, cfg: Config): (r: seq<Walker>)
    ensures |r| == |ws| && forall j :: 0 <= j < |ws| ==> r[j] == Walk(ws[j], phase, h, cfg)
  {
    seq(|ws|, j requires 0 <= j < |ws| => Walk(ws[j], phase, h, cfg))
  }

  /** The pedestrians kept by pruning: those not done, in their original order. */
  function Unfinished(ws: seq<Walker>): (r: seq<Walker>)
    ensures |r| <= |ws|
  {
    if ws == [] then []
    else
      var n := |ws| - 1;
      Unfinished(ws[..n]) + (if ws[n].progress.state != Done then [ws[n]] else [])
  }

  /** Pruning keeps exactly the pedestrians that are not done. */
  lemma {:induction false} UnfinishedMembers(ws: seq<Walker>)
    ensures forall w :: w in Unfinished(ws) <==> w in ws && w.progress.state != Done
  {
    if ws != [] {
      var n := |ws| - 1;
      UnfinishedMembers(ws[..n]);
      assert ws == ws[..n] + [ws[n]];
    }
  }

  /** A pruned list holds no finished pedestrian, however the list was made. */
  lemma {:induction false} UnfinishedNoneDone(ws: seq<Walker>)
    ensures forall j :: 0 <= j < |Unfinished(ws)| ==> Unfinished(ws)[j].progress.state != Done
  {
    UnfinishedMembers(ws);
    forall j | 0 <= j < |Unfinished(ws)|
      ensures Unfinished(ws)[j].progress.state != Done
    {
      assert Unfinished(ws)[j] in Unfinished(ws);
    }
  }

  /** Pruning twice drops nothing more. */
  lemma {:induction false} UnfinishedIdempotent(ws: seq<Walker>)
    ensures Unfinished(Unfinished(ws)) == Unfinished(ws)
  {
    if ws != [] {
      var n := |ws| - 1;
      UnfinishedIdempotent(ws[..n]);
      UnfinishedAppend(Unfinished(ws[..n]), if ws[n].progress.state != Done then [ws[n]] else []);
    }
  }

  /** Pruning a concatenation prunes each part, keeping the order. */
  lemma {:induction false} UnfinishedAppend(a: seq<Walker>, b: seq<Walker>)
    ensures Unfinished(a + b) == Unfinished(a) + Unfinished(b)
    decreases |b|
  {
    if b == [] {
      assert a + b == a;
    } else {
      var n := |b| - 1;
      UnfinishedAppend(a, b[..n]);
      assert (a + b)[..|a + b| - 1] == a + b[..n] && (a + b)[|a + b| - 1] == b[n];
    }
  }

  /** The pedestrian a tick's draws spawn, if any. */
  function SpawnedWalker(d: TickDraws, cfg: Config): Walker {
    NewWalker(d.pedestrianSide, if d.pedestrianRight then 1 else -1, cfg)
  }

  /**
   * The pedestrian half of one tick, from the list `ws` to the list `ws'`: each
   * pedestrian steps for the light phase, the finished ones are dropped in order, and
   * a spawn timer that reaches its interval restarts at zero and, when its roll is
   * below 0.6, appends one new waiting pedestrian.
   */
  function PedestriansAfter(ws: seq<Walker>, timer: real, d: TickDraws, phase: LightState, h: real, cfg: Config): (r: (seq<Walker>, real))
    ensures cfg.pedestrianSpawnInterval > 0.0 ==> r.1 < cfg.pedestrianSpawnInterval
    // the stepped, pruned list comes first, in order; a spawn adds exactly one waiting pedestrian at the end
    ensures var kept := Unfinished(Stepped(ws, phase, h, cfg));
            && |kept| <= |r.0| && r.0[..|kept|] == kept
            && (timer + h < cfg.pedestrianSpawnInterval ==> r == (kept, timer + h))
            && (timer + h >= cfg.pedestrianSpawnInterval ==> r.1 == 0.0)
            && (timer + h >= cfg.pedestrianSpawnInterval && d.pedestrianRoll < 0.6 ==>
                  |r.0| == |kept| + 1 && r.0[|kept|] == SpawnedWalker(d, cfg) && r.0[|kept|].progress.state == Waiting)
            && (!(timer + h >= cfg.pedestrianSpawnInterval && d.pedestrianRoll < 0.6) ==> r.0 == kept)
  {
    var kept := Unfinished(Stepped(ws, phase, h, cfg));
    if timer + h >= cfg.pedestrianSpawnInterval then
      (if d.pedestrianRoll < 0.6 then kept + [SpawnedWalker(d, cfg)] else kept, 0.0)
    else (kept, timer + h)
  }

  /**
   * Who is on the crosswalk after a tick: every pedestrian whose update left it unfinished,
   * and besides them at most the one spawned pedestrian.
   */
  lemma PedestriansAfterMembers(ws: seq<Walker>, timer: real, d: TickDraws, phase: LightState, h: real, cfg: Config)
    ensures var ws' := PedestriansAfter(ws, timer, d, phase, h, cfg).0;
            && |ws'| <= |ws| + 1
            && (forall j :: 0 <= j < |ws| && Walk(ws[j], phase, h, cfg).progress.state != Done ==> Walk(ws[j], phase, h, cfg) in ws')
            && (forall w :: w in ws' ==> w == SpawnedWalker(d, cfg) || exists j :: 0 <= j < |ws| && w == Walk(ws[j], phase, h, cfg))
  {
    var stepped := Stepped(ws, phase, h, cfg);
    UnfinishedMembers(stepped);
    var ws' := PedestriansAfter(ws, timer, d, phase, h, cfg).0;
    forall w | w in ws'
      ensures w == SpawnedWalker(d, cfg) || exists j :: 0 <= j < |ws| && w == Walk(ws[j], phase, h, cfg)
    {
      if w in Unfinished(stepped) {
        var j :| 0 <= j < |stepped| && stepped[j] == w;
        assert w == Walk(ws[j], phase, h, cfg);
      }
    }
    forall j | 0 <= j < |ws| && Walk(ws[j], phase, h, cfg).progress.state != Done
      ensures Walk(ws[j], phase, h, cfg) in ws'
    {
      assert stepped[j] in stepped;
    }
  }

  /** After a tick, no pedestrian in the list is done. */
  lemma NoneDoneAfterTick(ws: seq<Walker>, timer: real, d: TickDraws, phase: LightState, h: real, cfg: Config)
    ensures var ws' := PedestriansAfter(ws, timer, d, phase, h, cfg).0;
            forall j :: 0 <= j < |ws'| ==> ws'[j].progress.state != Done
  {
    UnfinishedNoneDone(Stepped(ws, phase, h, cfg));
  }

  class TrafficSimulation {
    const cfg: Config
    var vehicles: seq<Vehicle>
    var pedestrians: seq<Walker>
    var light: TrafficLight
    var paused: bool
    var timeScale: real
    var spawnTimer: real
    var pedestrianSpawnTimer: real
    var totalCarsPassed: nat
    var simulationTime: real

    /** The invariant every public operation keeps. */
    predicate Valid()
      reads this
    {
      && cfg.Valid()
      && AllSane(vehicles)
      && cfg.timeScaleMin <= timeScale <= cfg.timeScaleMax
    }

    /** A fresh simulation: running at scale 1, empty counters and timers, a fresh light and the initial vehicles. */
    constructor (cfg: Config, right: seq<FleetDraw>, left: seq<FleetDraw>)
      requires cfg.Valid()
      requires |right| == cfg.initialSpawnCount / 2 && |left| == cfg.initialSpawnCount / 2
      ensures Valid() && fresh(light)
      ensures this.cfg == cfg && vehicles == InitialFleet(right, left, cfg) && pedestrians == []
      ensures light.state == EwGreen && light.timer == 0.0 && !light.adaptiveMode
      ensures !paused && timeScale == 1.0 && spawnTimer == 0.0 && pedestrianSpawnTimer == 0.0
      ensures totalCarsPassed == 0 && simulationTime == 0.0
    {
      this.cfg := cfg;
      vehicles := [];
      pedestrians := [];
      light := new TrafficLight();
      paused := false;
      timeScale := 1.0;
      spawnTimer := 0.0;
      pedestrianSpawnTimer := 0.0;
      totalCarsPassed := 0;
      simulationTime := 0.0;
      new;
      SpawnInitialVehicles(right, left);
    }

    /** Appends the initial rightbound vehicles, then the initial leftbound ones, 200 units apart. */
    method SpawnInitialVehicles(right: seq<FleetDraw>, left: seq<FleetDraw>)
      requires |right| == cfg.initialSpawnCount / 2 && |left| == cfg.initialSpawnCount / 2
      modifies this`vehicles
      ensures vehicles == old(vehicles) + InitialFleet(right, left, cfg)
    {
      SpawnRightFleet(right);
      SpawnLeftFleet(left);
      assert old(vehicles) + RightFleet(right, cfg) + LeftFleet(left, cfg) == old(vehicles) + InitialFleet(right, left, cfg);
    }

    /** The first loop of the initial spawn: rightbound vehicles in lane 0 or 1, 200 units apart from x = -300. */
    method SpawnRightFleet(right: seq<FleetDraw>)
      requires |right| == cfg.initialSpawnCount / 2
      modifies this`vehicles
      ensures vehicles == old(vehicles) + RightFleet(right, cfg)
    {
      var spacing := 200;
      var i := 0;
      while i < cfg.initialSpawnCount / 2
        invariant 0 <= i <= |right|
        invariant vehicles == old(vehicles) + RightFleet(right[..i], cfg)
      {
        var lane := if right[i].second then 1 else 0;
        var x := i * spacing - 300;
        var y := cfg.roadYStart + lane * cfg.laneWidth + (cfg.laneWidth - cfg.normal.width) / 2;
        assert y == SpawnY(lane, cfg);
        var v := Create(x as real, y, lane, 1, ClassOf(right[i].classRoll, cfg), cfg);
        assert right[..i + 1][..i] == right[..i];
        assert RightFleet(right[..i + 1], cfg) == RightFleet(right[..i], cfg) + [v];
        vehicles := vehicles + [v];
        i := i + 1;
      }
      assert right[..i] == right;
    }

    /** The second loop of the initial spawn: leftbound vehicles in lane 2 or 3, 200 units apart from 300 past the right edge. */
    method SpawnLeftFleet(left: seq<FleetDraw>)
      requires |left| == cfg.initialSpawnCount / 2
      modifies this`vehicles
      ensures vehicles == old(vehicles) + LeftFleet(left, cfg)
    {
      var spacing := 200;
      var i := 0;
      while i < cfg.initialSpawnCount / 2
        invariant 0 <= i <= |left|
        invariant vehicles == old(vehicles) + LeftFleet(left[..i], cfg)
      {
        var lane := if left[i].second then 3 else 2;
        var x := cfg.screenWidth - (i * spacing) as real + 300.0;
        var y := cfg.roadYStart + lane * cfg.laneWidth + (cfg.laneWidth - cfg.normal.width) / 2;
        assert y == SpawnY(lane, cfg);
        var v := Create(x, y, lane, -1, ClassOf(left[i].classRoll, cfg), cfg);
        assert left[..i + 1][..i] == left[..i];
        assert LeftFleet(left[..i + 1], cfg) == LeftFleet(left[..i], cfg) + [v];
        vehicles := vehicles + [v];
        i := i + 1;
      }
      assert left[..i] == left;
    }

    /** Appends one vehicle at the chosen entrance unless a same-lane, same-direction vehicle is still near it. */
    method SpawnVehicle(d: EntryDraw)
      modifies this`vehicles
      ensures vehicles == Spawned(old(vehicles), d, cfg)
    {
      var direction, lane, x;
      if d.directionRoll < 0.5 {
        direction := 1;
        lane := if d.second then 1 else 0;
        x := -100.0;
      } else {
        direction := -1;
        lane := if d.second then 3 else 2;
        x := cfg.screenWidth + 100.0;
      }
      var y := cfg.roadYStart + lane * cfg.laneWidth + (cfg.laneWidth - cfg.normal.width) / 2;
      var canSpawn := true;
      var k := 0;
      while k < |vehicles|
        invariant 0 <= k <= |vehicles|
        invariant canSpawn <==> forall j :: 0 <= j < k ==> !BlocksEntry(vehicles[j], lane, direction, cfg)
      {
        var v := vehicles[k];
        if v.lane == lane && v.direction == direction {
          if direction == 1 && v.x < 200.0 {
            canSpawn := false;
          } else if direction == -1 && v.x > cfg.screenWidth - 200.0 {
            canSpawn := false;
          }
        }
        k := k + 1;
      }
      if canSpawn {
        vehicles := vehicles + [Create(x, y, lane, direction, ClassOf(d.classRoll, cfg), cfg)];
      }
    }

    /** Appends a new waiting pedestrian on the given side, walking in the given direction. */
    method SpawnPedestrian(side: Side, right: bool)
      modifies this`pedestrians
      ensures pedestrians == old(pedestrians) + [NewWalker(side, if right then 1 else -1, cfg)]
    {
      var p := new Pedestrian(side, if right then 1 else -1, cfg);
      pedestrians := pedestrians + [p.Value()];
    }

    /** One ordinary vehicle's update, in the program's order of steps. */
    method UpdateVehicle(i: nat, phase: LightState, h: real)
      requires i < |vehicles|
      modifies this`vehicles
      ensures vehicles == old(vehicles)[i := StepVehicle(old(vehicles), i, phase, h, cfg)]
    {
      var v := vehicles[i];
      if v.laneChangeCooldown > 0.0 {
        v := v.(laneChangeCooldown := v.laneChangeCooldown - h);
      }
      vehicles := vehicles[i := v];
      assert vehicles == old(vehicles)[i := CooledDown(old(vehicles)[i], h)];
      v := ChooseTarget(vehicles, i, phase, cfg);
      v := Accelerate(v, h, cfg);
      vehicles := vehicles[i := v];
    }

    /** One lane-change attempt of `vehicles[i]`, with the scans the program performs. */
    method AttemptLaneChange(i: nat)
      requires i < |vehicles|
      modifies this`vehicles
      ensures vehicles == old(vehicles)[i := LaneChangeStep(old(vehicles), i, cfg)]
    {
      var ahead := FindVehicleAhead(vehicles, i);
      if ahead.None? {
        return;
      }
      var me := vehicles[i];
      var gap := DistanceToVehicle(me, vehicles[ahead.value]);
      if gap > cfg.safeDistance * 2.0 {
        return;
      }
      var lanesToTry := LaneToTry(me.direction, me.lane);
      if lanesToTry.Some? {
        var targetLane := lanesToTry.value;
        var ok := CanChangeLane(vehicles, i, targetLane, cfg);
        if ok {
          me := me.(lane := targetLane, y := cfg.roadYStart + targetLane * cfg.laneWidth + (cfg.laneWidth - me.width) / 2,
                    laneChangeCooldown := cfg.laneChangeCooldown);
          vehicles := vehicles[i := me];
        }
      }
    }

    /** The ambulance `vehicles[a]` asks each close same-lane vehicle ahead of it, in list order, to change lane. */
    method ClearPath(a: nat)
      requires a < |vehicles|
      modifies this`vehicles
      ensures vehicles == ClearPathFrom(old(vehicles), a, 0, cfg)
    {
      var k := 0;
      while k < |vehicles|
        invariant 0 <= k <= |vehicles| && |vehicles| == |old(vehicles)|
        invariant ClearPathFrom(vehicles, a, k, cfg) == ClearPathFrom(old(vehicles), a, 0, cfg)
      {
        var v := vehicles[k];
        if k != a && v.kind != Ambulance {
          if v.lane == vehicles[a].lane && v.direction == vehicles[a].direction {
            var distance := DistanceToVehicle(vehicles[a], v);
            if 0.0 < distance < 150.0 {
              AttemptLaneChange(k);
            }
          }
        }
        k := k + 1;
      }
    }

    /** One ambulance update: cooldown, clearing the path, the ambulance's own target, speed and move. */
    method UpdateAmbulance(a: nat, phase: LightState, h: real)
      requires a < |vehicles|
      modifies this`vehicles
      ensures vehicles == AmbulanceStep(old(vehicles), a, phase, h, cfg)
    {
      var v := vehicles[a];
      if v.laneChangeCooldown > 0.0 {
        v := v.(laneChangeCooldown := v.laneChangeCooldown - h);
      }
      vehicles := vehicles[a := v];
      assert vehicles == old(vehicles)[a := CooledDown(old(vehicles)[a], h)];
      ClearPath(a);
      var target := ChooseAmbulanceTarget(vehicles, a, v, phase, cfg);
      v := v.(targetSpeed := target);
      v := Accelerate(v, h, cfg);
      vehicles := vehicles[a := v];
    }

    /** The vehicle pass of a tick: each vehicle's update, immediately followed by its optional lane change. */
    method UpdateVehicles(rolls: seq<real>, phase: LightState, h: real)
      requires |rolls| == |vehicles|
      modifies this`vehicles
      ensures vehicles == TickFrom(old(vehicles), rolls, phase, h, 0, cfg)
    {
      var k := 0;
      while k < |vehicles|
        invariant 0 <= k <= |vehicles| && |vehicles| == |rolls|
        invariant TickFrom(vehicles, rolls, phase, h, k, cfg) == TickFrom(old(vehicles), rolls, phase, h, 0, cfg)
      {
        if vehicles[k].kind == Ambulance {
          UpdateAmbulance(k, phase, h);
        } else {
          UpdateVehicle(k, phase, h);
        }
        if rolls[k] < 0.01 && vehicles[k].kind != Ambulance {
          AttemptLaneChange(k);
        }
        k := k + 1;
      }
    }

    /** Whether `v` has left the screen; a leaving vehicle that passed the intersection is counted. */
    method IsOffscreen(v: Vehicle) returns (off: bool)
      modifies this`totalCarsPassed
      ensures off == Offscreen(v, cfg)
      ensures totalCarsPassed == old(totalCarsPassed) + (if off && v.passedIntersection then 1 else 0)
    {
      if v.direction == 1 && v.x > cfg.screenWidth + 100.0 {
        if v.passedIntersection {
          totalCarsPassed := totalCarsPassed + 1;
        }
        return true;
      } else if v.direction == -1 && v.x < -100.0 {
        if v.passedIntersection {
          totalCarsPassed := totalCarsPassed + 1;
        }
        return true;
      }
      return false;
    }

    /** Drops the off-screen vehicles, counting the ones that passed the intersection. */
    method PruneVehicles()
      modifies this`vehicles, this`totalCarsPassed
      ensures vehicles == Kept(old(vehicles), cfg)
      ensures totalCarsPassed == old(totalCarsPassed) + PassedCount(old(vehicles), cfg)
    {
      var kept := [];
      var k := 0;
      while k < |vehicles|
        invariant 0 <= k <= |vehicles| && vehicles == old(vehicles)
        invariant kept == Kept(vehicles[..k], cfg)
        invariant totalCarsPassed == old(totalCarsPassed) + PassedCount(vehicles[..k], cfg)
      {
        var off := IsOffscreen(vehicles[k]);
        if !off {
          kept := kept + [vehicles[k]];
        }
        assert vehicles[..k + 1][..k] == vehicles[..k];
        k := k + 1;
      }
      assert vehicles[..k] == vehicles;
      vehicles := kept;
    }

    /** Runs every pedestrian's own update under the current phase, with elapsed time `h`. */
    method UpdatePedestrians(phase: LightState, h: real)
      modifies this`pedestrians
      ensures pedestrians == Stepped(old(pedestrians), phase, h, cfg)
    {
      var k := 0;
      while k < |pedestrians|
        invariant 0 <= k <= |pedestrians| == |old(pedestrians)|
        invariant forall j :: 0 <= j < k ==> pedestrians[j] == Walk(old(pedestrians)[j], phase, h, cfg)
        invariant forall j :: k <= j < |pedestrians| ==> pedestrians[j] == old(pedestrians)[j]
      {
        pedestrians := pedestrians[k := Walk(pedestrians[k], phase, h, cfg)];
        k := k + 1;
      }
    }

    /** Drops the pedestrians that are done, keeping the others in order. */
    method PrunePedestrians()
      modifies this`pedestrians
      ensures pedestrians == Unfinished(old(pedestrians))
    {
      var kept := [];
      var k := 0;
      while k < |pedestrians|
        invariant 0 <= k <= |pedestrians|
        invariant kept == Unfinished(pedestrians[..k])
      {
        if pedestrians[k].progress.state != Done {
          kept := kept + [pedestrians[k]];
        }
        assert pedestrians[..k + 1][..k] == pedestrians[..k];
        k := k + 1;
      }
      assert pedestrians[..k] == pedestrians;
      pedestrians := kept;
    }

    /**
     * One tick. Paused, nothing changes. Otherwise: the clock and the light advance,
     * every vehicle updates (each possibly followed by a lane change), every
     * pedestrian updates, the off-screen vehicles and finished pedestrians are
     * dropped, and each spawn timer that reached its interval triggers a spawn
     * attempt and restarts at zero.
     */
    method Update(dt: real, d: TickDraws)
      requires Valid() && dt >= 0.0 && |d.laneRolls| == |vehicles|
      modifies this, light
      ensures Valid()
      ensures old(paused) ==> unchanged(this) && unchanged(light)
      ensures !old(paused) ==> light == old(light) && paused == old(paused) && timeScale == old(timeScale)
      ensures !old(paused) ==> simulationTime == old(simulationTime) + Scaled(dt, old(timeScale))
      ensures !old(paused) ==> ((light.state, light.timer)
                == PhaseAfter(old(light.state), old(light.timer), old(light.adaptiveMode), old(vehicles), dt, old(timeScale), cfg))
      ensures !old(paused) ==> light.adaptiveMode == old(light.adaptiveMode)
      ensures !old(paused) ==> VehiclesStepped(old(vehicles), old(totalCarsPassed), old(spawnTimer), vehicles, totalCarsPassed, spawnTimer, d.laneRolls, d.entry, light.state, Scaled(dt, old(timeScale)), cfg)
      ensures !old(paused) ==> (pedestrians, pedestrianSpawnTimer) == PedestriansAfter(old(pedestrians), old(pedestrianSpawnTimer), d, light.state, Scaled(dt, old(timeScale)), cfg)
    {
      if !paused {
        Tick(dt, d);
      }
    }

    /** The work of one unpaused update. */
    method Tick(dt: real, d: TickDraws)
      requires Valid() && !paused && dt >= 0.0 && |d.laneRolls| == |vehicles|
      modifies this, light
      ensures Valid()
      ensures light == old(light) && paused == old(paused) && timeScale == old(timeScale)
      ensures simulationTime == old(simulationTime) + Scaled(dt, old(timeScale))
      ensures (light.state, light.timer)
                == PhaseAfter(old(light.state), old(light.timer), old(light.adaptiveMode), old(vehicles), dt, old(timeScale), cfg)
      ensures light.adaptiveMode == old(light.adaptiveMode)
      ensures VehiclesStepped(old(vehicles), old(totalCarsPassed), old(spawnTimer), vehicles, totalCarsPassed, spawnTimer, d.laneRolls, d.entry, light.state, Scaled(dt, old(timeScale)), cfg)
      ensures (pedestrians, pedestrianSpawnTimer) == PedestriansAfter(old(pedestrians), old(pedestrianSpawnTimer), d, light.state, Scaled(dt, old(timeScale)), cfg)
    {
      var scale := timeScale;
      simulationTime := simulationTime + Scaled(dt, scale);
      light.Update(dt, vehicles, scale, cfg);
      AdvanceAgents(d, light.state, Scaled(dt, scale));
    }

    /** Everything of a tick after the light's update, for the phase it left and elapsed time `h`. */
    method AdvanceAgents(d: TickDraws, phase: LightState, h: real)
      requires cfg.Valid() && h >= 0.0 && |d.laneRolls| == |vehicles| && AllSane(vehicles)
      modifies this`vehicles, this`totalCarsPassed, this`spawnTimer, this`pedestrians, this`pedestrianSpawnTimer
      ensures AllSane(vehicles)
      ensures VehiclesStepped(old(vehicles), old(totalCarsPassed), old(spawnTimer), vehicles, totalCarsPassed, spawnTimer, d.laneRolls, d.entry, phase, h, cfg)
      ensures (pedestrians, pedestrianSpawnTimer) == PedestriansAfter(old(pedestrians), old(pedestrianSpawnTimer), d, phase, h, cfg)
    {
      AdvanceVehicles(d.laneRolls, d.entry, phase, h);
      AdvancePedestrians(d, phase, h);
    }

    /** The vehicle half of a tick: every vehicle's update, pruning with pass counting, then the spawn timer. */
    method AdvanceVehicles(rolls: seq<real>, entry: EntryDraw, phase: LightState, h: real)
      requires cfg.Valid() && h >= 0.0 && |rolls| == |vehicles|
      requires AllSane(vehicles)
      modifies this`vehicles, this`totalCarsPassed, this`spawnTimer
      ensures AllSane(vehicles)
      ensures VehiclesStepped(old(vehicles), old(totalCarsPassed), old(spawnTimer), vehicles, totalCarsPassed, spawnTimer, rolls, entry, phase, h, cfg)
    {
      UpdateVehicles(rolls, phase, h);
      ghost var ticked := vehicles;
      PruneVehicles();
      KeptSane(ticked, cfg);
      TickVehicleSpawn(entry, h);
    }

    /** The vehicle spawn timer: once it reaches its interval, one spawn attempt is made and it restarts at zero. */
    method TickVehicleSpawn(entry: EntryDraw, h: real)
      modifies this`vehicles, this`spawnTimer
      ensures (vehicles, spawnTimer) == SpawnTimerAfter(old(vehicles), old(spawnTimer), entry, h, cfg)
    {
      spawnTimer := spawnTimer + h;
      if spawnTimer >= cfg.spawnInterval {
        SpawnVehicle(entry);
        spawnTimer := 0.0;
      }
    }

    /** The pedestrian half of a tick: every pedestrian's update, pruning of finished ones, then the spawn timer. */
    method AdvancePedestrians(d: TickDraws, phase: LightState, h: real)
      modifies this`pedestrians, this`pedestrianSpawnTimer
      ensures (pedestrians, pedestrianSpawnTimer) == PedestriansAfter(old(pedestrians), old(pedestrianSpawnTimer), d, phase, h, cfg)
    {
      UpdatePedestrians(phase, h);
      PrunePedestrians();
      pedestrianSpawnTimer := pedestrianSpawnTimer + h;
      if pedestrianSpawnTimer >= cfg.pedestrianSpawnInterval {
        if d.pedestrianRoll < 0.6 {
          SpawnPedestrian(d.pedestrianSide, d.pedestrianRight);
        }
        pedestrianSpawnTimer := 0.0;
      }
    }

    /** Empties both lists, zeroes the counters and timers, installs a fresh light and respawns the initial vehicles. */
    method ResetSimulation(right: seq<FleetDraw>, left: seq<FleetDraw>)
      requires Valid()
      requires |right| == cfg.initialSpawnCount / 2 && |left| == cfg.initialSpawnCount / 2
      modifies this
      ensures Valid() && fresh(light)
      ensures vehicles == InitialFleet(right, left, cfg) && pedestrians == []
      ensures light.state == EwGreen && light.timer == 0.0 && !light.adaptiveMode
      ensures totalCarsPassed == 0 && simulationTime == 0.0 && spawnTimer == 0.0 && pedestrianSpawnTimer == 0.0
      ensures paused == old(paused) && timeScale == old(timeScale)
    {
      vehicles := [];
      pedestrians := [];
      totalCarsPassed := 0;
      simulationTime := 0.0;
      spawnTimer := 0.0;
      pedestrianSpawnTimer := 0.0;
      light := new TrafficLight();
      SpawnInitialVehicles(right, left);
    }

    /**
     * The actions behind the keys: SPACE pauses or resumes, UP and DOWN change the time
     * scale within its bounds, A toggles adaptive timing, R resets; any other key does nothing.
     */
    method HandleKeypress(key: Key, right: seq<FleetDraw>, left: seq<FleetDraw>)
      requires Valid()
      requires key == KeyR ==> |right| == cfg.initialSpawnCount / 2 && |left| == cfg.initialSpawnCount / 2
      modifies this, light
      ensures Valid()
      ensures key == Space ==> paused == !old(paused) && timeScale == old(timeScale)
      ensures key == Up ==> timeScale == Faster(old(timeScale), cfg) && paused == old(paused)
      ensures key == Down ==> timeScale == Slower(old(timeScale), cfg) && paused == old(paused)
      ensures key in {Space, Up, Down} ==>
                && vehicles == old(vehicles) && light == old(light) && unchanged(light) && pedestrians == old(pedestrians)
                && totalCarsPassed == old(totalCarsPassed) && simulationTime == old(simulationTime)
                && spawnTimer == old(spawnTimer) && pedestrianSpawnTimer == old(pedestrianSpawnTimer)
      ensures key == KeyA ==>
                && light == old(light) && light.adaptiveMode == !old(light.adaptiveMode)
                && light.state == old(light.state) && light.timer == old(light.timer) && unchanged(this)
      ensures key == KeyR ==>
                && fresh(light) && light.state == EwGreen && light.timer == 0.0 && !light.adaptiveMode
                && vehicles == InitialFleet(right, left, cfg) && pedestrians == []
                && totalCarsPassed == 0 && simulationTime == 0.0 && spawnTimer == 0.0 && pedestrianSpawnTimer == 0.0
                && paused == old(paused) && timeScale == old(timeScale)
      ensures key == OtherKey ==> unchanged(this) && unchanged(light)
    {
      match key
      case Space =>
        paused := !paused;
      case Up =>
        timeScale := Min(timeScale + cfg.timeScaleStep, cfg.timeScaleMax);
      case Down =>
        timeScale := Max(timeScale - cfg.timeScaleStep, cfg.timeScaleMin);
      case KeyA =>
        light.ToggleAdaptive();
      case KeyR =>
        ResetSimulation(right, left);
      case OtherKey =>
    }
  }
}
