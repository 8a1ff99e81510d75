/**
 * The named constants the simulation is configured with (the `config` module of the
 * program, which is not part of this model). Every constant is a field of `Config`;
 * `Valid` collects the sign assumptions the proofs rely on.
 */
module Settings {

  /** The conventional optional value, used where the program returns `None`. */
  datatype Option<T> = None | Some(value: T)

  /** Dimensions and dynamics of one vehicle class (normal car, truck, sports car, ambulance). */
  datatype ClassParams = ClassParams(length: real, width: int, maxSpeed: real, acceleration: real)
  {
    predicate Valid() {
      length > 0.0 && width >= 0 && maxSpeed >= 0.0 && acceleration >= 0.0
    }
  }

  datatype Config = Config(
    // geometry of the screen, the road and the intersection
    screenWidth: real,
    roadYStart: int,
    roadWidth: int,
    laneWidth: int,
    numLanes: int,
    intersectionX: real,
    intersectionWidth: real,
    // car following and lane changing
    safeDistance: real,
    laneChangeMinGap: real,
    laneChangeCooldown: real,
    // signal timing
    lightGreenTime: real,
    lightYellowTime: real,
    adaptiveLightThreshold: int,
    // pedestrians
    crosswalkWaitTime: real,
    pedestrianSpeed: real,
    // spawning
    spawnInterval: real,
    pedestrianSpawnInterval: real,
    initialSpawnCount: nat,
    ambulanceSpawnChance: real,
    // time scale control
    timeScaleMin: real,
    timeScaleMax: real,
    timeScaleStep: real,
    // per-class parameter tables
    normal: ClassParams,
    truck: ClassParams,
    sports: ClassParams,
    ambulance: ClassParams)
  {
    /** Sign assumptions on the constants; the program starts with a time scale of 1.0. */
    predicate Valid() {
      && safeDistance > 0.0
      && laneChangeMinGap > 0.0
      && laneChangeCooldown > 0.0
      && lightGreenTime > 0.0
      && lightYellowTime > 0.0
      && pedestrianSpeed > 0.0
      && spawnInterval > 0.0
      && pedestrianSpawnInterval > 0.0
      && 0.0 < timeScaleMin <= 1.0 <= timeScaleMax
      && timeScaleStep > 0.0
      && normal.Valid() && truck.Valid() && sports.Valid() && ambulance.Valid()
    }
  }

  /** Elapsed time multiplied by the time scale: never negative when neither factor is. */
  function Scaled(dt: real, scale: real): (h: real)
    ensures dt >= 0.0 && scale >= 0.0 ==> h >= 0.0
  {
    dt * scale
  }

  function Abs(r: real): real {
    if r < 0.0 then -r else r
  }

  function Max(a: real, b: real): real {
    if a < b then b else a
  }

  function Min(a: real, b: real): real {
    if a < b then a else b
  }
}
