/**
 * The moving platform obstacle (`client/src/components/MovingPlatform.tsx`):
 * a box oscillating along one axis by `sin(elapsed * speed + timeOffset) *
 * moveRange` around its start position. In a mission the drone, treated as a
 * cube of side 0.8, is hit when it overlaps the box on all three axes, and a
 * hit deals 10 damage subject to the 2-second cooldown.
 */
module PlatformModel {
  import opened RealMath
  import opened Collision
  import GameStore

  const DEFAULT_SIZE := Vec3(3.0, 0.5, 3.0)
  const DEFAULT_MOVE_RANGE := 3.0
  const DEFAULT_SPEED := 1.0
  const DEFAULT_AXIS := Y
  /** The side of the cube the drone is taken to be. */
  const DRONE_SIZE := 0.8
  const PLATFORM_DAMAGE := 10

  /** Per axis, the centres are closer than half the platform's extent plus half the drone's. */
  predicate Overlaps(dronePos: Vec3, platformPos: Vec3, size: Vec3)
  {
    && Abs(dronePos.x - platformPos.x) < size.x / 2.0 + DRONE_SIZE / 2.0
    && Abs(dronePos.y - platformPos.y) < size.y / 2.0 + DRONE_SIZE / 2.0
    && Abs(dronePos.z - platformPos.z) < size.z / 2.0 + DRONE_SIZE / 2.0
  }

  /** The open intervals of half-widths `half1` and `half2` around `c1` and `c2` share a point. */
  predicate IntervalsMeet(c1: real, half1: real, c2: real, half2: real)
  {
    c1 - half1 < c2 + half2 && c2 - half2 < c1 + half1
  }

  /**
   * The test is exactly an intersection of open boxes: on every axis the
   * platform's extent and the drone's cube share an interior point.
   */
  lemma OverlapsIff(dronePos: Vec3, platformPos: Vec3, size: Vec3)
    ensures Overlaps(dronePos, platformPos, size) <==>
              forall a :: IntervalsMeet(Component(dronePos, a), DRONE_SIZE / 2.0,
                                        Component(platformPos, a), Component(size, a) / 2.0)
  {
    if Overlaps(dronePos, platformPos, size) {
      forall a
        ensures IntervalsMeet(Component(dronePos, a), DRONE_SIZE / 2.0,
                              Component(platformPos, a), Component(size, a) / 2.0)
      {
      }
    } else {
      var a := if Abs(dronePos.x - platformPos.x) >= size.x / 2.0 + DRONE_SIZE / 2.0 then X
               else if Abs(dronePos.y - platformPos.y) >= size.y / 2.0 + DRONE_SIZE / 2.0 then Y
               else Z;
      assert !IntervalsMeet(Component(dronePos, a), DRONE_SIZE / 2.0,
                            Component(platformPos, a), Component(size, a) / 2.0);
    }
  }

  /** One mounted platform: its mesh position and its `lastHitTime`. */
  class PlatformInstance {
    const start: Vec3
    const size: Vec3
    const moveRange: real
    const speed: real
    const axis: Axis
    /** `Math.random() * Math.PI * 2`, drawn once per instance. */
    const timeOffset: real
    var position: Vec3
    const cooldown: Cooldown

    /** The platform stays on the line through its start along its axis, within the move range. */
    ghost predicate Valid()
      reads this, cooldown
    {
      && cooldown.Valid()
      && (forall a :: a != axis ==> Component(position, a) == Component(start, a))
      && Abs(Component(position, axis) - Component(start, axis)) <= Abs(moveRange)
    }

    constructor (start: Vec3, size: Vec3, moveRange: real, speed: real, axis: Axis, timeOffset: real)
      ensures this.start == start && this.size == size && this.moveRange == moveRange
      ensures this.speed == speed && this.axis == axis && this.timeOffset == timeOffset
      ensures position == start && fresh(cooldown) && cooldown.hits == []
      ensures Valid()
    {
      this.start := start;
      this.size := size;
      this.moveRange := moveRange;
      this.speed := speed;
      this.axis := axis;
      this.timeOffset := timeOffset;
      position := start;
      cooldown := new Cooldown();
    }

    /**
     * One frame at clock time `elapsed`: the platform moves to its offset
     * position, and in a mission an overlap is a collision at `elapsed`,
     * dealing 10 damage when the cooldown has passed.
     */
    method Frame(elapsed: real, dronePos: Vec3, mode: GameStore.GameMode, log: DamageLog, m: Transcendentals)
      requires Sound(m) && Valid()
      modifies this`position, cooldown, log
      ensures Valid()
      ensures position == Displaced(start, axis, Oscillation(m, elapsed, speed, timeOffset, moveRange))
      ensures mode == GameStore.Mission && Overlaps(dronePos, position, size) ==>
                && cooldown.hits == old(cooldown.hits) + [elapsed]
                && log.events == old(log.events)
                                 + (if CooledDown(old(cooldown.lastHitTime), elapsed) then [PLATFORM_DAMAGE] else [])
      ensures !(mode == GameStore.Mission && Overlaps(dronePos, position, size)) ==>
                && cooldown.hits == old(cooldown.hits)
                && cooldown.lastHitTime == old(cooldown.lastHitTime)
                && log.events == old(log.events)
    {
      var offset := Oscillation(m, elapsed, speed, timeOffset, moveRange);
      position := Displaced(start, axis, offset);
      if mode == GameStore.Mission {
        var dx := Abs(dronePos.x - position.x);
        var dy := Abs(dronePos.y - position.y);
        var dz := Abs(dronePos.z - position.z);
        var collisionX := dx < size.x / 2.0 + DRONE_SIZE / 2.0;
        var collisionY := dy < size.y / 2.0 + DRONE_SIZE / 2.0;
        var collisionZ := dz < size.z / 2.0 + DRONE_SIZE / 2.0;
        if collisionX && collisionY && collisionZ {
          cooldown.Hit(elapsed, PLATFORM_DAMAGE, log);
        }
      }
    }
  }
}
