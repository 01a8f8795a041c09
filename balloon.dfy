/**
 * The balloon obstacle (`client/src/components/Balloon.tsx`): a sphere bobbing
 * vertically by `sin(elapsed * bobSpeed + timeOffset) * bobRange` around its
 * start position. In a mission the drone is hit when its distance to the
 * balloon's centre is below `radius + 0.6`, and a hit deals 5 damage subject
 * to the 2-second cooldown.
 */
module BalloonModel {
  import opened RealMath
  import opened Collision
  import GameStore

  const DEFAULT_RADIUS := 0.8
  const DEFAULT_BOB_SPEED := 0.5
  const DEFAULT_BOB_RANGE := 0.5
  /** Added to the balloon's radius to form the collision radius. */
  const HIT_MARGIN := 0.6
  const BALLOON_DAMAGE := 5

  predicate BalloonHit(m: Transcendentals, dronePos: Vec3, balloonPos: Vec3, radius: real)
  {
    Distance(m, dronePos, balloonPos) < radius + HIT_MARGIN
  }

  /** The sphere test compared without the square root; a radius of -0.6 or less never hits. */
  lemma BalloonHitIff(m: Transcendentals, dronePos: Vec3, balloonPos: Vec3, radius: real)
    requires Sound(m)
    ensures BalloonHit(m, dronePos, balloonPos, radius) <==>
              radius + HIT_MARGIN > 0.0
              && Dist2(dronePos, balloonPos) < (radius + HIT_MARGIN) * (radius + HIT_MARGIN)
  {
    DistanceBelow(m, dronePos, balloonPos, radius + HIT_MARGIN);
  }

  /** One mounted balloon: its mesh position and its `lastHitTime`. */
  class BalloonInstance {
    const start: Vec3
    const radius: real
    const bobSpeed: real
    const bobRange: real
    /** `Math.random() * Math.PI * 2`, drawn once per instance. */
    const timeOffset: real
    var position: Vec3
    const cooldown: Cooldown

    /** The balloon only moves vertically, and by at most the bob range. */
    ghost predicate Valid()
      reads this, cooldown
    {
      && cooldown.Valid()
      && position.x == start.x && position.z == start.z
      && Abs(position.y - start.y) <= Abs(bobRange)
    }

    constructor (start: Vec3, radius: real, bobSpeed: real, bobRange: real, timeOffset: real)
      ensures this.start == start && this.radius == radius && this.bobSpeed == bobSpeed
      ensures this.bobRange == bobRange && this.timeOffset == timeOffset
      ensures position == start && fresh(cooldown) && cooldown.hits == []
      ensures Valid()
    {
      this.start := start;
      this.radius := radius;
      this.bobSpeed := bobSpeed;
      this.bobRange := bobRange;
      this.timeOffset := timeOffset;
      position := start;
      cooldown := new Cooldown();
    }

    /**
     * One frame at clock time `elapsed`: the balloon moves to its bobbing
     * position, and in a mission a hit is a collision at `elapsed`, dealing
     * 5 damage when the cooldown has passed.
     */
    method Frame(elapsed: real, dronePos: Vec3, mode: GameStore.GameMode, log: DamageLog, m: Transcendentals)
      requires Sound(m) && Valid()
      modifies this`position, cooldown, log
      ensures Valid()
      ensures position == Displaced(start, Y, Oscillation(m, elapsed, bobSpeed, timeOffset, bobRange))
      ensures mode == GameStore.Mission && BalloonHit(m, dronePos, position, radius) ==>
                && cooldown.hits == old(cooldown.hits) + [elapsed]
                && log.events == old(log.events)
                                 + (if CooledDown(old(cooldown.lastHitTime), elapsed) then [BALLOON_DAMAGE] else [])
      ensures !(mode == GameStore.Mission && BalloonHit(m, dronePos, position, radius)) ==>
                && cooldown.hits == old(cooldown.hits)
                && cooldown.lastHitTime == old(cooldown.lastHitTime)
                && log.events == old(log.events)
    {
      var bobOffset := Oscillation(m, elapsed, bobSpeed, timeOffset, bobRange);
      position := Displaced(start, Y, bobOffset);
      assert Component(position, X) == Component(start, X) && Component(position, Z) == Component(start, Z);
      if mode == GameStore.Mission {
        var distance := Distance(m, dronePos, position);
        if distance < radius + HIT_MARGIN {
          cooldown.Hit(elapsed, BALLOON_DAMAGE, log);
        }
      }
    }
  }
}
