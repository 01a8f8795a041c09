/**
 * A collectible ring (`client/src/components/Ring.tsx`): until collected it
 * spins by 0.01 radians a frame about its y axis, and the first frame the
 * drone comes within `0.6 * radius` of its centre it is marked collected and
 * reports one ring to the game store. Rings are collected in every mode that
 * shows them.
 */
module RingModel {
  import opened RealMath
  import GameStore

  const DEFAULT_RADIUS := 2.0
  const SPIN := 0.01
  /** The fraction of the ring's radius within which the drone collects it. */
  const COLLECT_FRACTION := 0.6

  predicate Collects(m: Transcendentals, dronePos: Vec3, ringPos: Vec3, radius: real)
  {
    Distance(m, dronePos, ringPos) < radius * COLLECT_FRACTION
  }

  /** The collection test compared without the square root; a ring of radius 0 or less is never collected. */
  lemma CollectsIff(m: Transcendentals, dronePos: Vec3, ringPos: Vec3, radius: real)
    requires Sound(m)
    ensures Collects(m, dronePos, ringPos, radius) <==>
              radius > 0.0
              && Dist2(dronePos, ringPos) < (radius * COLLECT_FRACTION) * (radius * COLLECT_FRACTION)
  {
    DistanceBelow(m, dronePos, ringPos, radius * COLLECT_FRACTION);
  }

  /** One mounted ring: its group's y rotation and the `collected` ref. */
  class RingInstance {
    const position: Vec3
    const radius: real
    var rotationY: real
    var collected: bool
    /** How many times this ring has called `collectRing`. */
    ghost var reports: nat

    /** A ring reports exactly once if it is collected and never otherwise. */
    ghost predicate Valid()
      reads this
    {
      reports == if collected then 1 else 0
    }

    constructor (position: Vec3, rotationY: real, radius: real)
      ensures this.position == position && this.rotationY == rotationY && this.radius == radius
      ensures !collected && reports == 0
      ensures Valid()
    {
      this.position := position;
      this.rotationY := rotationY;
      this.radius := radius;
      collected := false;
      reports := 0;
    }

    /**
     * One frame: a collected ring does nothing; otherwise it spins, and when
     * the drone is close enough it becomes collected and reports one ring.
     */
    method Frame(dronePos: Vec3, game: GameStore.Game, m: Transcendentals)
      requires Valid() && game.Valid()
      modifies this`rotationY, this`collected, this`reports
      modifies game`ringsCollected, game`score, game`missionComplete
      ensures Valid() && game.Valid()
      ensures old(game.MissionConsistent()) || (!old(collected) && collected) ==> game.MissionConsistent()
      ensures old(collected) ==>
                && collected && rotationY == old(rotationY)
                && game.ringsCollected == old(game.ringsCollected) && game.score == old(game.score)
                && game.missionComplete == old(game.missionComplete)
      ensures !old(collected) ==>
                && rotationY == old(rotationY) + SPIN
                && (collected <==> Collects(m, dronePos, position, radius))
      ensures !old(collected) && collected ==>
                && game.ringsCollected == old(game.ringsCollected) + 1
                && game.score == old(game.score) + GameStore.RING_SCORE
                && (game.missionComplete <==> game.ringsCollected >= game.totalRings)
      ensures !collected ==>
                && game.ringsCollected == old(game.ringsCollected) && game.score == old(game.score)
                && game.missionComplete == old(game.missionComplete)
    {
      if collected {
        return;
      }
      rotationY := rotationY + SPIN;
      var distance := Distance(m, dronePos, position);
      if distance < radius * COLLECT_FRACTION {
        collected := true;
        reports := reports + 1;
        game.CollectRing();
      }
    }
  }

  /**
   * However many frames a ring sees, it adds at most one ring and 100 points
   * to the store, and it has added one exactly when it is collected.
   */
  method RunFrames(ring: RingInstance, game: GameStore.Game, dronePath: seq<Vec3>, m: Transcendentals)
    requires ring.Valid() && !ring.collected && game.Valid()
    modifies ring`rotationY, ring`collected, ring`reports
    modifies game`ringsCollected, game`score, game`missionComplete
    ensures ring.Valid() && game.Valid()
    ensures game.ringsCollected == old(game.ringsCollected) + ring.reports
    ensures game.score == old(game.score) + GameStore.RING_SCORE * ring.reports
    ensures ring.reports <= 1
    ensures ring.collected <==> exists i :: 0 <= i < |dronePath| && Collects(m, dronePath[i], ring.position, ring.radius)
  {
    var i := 0;
    while i < |dronePath|
      invariant 0 <= i <= |dronePath|
      invariant ring.Valid() && game.Valid()
      invariant game.ringsCollected == old(game.ringsCollected) + ring.reports
      invariant game.score == old(game.score) + GameStore.RING_SCORE * ring.reports
      invariant ring.collected <==> exists j :: 0 <= j < i && Collects(m, dronePath[j], ring.position, ring.radius)
    {
      ring.Frame(dronePath[i], game, m);
      i := i + 1;
    }
  }
}
