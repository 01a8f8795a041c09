/**
 * The wind driver (`client/src/components/Wind.tsx`): a strength chosen by
 * mode and difficulty, a clock accumulated from frame deltas, and a
 * per-frame call of the drone's physics step with either the default zero
 * wind or a gust of sines and a cosine of the clock scaled by the strength.
 */
module WindModel {
  import opened RealMath
  import opened GameStore
  import DroneStore

  /**
   * `windStrength`. The store does not define `windEnabled`; it is a
   * parameter here, and an absent flag is `false`.
   */
  function WindStrength(windEnabled: bool, mode: GameMode, d: Difficulty): (s: real)
    ensures 0.0 <= s <= 3.0
    ensures s > 0.0 <==> windEnabled && mode == Mission
    ensures windEnabled && mode == Mission && d == Easy ==> s == 0.5
    ensures windEnabled && mode == Mission && d == Medium ==> s == 1.5
    ensures windEnabled && mode == Mission && d == Hard ==> s == 3.0
  {
    if !windEnabled || mode.FreeFlight? || mode.Tutorial? then 0.0
    else
      match d
      case Easy => 0.5
      case Medium => 1.5
      case Hard => 3.0
  }

  /**
   * `(sin(0.5 t) * s, sin(0.7 t) * s * 0.3, cos(0.3 t) * s)`: horizontally at
   * most the strength on each axis, vertically at most 0.3 of it.
   */
  function WindForce(time: real, strength: real, m: Transcendentals): (w: Vec3)
    requires Sound(m)
    ensures Abs(w.x) <= Abs(strength) && Abs(w.z) <= Abs(strength)
    ensures Abs(w.y) <= 0.3 * Abs(strength)
  {
    var sx, sy, cz := Sin(m, time * 0.5), Sin(m, time * 0.7), Cos(m, time * 0.3);
    UnitFactor(sx, strength);
    UnitFactor(cz, strength);
    UnitFactor(sy, strength);
    var windX := sx * strength;
    var windZ := cz * strength;
    var windY := sy * strength * 0.3;
    Vec3(windX, windY, windZ)
  }

  /** The sum of the frame deltas, oldest first. */
  function Sum(deltas: seq<real>): real
  {
    if deltas == [] then 0.0 else Sum(deltas[..|deltas| - 1]) + Last(deltas)
  }

  /** The `Wind` component: its `time` ref and the deltas of the frames seen so far. */
  class WindDriver {
    var time: real
    ghost var deltas: seq<real>

    /** The clock is the sum of the frame deltas. */
    ghost predicate Valid()
      reads this
    {
      time == Sum(deltas)
    }

    constructor ()
      ensures time == 0.0 && deltas == []
      ensures Valid()
    {
      time := 0.0;
      deltas := [];
    }

    /**
     * One frame of `delta` seconds: the clock advances, then the drone's
     * physics is stepped with zero wind when the strength is 0 and with the
     * gust at the new clock reading otherwise.
     */
    method Frame(delta: real, windEnabled: bool, game: Game, drone: DroneStore.Drone, m: Transcendentals)
      requires Sound(m) && Valid()
      modifies this`time, this`deltas
      modifies drone`position, drone`rotation, drone`velocity, drone`angularVelocity
      modifies drone`altitude, drone`speed, drone`heading
      ensures Valid() && deltas == old(deltas) + [delta] && time == old(time) + delta
      ensures var strength := WindStrength(windEnabled, game.mode, game.difficulty);
              var wind := if strength == 0.0 then Zero else WindForce(time, strength, m);
              DroneStore.StepResult(drone.Kin(), DroneStore.Telemetry(drone.altitude, drone.speed, drone.heading))
              == DroneStore.Step(old(drone.Kin()), old(drone.Channels()), delta, wind, m)
    {
      time := time + delta;
      deltas := deltas + [delta];
      assert deltas[..|deltas| - 1] == old(deltas);
      var windStrength := WindStrength(windEnabled, game.mode, game.difficulty);
      if windStrength == 0.0 {
        drone.UpdatePhysics(delta, Zero, m);
        return;
      }
      var windForce := WindForce(time, windStrength, m);
      drone.UpdatePhysics(delta, windForce, m);
    }
  }
}
