/**
 * The obstacle course (`client/src/components/Obstacles.tsx`): the ring
 * layout chosen by mode and difficulty, and which obstacle groups are
 * mounted. Free flight mounts nothing, the tutorial mounts its single ring,
 * and a mission mounts the difficulty's rings together with the damaging
 * platforms, beams and balloons; hard adds one beam and one platform.
 */
module ObstaclesModel {
  import opened RealMath
  import opened GameStore

  /**
   * One ring of a layout. The rotation is kept as multiples of pi, the way
   * the table writes it (`Math.PI / 6` is `1/6`).
   */
  datatype RingConfig = RingConfig(pos: Vec3, rotPi: Vec3)

  /** A ring as mounted, with its `id` (also its React key). */
  datatype RingSpec = RingSpec(pos: Vec3, rotPi: Vec3, id: int)

  /** The ring's rotation in radians. */
  function Rotation(m: Transcendentals, r: RingSpec): Vec3
  {
    r.rotPi.Scale(m.pi)
  }

  const TUTORIAL_RING := RingSpec(Vec3(0.0, 5.0, -10.0), Zero, 1)

  const EASY_RINGS: seq<RingConfig> := [
    RingConfig(Vec3(0.0, 5.0, -10.0), Zero),
    RingConfig(Vec3(5.0, 6.0, -20.0), Zero),
    RingConfig(Vec3(-5.0, 7.0, -30.0), Zero),
    RingConfig(Vec3(0.0, 8.0, -40.0), Zero),
    RingConfig(Vec3(3.0, 5.0, -50.0), Zero)
  ]

  const MEDIUM_RINGS: seq<RingConfig> := [
    RingConfig(Vec3(0.0, 5.0, -10.0), Vec3(0.0, 1.0 / 6.0, 0.0)),
    RingConfig(Vec3(7.0, 6.0, -20.0), Vec3(0.0, -1.0 / 6.0, 0.0)),
    RingConfig(Vec3(-7.0, 7.0, -30.0), Vec3(1.0 / 6.0, 0.0, 0.0)),
    RingConfig(Vec3(4.0, 8.0, -40.0), Vec3(0.0, 1.0 / 4.0, 0.0)),
    RingConfig(Vec3(-4.0, 5.0, -50.0), Vec3(0.0, 0.0, 1.0 / 6.0)),
    RingConfig(Vec3(0.0, 10.0, -60.0), Zero)
  ]

  const HARD_RINGS: seq<RingConfig> := [
    RingConfig(Vec3(0.0, 5.0, -10.0), Vec3(0.0, 1.0 / 4.0, 0.0)),
    RingConfig(Vec3(8.0, 4.0, -18.0), Vec3(1.0 / 4.0, 1.0 / 4.0, 0.0)),
    RingConfig(Vec3(-8.0, 8.0, -26.0), Vec3(0.0, -1.0 / 3.0, 1.0 / 6.0)),
    RingConfig(Vec3(6.0, 10.0, -34.0), Vec3(1.0 / 6.0, 0.0, 1.0 / 4.0)),
    RingConfig(Vec3(-6.0, 3.0, -42.0), Vec3(0.0, 1.0 / 2.0, 0.0)),
    RingConfig(Vec3(4.0, 12.0, -50.0), Vec3(1.0 / 3.0, 1.0 / 6.0, 0.0)),
    RingConfig(Vec3(0.0, 6.0, -60.0), Vec3(0.0, 0.0, 1.0 / 3.0))
  ]

  /** `difficultyConfig[difficulty]`. */
  function DifficultyConfig(d: Difficulty): seq<RingConfig>
  {
    match d
    case Easy => EASY_RINGS
    case Medium => MEDIUM_RINGS
    case Hard => HARD_RINGS
  }

  /** `.map((config, idx) => ({ pos, rot, id: idx + 1 }))`: the layout in order, numbered from 1. */
  function Numbered(configs: seq<RingConfig>): (rings: seq<RingSpec>)
    ensures |rings| == |configs|
    ensures forall i :: 0 <= i < |rings| ==>
              rings[i] == RingSpec(configs[i].pos, configs[i].rotPi, i + 1)
  {
    seq(|configs|, i requires 0 <= i < |configs| => RingSpec(configs[i].pos, configs[i].rotPi, i + 1))
  }

  /**
   * `ringPositions`: the tutorial's single ring, otherwise the difficulty's
   * layout, as many rings as the store expects and numbered 1 to n.
   */
  function RingPositions(mode: GameMode, d: Difficulty): (rings: seq<RingSpec>)
    ensures mode == Tutorial ==> rings == [TUTORIAL_RING]
    ensures mode != Tutorial ==> |rings| == TotalRingsFor(d)
    ensures forall i :: 0 <= i < |rings| ==> rings[i].id == i + 1
  {
    if mode == Tutorial then [TUTORIAL_RING] else Numbered(DifficultyConfig(d))
  }

  /** Ring ids are distinct, and they are exactly 1 to n. */
  lemma RingIdsAreOneToN(mode: GameMode, d: Difficulty, id: int)
    ensures var rings := RingPositions(mode, d);
            (exists i :: 0 <= i < |rings| && rings[i].id == id) <==> 1 <= id <= |rings|
    ensures var rings := RingPositions(mode, d);
            forall i, j :: 0 <= i < j < |rings| ==> rings[i].id != rings[j].id
  {
    var rings := RingPositions(mode, d);
    if 1 <= id <= |rings| {
      assert rings[id - 1].id == id;
    }
  }

  /**
   * Every layout starts with the tutorial's ring position, runs ever further
   * down the course (each ring lies beyond the previous one along -z), and
   * keeps every ring above the ground.
   */
  lemma LayoutsAdvanceAlongCourse(mode: GameMode, d: Difficulty)
    ensures var rings := RingPositions(mode, d);
            && rings[0].pos == TUTORIAL_RING.pos
            && (forall i :: 0 < i < |rings| ==> rings[i].pos.z < rings[i - 1].pos.z)
            && (forall i :: 0 <= i < |rings| ==> rings[i].pos.y > 0.0)
  {
    var rings := RingPositions(mode, d);
    if mode != Tutorial {
      var configs := DifficultyConfig(d);
      forall i | 0 < i < |rings|
        ensures rings[i].pos.z < rings[i - 1].pos.z
      {
        assert rings[i].pos == configs[i].pos && rings[i - 1].pos == configs[i - 1].pos;
      }
      forall i | 0 <= i < |rings|
        ensures rings[i].pos.y > 0.0
      {
        assert rings[i].pos == configs[i].pos;
      }
      assert rings[0].pos == configs[0].pos;
    }
  }

  /** A mounted platform's props. */
  datatype PlatformSpec = PlatformSpec(pos: Vec3, size: Vec3, moveRange: real, speed: real, axis: Axis)

  /** A mounted beam's props; thickness 0.3 and axis y are the component's defaults. */
  datatype BeamSpec = BeamSpec(pos: Vec3, length: real, speed: real)

  /** What `Obstacles` mounts: rings, platforms, beams and balloon positions. */
  datatype Scene = Scene(rings: seq<RingSpec>, platforms: seq<PlatformSpec>, beams: seq<BeamSpec>, balloons: seq<Vec3>)

  const MISSION_PLATFORMS: seq<PlatformSpec> := [
    PlatformSpec(Vec3(0.0, 4.0, -15.0), Vec3(4.0, 0.5, 4.0), 2.0, 0.8, Y),
    PlatformSpec(Vec3(6.0, 6.0, -25.0), Vec3(3.0, 0.5, 3.0), 2.5, 1.0, X),
    PlatformSpec(Vec3(-6.0, 8.0, -35.0), Vec3(3.0, 0.5, 3.0), 2.0, 0.9, Z)
  ]

  const MISSION_BEAMS: seq<BeamSpec> := [
    BeamSpec(Vec3(0.0, 6.0, -22.0), 7.0, 0.6),
    BeamSpec(Vec3(5.0, 9.0, -45.0), 6.0, 0.8)
  ]

  const MISSION_BALLOONS: seq<Vec3> := [
    Vec3(3.0, 7.0, -12.0),
    Vec3(-4.0, 9.0, -18.0),
    Vec3(7.0, 5.0, -28.0),
    Vec3(-7.0, 11.0, -38.0),
    Vec3(4.0, 4.0, -48.0),
    Vec3(-3.0, 13.0, -55.0)
  ]

  const HARD_BEAM := BeamSpec(Vec3(-8.0, 7.0, -33.0), 5.0, 1.2)
  const HARD_PLATFORM := PlatformSpec(Vec3(8.0, 10.0, -52.0), Vec3(2.5, 0.5, 2.5), 3.0, 1.2, Y)

  /**
   * The rendered tree: nothing in free flight; the rings in the tutorial;
   * in a mission the rings, the hazards, and the hard-only extras.
   */
  function SceneFor(mode: GameMode, d: Difficulty): (s: Scene)
    ensures mode == FreeFlight ==> s == Scene([], [], [], [])
    ensures mode != FreeFlight ==> s.rings == RingPositions(mode, d)
    ensures mode != Mission ==> s.platforms == [] && s.beams == [] && s.balloons == []
    ensures mode == Mission ==>
              && |s.platforms| == 3 + (if d == Hard then 1 else 0)
              && |s.beams| == 2 + (if d == Hard then 1 else 0)
              && s.balloons == MISSION_BALLOONS
  {
    if mode == FreeFlight then Scene([], [], [], [])
    else
      var showObstacles := mode == Mission;
      if !showObstacles then Scene(RingPositions(mode, d), [], [], [])
      else
        var extraBeams := if d == Hard then [HARD_BEAM] else [];
        var extraPlatforms := if d == Hard then [HARD_PLATFORM] else [];
        Scene(RingPositions(mode, d), MISSION_PLATFORMS + extraPlatforms, MISSION_BEAMS + extraBeams, MISSION_BALLOONS)
  }

  /**
   * Hard differs from the other difficulties' hazards by exactly one more
   * beam and one more platform, appended after the common ones.
   */
  lemma HardAddsOneBeamAndOnePlatform(d: Difficulty)
    requires d != Hard
    ensures SceneFor(Mission, Hard).beams == SceneFor(Mission, d).beams + [HARD_BEAM]
    ensures SceneFor(Mission, Hard).platforms == SceneFor(Mission, d).platforms + [HARD_PLATFORM]
    ensures SceneFor(Mission, Hard).balloons == SceneFor(Mission, d).balloons
  {
  }

  /** The mission's rings are exactly as many as the store needs to complete it. */
  lemma MissionRingsCompleteMission(d: Difficulty, g: Game)
    requires g.Valid() && g.difficulty == d
    ensures |SceneFor(Mission, d).rings| == g.totalRings
  {
  }
}
