/**
 * The game store (`client/src/lib/stores/useGame.tsx`): mode, tutorial step,
 * difficulty, score, ring progress and the instructions toggle. Every action
 * overwrites a fixed set of fields and leaves the others alone.
 */
module GameStore {

  datatype GameMode = FreeFlight | Tutorial | Mission

  datatype TutorialType = Hover | Forward | Turn | Complete

  datatype Difficulty = Easy | Medium | Hard

  const RING_SCORE := 100

  /** `totalRingsByDifficulty`: the number of rings a mission at each difficulty has. */
  function TotalRingsFor(d: Difficulty): (n: nat)
    ensures 5 <= n <= 7
    ensures d == Easy ==> n == 5
    ensures d == Medium ==> n == 6
    ensures d == Hard ==> n == 7
  {
    match d
    case Easy => 5
    case Medium => 6
    case Hard => 7
  }

  class Game {
    var mode: GameMode
    var tutorialType: TutorialType
    var difficulty: Difficulty
    var score: int
    var ringsCollected: int
    var totalRings: int
    var missionComplete: bool
    var showInstructions: bool

    /** The ring target always matches the difficulty, and progress is never negative. */
    ghost predicate Valid()
      reads this
    {
      totalRings == TotalRingsFor(difficulty) && ringsCollected >= 0
    }

    /** A completed mission has collected all its rings. */
    predicate MissionConsistent()
      reads this
    {
      missionComplete ==> ringsCollected >= totalRings
    }

    constructor ()
      ensures mode == FreeFlight && tutorialType == Hover && difficulty == Easy
      ensures score == 0 && ringsCollected == 0 && totalRings == 5
      ensures !missionComplete && showInstructions
      ensures Valid() && MissionConsistent()
    {
      mode := FreeFlight;
      tutorialType := Hover;
      difficulty := Easy;
      score := 0;
      ringsCollected := 0;
      totalRings := 5;
      missionComplete := false;
      showInstructions := true;
    }

    /** Switching mode restarts the score, the ring count and the tutorial. */
    method SetMode(newMode: GameMode)
      requires Valid()
      modifies this`mode, this`score, this`ringsCollected, this`missionComplete, this`tutorialType
      ensures mode == newMode && score == 0 && ringsCollected == 0
      ensures !missionComplete && tutorialType == Hover
      ensures Valid() && MissionConsistent()
    {
      mode := newMode;
      score := 0;
      ringsCollected := 0;
      missionComplete := false;
      tutorialType := Hover;
    }

    /** A new tutorial step also clears the score. */
    method SetTutorialType(t: TutorialType)
      modifies this`tutorialType, this`score
      ensures tutorialType == t && score == 0
      ensures Valid() == old(Valid()) && MissionConsistent() == old(MissionConsistent())
    {
      tutorialType := t;
      score := 0;
    }

    method SetDifficulty(d: Difficulty)
      requires Valid()
      modifies this`difficulty, this`totalRings, this`ringsCollected, this`score, this`missionComplete
      ensures difficulty == d && totalRings == TotalRingsFor(d)
      ensures ringsCollected == 0 && score == 0 && !missionComplete
      ensures Valid() && MissionConsistent()
    {
      difficulty := d;
      totalRings := TotalRingsFor(d);
      ringsCollected := 0;
      score := 0;
      missionComplete := false;
    }

    method AddScore(points: int)
      modifies this`score
      ensures score == old(score) + points
      ensures old(score) >= 0 && points >= 0 ==> score >= 0
      ensures Valid() == old(Valid()) && MissionConsistent() == old(MissionConsistent())
    {
      score := score + points;
    }

    /** One more ring and 100 points; the mission completes once the target is reached. */
    method CollectRing()
      requires Valid()
      modifies this`ringsCollected, this`score, this`missionComplete
      ensures ringsCollected == old(ringsCollected) + 1
      ensures score == old(score) + RING_SCORE
      ensures missionComplete <==> ringsCollected >= totalRings
      ensures Valid() && MissionConsistent()
    {
      var newRingsCollected := ringsCollected + 1;
      var newScore := score + RING_SCORE;
      ringsCollected := newRingsCollected;
      score := newScore;
      missionComplete := newRingsCollected >= totalRings;
    }

    method ResetGame()
      requires Valid()
      modifies this`score, this`ringsCollected, this`missionComplete
      ensures score == 0 && ringsCollected == 0 && !missionComplete
      ensures Valid() && MissionConsistent()
    {
      score := 0;
      ringsCollected := 0;
      missionComplete := false;
    }

    /** Marks the mission complete whatever the ring count. */
    method CompleteMission()
      modifies this`missionComplete
      ensures missionComplete
      ensures Valid() == old(Valid())
    {
      missionComplete := true;
    }

    method ToggleInstructions()
      modifies this`showInstructions
      ensures showInstructions == !old(showInstructions)
      ensures Valid() == old(Valid()) && MissionConsistent() == old(MissionConsistent())
    {
      showInstructions := !showInstructions;
    }
  }

  /** Toggling the instructions twice restores them and touches nothing else. */
  method ToggleInstructionsTwice(g: Game)
    modifies g
    ensures g.showInstructions == old(g.showInstructions)
    ensures unchanged(g`mode, g`tutorialType, g`difficulty, g`score)
    ensures unchanged(g`ringsCollected, g`totalRings, g`missionComplete)
  {
    g.ToggleInstructions();
    g.ToggleInstructions();
  }

  /**
   * `completeMission` is the one action that can break `MissionConsistent`:
   * from a fresh store it reports completion with no ring collected.
   */
  method CompleteMissionEarly() returns (g: Game)
    ensures g.missionComplete && g.ringsCollected == 0 && g.totalRings == 5
    ensures !g.MissionConsistent()
  {
    g := new Game();
    g.CompleteMission();
  }
}
