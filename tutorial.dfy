/**
 * The tutorial panel (`client/src/components/Tutorial.tsx`): a per-step
 * timer counted in effect evaluations, a one-shot 50-point award when the
 * step completes, and a delayed advance to the next step.
 *
 * One call of `Evaluate` is one run of the evaluation effect; `TimeoutElapsed`
 * is the 2-second timeout firing; `ResetForStep` is the effect that runs when
 * the tutorial step changes.
 */
module TutorialPanelModel {
  import opened RealMath
  import opened Options
  import opened GameStore

  const HOVER_THRESHOLD := 60
  const STEP_THRESHOLD := 30
  const STEP_AWARD := 50

  /** The drone telemetry one evaluation reads. */
  datatype Reading = Reading(altitude: real, speed: real, heading: real)

  /** What the switch computes: the new timer and whether the step completed. */
  datatype Outcome = Outcome(timer: int, isComplete: bool)

  /** Whether the reading meets the current step's goal. */
  predicate Satisfied(t: TutorialType, r: Reading)
  {
    match t
    case Hover => 4.0 < r.altitude < 6.0 && r.speed < 0.5
    case Forward => r.speed > 2.0
    case Turn => Abs(r.heading - 180.0) < 20.0 || Abs(r.heading - 180.0) > 340.0
    case Complete => false
  }

  /** The timer value a step needs to exceed: 60 for hovering, 30 otherwise. */
  function Threshold(t: TutorialType): (n: int)
    ensures n == HOVER_THRESHOLD || n == STEP_THRESHOLD
    ensures n == HOVER_THRESHOLD <==> t == Hover
  {
    if t == Hover then HOVER_THRESHOLD else STEP_THRESHOLD
  }

  /**
   * One pass of the switch: a met goal increments the timer and completes the
   * step when the timer read before the increment exceeds the threshold; a
   * missed goal resets the timer, except in the turn step, which keeps it.
   */
  function Evaluation(t: TutorialType, timer: int, r: Reading): (o: Outcome)
    requires t != Complete
    ensures Satisfied(t, r) ==> o.timer == timer + 1 && (o.isComplete <==> timer > Threshold(t))
    ensures !Satisfied(t, r) ==> !o.isComplete
    ensures !Satisfied(t, r) && t != Turn ==> o.timer == 0
    ensures t == Turn ==> o.timer >= timer
  {
    if Satisfied(t, r) then Outcome(timer + 1, timer > Threshold(t))
    else if t == Turn then Outcome(timer, false)
    else Outcome(0, false)
  }

  /** The outcomes of successive evaluations of one step, starting from `timer`. */
  function Timeline(t: TutorialType, timer: int, rs: seq<Reading>): (os: seq<Outcome>)
    requires t != Complete
    ensures |os| == |rs|
    decreases |rs|
  {
    if rs == [] then []
    else
      var o := Evaluation(t, timer, rs[0]);
      [o] + Timeline(t, o.timer, rs[1..])
  }

  /**
   * A run of evaluations that all meet the goal counts up from `timer`, and
   * the i-th of them completes exactly when `timer + i` exceeds the threshold.
   */
  lemma {:induction false} SatisfiedRun(t: TutorialType, timer: int, rs: seq<Reading>)
    requires t != Complete
    requires forall i :: 0 <= i < |rs| ==> Satisfied(t, rs[i])
    ensures forall i :: 0 <= i < |rs| ==>
              && Timeline(t, timer, rs)[i].timer == timer + i + 1
              && (Timeline(t, timer, rs)[i].isComplete <==> timer + i > Threshold(t))
    decreases |rs|
  {
    if rs != [] {
      var o := Evaluation(t, timer, rs[0]);
      SatisfiedRun(t, o.timer, rs[1..]);
      forall i | 0 <= i < |rs|
        ensures Timeline(t, timer, rs)[i].timer == timer + i + 1
        ensures Timeline(t, timer, rs)[i].isComplete <==> timer + i > Threshold(t)
      {
        if i > 0 {
          assert Timeline(t, timer, rs)[i] == Timeline(t, o.timer, rs[1..])[i - 1];
        }
      }
    }
  }

  /** From a fresh timer, hovering completes on the 62nd consecutive good evaluation and not before. */
  lemma HoverCompletesOn62nd(rs: seq<Reading>)
    requires forall i :: 0 <= i < |rs| ==> Satisfied(Hover, rs[i])
    ensures forall i :: 0 <= i < |rs| ==> (Timeline(Hover, 0, rs)[i].isComplete <==> i >= 61)
  {
    SatisfiedRun(Hover, 0, rs);
  }

  /** The forward and turn steps complete on the 32nd consecutive good evaluation. */
  lemma OtherStepsCompleteOn32nd(t: TutorialType, rs: seq<Reading>)
    requires t == Forward || t == Turn
    requires forall i :: 0 <= i < |rs| ==> Satisfied(t, rs[i])
    ensures forall i :: 0 <= i < |rs| ==> (Timeline(t, 0, rs)[i].isComplete <==> i >= 31)
  {
    SatisfiedRun(t, 0, rs);
  }

  /** The turn step's timer never goes down over any sequence of evaluations. */
  lemma {:induction false} TurnNeverResets(timer: int, rs: seq<Reading>)
    ensures forall i :: 0 <= i < |rs| ==> Timeline(Turn, timer, rs)[i].timer >= timer
    decreases |rs|
  {
    if rs != [] {
      var o := Evaluation(Turn, timer, rs[0]);
      TurnNeverResets(o.timer, rs[1..]);
      forall i | 0 < i < |rs|
        ensures Timeline(Turn, timer, rs)[i].timer >= timer
      {
        assert Timeline(Turn, timer, rs)[i] == Timeline(Turn, o.timer, rs[1..])[i - 1];
      }
    }
  }

  /** For a heading in [0, 360) the `> 340` alternative of the turn test never holds. */
  lemma WrapAlternativeUnreachable(heading: real)
    requires 0.0 <= heading < 360.0
    ensures Abs(heading - 180.0) <= 340.0
  {
  }

  /**
   * The drone's heading can be negative (down to -360), and there the `> 340`
   * alternative holds exactly below -160 degrees.
   */
  lemma WrapAlternativeForNegativeHeading(heading: real)
    requires -360.0 < heading < 360.0
    ensures Abs(heading - 180.0) > 340.0 <==> heading < -160.0
  {
  }

  /** Position of a step in the tutorial. */
  function Rank(t: TutorialType): (n: nat)
    ensures n <= 3
  {
    match t
    case Hover => 0
    case Forward => 1
    case Turn => 2
    case Complete => 3
  }

  /** `nextSteps`: hover, forward, turn, complete, in that order. */
  function NextStep(t: TutorialType): (r: TutorialType)
    requires t != Complete
    ensures Rank(r) == Rank(t) + 1
  {
    match t
    case Hover => Forward
    case Forward => Turn
    case Turn => Complete
  }

  /** Every step is reached from the first by the successor table, with no way back. */
  lemma StepsInOrder(t: TutorialType)
    ensures t != Complete ==> NextStep(t) != t && Rank(NextStep(t)) > Rank(t)
    ensures t == Forward <==> t == NextStep(Hover)
    ensures t == Turn <==> t == NextStep(NextStep(Hover))
    ensures t == Complete <==> t == NextStep(NextStep(NextStep(Hover)))
  {
  }

  /** Whether an evaluation in this game state runs the switch at all. */
  predicate Active(mode: GameMode, t: TutorialType)
  {
    mode == Tutorial && t != Complete
  }

  class TutorialPanel {
    var timer: int
    var stepComplete: bool
    /** The step the live 2-second timeout will set, if one is pending. */
    var pending: Option<TutorialType>

    constructor ()
      ensures timer == 0 && !stepComplete && pending == None
    {
      timer := 0;
      stepComplete := false;
      pending := None;
    }

    /** The effect on a change of step: the timer and the completion flag start over. */
    method ResetForStep()
      modifies this`timer, this`stepComplete
      ensures timer == 0 && !stepComplete
    {
      stepComplete := false;
      timer := 0;
    }

    /**
     * One run of the evaluation effect, keeping any pending timeout. Outside
     * tutorial mode or once the tutorial is complete it does nothing;
     * otherwise it applies `Evaluation` and, when the step completes for the
     * first time, sets `stepComplete`, adds 50 points and schedules the next step.
     */
    method Evaluate(game: Game, r: Reading)
      modifies this`timer, this`stepComplete, this`pending, game`score
      ensures !Active(game.mode, game.tutorialType) ==>
                && timer == old(timer) && stepComplete == old(stepComplete)
                && pending == old(pending) && game.score == old(game.score)
      ensures Active(game.mode, game.tutorialType) ==>
                var o := Evaluation(game.tutorialType, old(timer), r);
                var fires := o.isComplete && !old(stepComplete);
                && timer == o.timer
                && stepComplete == (old(stepComplete) || fires)
                && game.score == old(game.score) + (if fires then STEP_AWARD else 0)
                && pending == (if fires then Some(NextStep(game.tutorialType)) else old(pending))
    {
      if game.mode != Tutorial || game.tutorialType == Complete {
        return;
      }
      var t := game.tutorialType;
      var isComplete := false;
      match t {
        case Hover =>
          if 4.0 < r.altitude < 6.0 && r.speed < 0.5 {
            isComplete := timer > HOVER_THRESHOLD;
            timer := timer + 1;
          } else {
            timer := 0;
          }
        case Forward =>
          if r.speed > 2.0 {
            isComplete := timer > STEP_THRESHOLD;
            timer := timer + 1;
          } else {
            timer := 0;
          }
        case Turn =>
          if Abs(r.heading - 180.0) < 20.0 || Abs(r.heading - 180.0) > 340.0 {
            isComplete := timer > STEP_THRESHOLD;
            timer := timer + 1;
          }
      }
      if isComplete && !stepComplete {
        stepComplete := true;
        game.AddScore(STEP_AWARD);
        pending := Some(NextStep(t));
      }
    }

    /**
     * The effect run as the component writes it: React first calls the cleanup
     * the previous run returned, and the only run that returns one is the run
     * that scheduled the timeout, so any pending timeout is cancelled.
     */
    method EvaluateAsWritten(game: Game, r: Reading)
      modifies this`timer, this`stepComplete, this`pending, game`score
      ensures !Active(game.mode, game.tutorialType) ==>
                && timer == old(timer) && stepComplete == old(stepComplete)
                && pending == None && game.score == old(game.score)
      ensures Active(game.mode, game.tutorialType) ==>
                var o := Evaluation(game.tutorialType, old(timer), r);
                var fires := o.isComplete && !old(stepComplete);
                && timer == o.timer
                && stepComplete == (old(stepComplete) || fires)
                && game.score == old(game.score) + (if fires then STEP_AWARD else 0)
                && pending == (if fires then Some(NextStep(game.tutorialType)) else None)
    {
      pending := None;
      Evaluate(game, r);
    }

    /**
     * The 2-second timeout firing: `setTutorialType(next)`, which clears the
     * score, followed by the step-change effect.
     */
    method TimeoutElapsed(game: Game)
      modifies this, game`tutorialType, game`score
      ensures pending == None
      ensures old(pending).Some? ==>
                && game.tutorialType == old(pending).value && game.score == 0
                && (old(pending).value != old(game.tutorialType) ==> timer == 0 && !stepComplete)
                && (old(pending).value == old(game.tutorialType) ==>
                      timer == old(timer) && stepComplete == old(stepComplete))
      ensures old(pending).None? ==>
                && game.tutorialType == old(game.tutorialType) && game.score == old(game.score)
                && timer == old(timer) && stepComplete == old(stepComplete)
    {
      match pending {
        case None =>
        case Some(next) =>
          var before := game.tutorialType;
          game.SetTutorialType(next);
          if next != before {
            ResetForStep();
          }
      }
      pending := None;
    }
  }

  /** Once a step has been awarded, no later evaluation of it adds points. */
  method AwardOnce(panel: TutorialPanel, game: Game, rs: seq<Reading>)
    requires panel.stepComplete
    modifies panel, game`score
    ensures game.score == old(game.score) && panel.stepComplete
  {
    var i := 0;
    while i < |rs|
      invariant 0 <= i <= |rs|
      invariant game.score == old(game.score) && panel.stepComplete
    {
      panel.Evaluate(game, rs[i]);
      i := i + 1;
    }
  }

  const HOVERING := Reading(5.0, 0.0, 0.0)

  /**
   * As written, the hover step never advances. Sixty-two hovering evaluations
   * from a fresh panel complete it; but the evaluation that completes
   * it changes `stepComplete` and `timer`, both dependencies of the effect, so
   * the effect runs again, cancels the timeout, and schedules nothing new.
   */
  method HoverStuckAsWritten() returns (game: Game, panel: TutorialPanel)
    ensures game.mode == Tutorial && panel.stepComplete
    ensures game.tutorialType == Hover && game.score == STEP_AWARD
  {
    game := new Game();
    game.SetMode(Tutorial);
    panel := new TutorialPanel();
    assert Satisfied(Hover, HOVERING);
    var i := 0;
    while i <= HOVER_THRESHOLD
      invariant 0 <= i <= HOVER_THRESHOLD + 1
      invariant panel.timer == i && !panel.stepComplete && panel.pending == None
      invariant game.mode == Tutorial && game.tutorialType == Hover && game.score == 0
    {
      panel.EvaluateAsWritten(game, HOVERING);
      i := i + 1;
    }
    panel.EvaluateAsWritten(game, HOVERING);
    assert panel.pending == Some(Forward);
    panel.EvaluateAsWritten(game, HOVERING);
    assert panel.pending == None;
    panel.TimeoutElapsed(game);
  }

  /** With the timeout kept across re-runs, the same sequence reaches the forward step. */
  method HoverAdvances() returns (game: Game, panel: TutorialPanel)
    ensures game.mode == Tutorial && game.tutorialType == Forward
    ensures game.score == 0 && panel.timer == 0 && !panel.stepComplete
  {
    game := new Game();
    game.SetMode(Tutorial);
    panel := new TutorialPanel();
    assert Satisfied(Hover, HOVERING);
    var i := 0;
    while i <= HOVER_THRESHOLD
      invariant 0 <= i <= HOVER_THRESHOLD + 1
      invariant panel.timer == i && !panel.stepComplete && panel.pending == None
      invariant game.mode == Tutorial && game.tutorialType == Hover && game.score == 0
    {
      panel.Evaluate(game, HOVERING);
      i := i + 1;
    }
    panel.Evaluate(game, HOVERING);
    panel.Evaluate(game, HOVERING);
    assert panel.pending == Some(Forward);
    panel.TimeoutElapsed(game);
  }
}
